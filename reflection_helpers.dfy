/** `ReflectionHelpers`: the presence tests the deserializer uses on raw
    documents. "Filled" means present and truthy, so `0`, `""`, `false`
    and `null` count as unfilled while an empty array counts as filled. */
module ReflectionHelpers {
  import opened Values

  /** `hasProperty`: whether `name` is an own property of `obj`. */
  function HasProperty(obj: Value, name: string): (r: Result<bool>)
    ensures r.Fail? <==> IsNullish(obj)
    ensures r.Ok? ==> (r.value <==> obj.Obj? && HasKey(obj.members, name))
  {
    if HasOwn(obj, name).Fail? then Fail(TypeError)
    else if HasOwn(obj, name).value then Ok(true)
    else Ok(false)
  }

  /** `hasFilledProperty`: an own property whose value is truthy. */
  function HasFilledProperty(obj: Value, name: string): (r: Result<bool>)
    ensures r.Fail? <==> IsNullish(obj)
    ensures r.Ok? ==> (r.value <==> obj.Obj? && Lookup(obj.members, name).Some? && Truthy(Lookup(obj.members, name).value))
  {
    var has :- HasProperty(obj, name);
    if has && Truthy(Get(obj, name).value) then Ok(true) else Ok(false)
  }

  /** `hasFilledArrayProperty`: a filled own property holding an array. */
  function HasFilledArrayProperty(obj: Value, name: string): (r: Result<bool>)
    ensures r.Fail? <==> IsNullish(obj)
    ensures r.Ok? ==> (r.value <==> obj.Obj? && Lookup(obj.members, name).Some? && Lookup(obj.members, name).value.Arr?)
  {
    var filled :- HasFilledProperty(obj, name);
    if filled && Get(obj, name).value.Arr? then Ok(true) else Ok(false)
  }

  /** Each test is stronger than the one before it. */
  lemma FilledChain(obj: Value, name: string)
    ensures HasFilledArrayProperty(obj, name) == Ok(true) ==> HasFilledProperty(obj, name) == Ok(true)
    ensures HasFilledProperty(obj, name) == Ok(true) ==> HasProperty(obj, name) == Ok(true)
  {
  }

  /** `[]` is truthy, so an empty array passes `hasFilledArrayProperty`;
      callers that need elements test the length as well. */
  lemma EmptyArrayIsFilled(name: string)
    ensures HasFilledArrayProperty(Obj([Member(name, Arr([]))]), name) == Ok(true)
  {
  }
}
