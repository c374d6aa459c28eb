/** `SchemaSimplifier`: the rewrites that turn a fetched JSON schema into
    one the form renderer can draw. The passes run in a fixed order:
    resolve local `$ref`s, drop the `"null"` alternative of each property's
    `oneOf`, collapse single-alternative `oneOf`s, strip `int32`/`int64`
    formats, simplify `anyOf`, and drop the top-level `$schema`.

    The source rewrites the document in place; here each pass is a function
    from the old document to the new one (or to the error it throws), and
    the loops of the source are methods proved to compute that function. */
module SchemaSimplifier {
  import opened Values

  /** The number of `$ref` resolution passes before giving up. */
  const MaxTrys := 50

  /** The prefix stripped from a `$ref` to get the definition's key. */
  const DefinitionsPrefix := "#/definitions/"

  // ---------------------------------------------------------------------
  // removeSchemaSpecification

  /** `removeSchemaSpecification`: deletes an own `$schema` key. */
  function RemoveSchemaSpecification(schema: Value): (r: Result<Value>)
    ensures r.Fail? <==> IsNullish(schema)
    ensures r.Ok? && schema.Obj? ==> r.value.Obj? && !HasKey(r.value.members, "$schema")
    ensures r.Ok? && schema.Obj? ==> forall k :: k != "$schema" ==> Lookup(r.value.members, k) == Lookup(schema.members, k)
    ensures r.Ok? && !schema.Obj? ==> r.value == schema
  {
    var has :- HasOwn(schema, "$schema");
    if has then Delete(schema, "$schema") else Ok(schema)
  }

  // ---------------------------------------------------------------------
  // fixUnknownFormats

  /** The integer-width formats the renderer does not know. */
  predicate IsIntFormat(v: Value) {
    v == Str("int32") || v == Str("int64")
  }

  /** A `format` member the pass deletes. */
  predicate IsUnknownFormat(m: Member) {
    m.key == "format" && IsIntFormat(m.val)
  }

  /** No object anywhere in `v` has an `int32`/`int64` format. */
  predicate NoIntFormats(v: Value)
    decreases v
  {
    match v
    case Obj(ms) => forall i :: 0 <= i < |ms| ==> !IsUnknownFormat(ms[i]) && NoIntFormats(ms[i].val)
    case Arr(items) => forall i :: 0 <= i < |items| ==> NoIntFormats(items[i])
    case _ => true
  }

  /** What `fixUnknownFormats` leaves of `v`. */
  function FixedFormats(v: Value): Value
    decreases v
  {
    match v
    case Obj(ms) => Obj(FixedFormatsMembers(ms))
    case Arr(items) => Arr(FixedFormatsItems(items))
    case _ => v
  }

  function FixedFormatsMembers(ms: seq<Member>): seq<Member>
    decreases ms
  {
    if |ms| == 0 then []
    else
      var rest := FixedFormatsMembers(ms[1..]);
      if IsUnknownFormat(ms[0]) then rest else [Member(ms[0].key, FixedFormats(ms[0].val))] + rest
  }

  function FixedFormatsItems(items: seq<Value>): seq<Value>
    decreases items
  {
    if |items| == 0 then [] else [FixedFormats(items[0])] + FixedFormatsItems(items[1..])
  }

  /** `fixUnknownFormats`: visits every own property, deletes an unknown
      format and descends into every object-typed value. */
  method FixUnknownFormats(node: Value) returns (r: Value)
    ensures r == FixedFormats(node)
    decreases node
  {
    match node {
      case Obj(ms) =>
        var kept: seq<Member> := [];
        var i := 0;
        while i < |ms|
          invariant 0 <= i <= |ms|
          invariant FixedFormatsMembers(ms) == kept + FixedFormatsMembers(ms[i..])
        {
          assert ms[i..][0] == ms[i] && ms[i..][1..] == ms[i + 1..];
          var m := ms[i];
          if !IsUnknownFormat(m) {
            var value := m.val;
            if IsObjectType(value) {
              value := FixUnknownFormats(value);
            }
            kept := kept + [Member(m.key, value)];
          }
          i := i + 1;
        }
        r := Obj(kept);
      case Arr(items) =>
        var fixed: seq<Value> := [];
        var i := 0;
        while i < |items|
          invariant 0 <= i <= |items|
          invariant FixedFormatsItems(items) == fixed + FixedFormatsItems(items[i..])
        {
          assert items[i..][0] == items[i] && items[i..][1..] == items[i + 1..];
          var value := items[i];
          if IsObjectType(value) {
            value := FixUnknownFormats(value);
          }
          fixed := fixed + [value];
          i := i + 1;
        }
        r := Arr(fixed);
      case _ =>
        r := node;
    }
  }

  /** After the pass no unknown format is left, at any depth. */
  lemma {:induction false} FixedFormatsRemovesAll(v: Value)
    ensures NoIntFormats(FixedFormats(v))
    decreases v
  {
    match v
    case Obj(ms) => FixedFormatsMembersRemoveAll(ms);
    case Arr(items) => FixedFormatsItemsRemoveAll(items);
    case _ =>
  }

  lemma {:induction false} FixedFormatsMembersRemoveAll(ms: seq<Member>)
    ensures NoIntFormats(Obj(FixedFormatsMembers(ms)))
    decreases ms
  {
    if |ms| > 0 {
      FixedFormatsMembersRemoveAll(ms[1..]);
      FixedFormatsRemovesAll(ms[0].val);
      var rest := FixedFormatsMembers(ms[1..]);
      var r := FixedFormatsMembers(ms);
      if !IsUnknownFormat(ms[0]) {
        forall i | 1 <= i < |r| ensures r[i] == rest[i - 1] { }
      }
    }
  }

  lemma {:induction false} FixedFormatsItemsRemoveAll(items: seq<Value>)
    ensures NoIntFormats(Arr(FixedFormatsItems(items)))
    decreases items
  {
    if |items| > 0 {
      FixedFormatsItemsRemoveAll(items[1..]);
      FixedFormatsRemovesAll(items[0]);
      var rest := FixedFormatsItems(items[1..]);
      var r := FixedFormatsItems(items);
      forall i | 1 <= i < |r| ensures r[i] == rest[i - 1] { }
    }
  }

  /** A document without unknown formats is left exactly as it is. */
  lemma {:induction false} FixedFormatsIdentity(v: Value)
    requires NoIntFormats(v)
    ensures FixedFormats(v) == v
    decreases v
  {
    match v
    case Obj(ms) => FixedFormatsMembersIdentity(ms);
    case Arr(items) => FixedFormatsItemsIdentity(items);
    case _ =>
  }

  lemma {:induction false} FixedFormatsMembersIdentity(ms: seq<Member>)
    requires NoIntFormats(Obj(ms))
    ensures FixedFormatsMembers(ms) == ms
    decreases ms
  {
    if |ms| > 0 {
      assert NoIntFormats(Obj(ms[1..])) by {
        forall i | 0 <= i < |ms[1..]| ensures !IsUnknownFormat(ms[1..][i]) && NoIntFormats(ms[1..][i].val) {
          assert ms[1..][i] == ms[i + 1];
        }
      }
      FixedFormatsMembersIdentity(ms[1..]);
      FixedFormatsIdentity(ms[0].val);
      assert [ms[0]] + ms[1..] == ms;
    }
  }

  lemma {:induction false} FixedFormatsItemsIdentity(items: seq<Value>)
    requires NoIntFormats(Arr(items))
    ensures FixedFormatsItems(items) == items
    decreases items
  {
    if |items| > 0 {
      assert NoIntFormats(Arr(items[1..])) by {
        forall i | 0 <= i < |items[1..]| ensures NoIntFormats(items[1..][i]) {
          assert items[1..][i] == items[i + 1];
        }
      }
      FixedFormatsItemsIdentity(items[1..]);
      FixedFormatsIdentity(items[0]);
      assert [items[0]] + items[1..] == items;
    }
  }

  /** Running the pass twice is the same as running it once. */
  lemma FixedFormatsIdempotent(v: Value)
    ensures FixedFormats(FixedFormats(v)) == FixedFormats(v)
  {
    FixedFormatsRemovesAll(v);
    FixedFormatsIdentity(FixedFormats(v));
  }

  /** Every key other than `format` survives the pass, and no key appears. */
  lemma {:induction false} FixedFormatsKeepsKeys(ms: seq<Member>, k: string)
    requires k != "format"
    ensures HasKey(FixedFormatsMembers(ms), k) <==> HasKey(ms, k)
    decreases ms
  {
    if |ms| > 0 {
      var rest := FixedFormatsMembers(ms[1..]);
      FixedFormatsKeepsKeys(ms[1..], k);
      LookupCons(ms[0], ms[1..]);
      assert [ms[0]] + ms[1..] == ms;
      assert HasKey(ms, k) <==> ms[0].key == k || HasKey(ms[1..], k) by {
        assert Lookup(ms, k).Some? <==> HasKey(ms, k);
        assert Lookup(ms[1..], k).Some? <==> HasKey(ms[1..], k);
      }
      if !IsUnknownFormat(ms[0]) {
        var m := Member(ms[0].key, FixedFormats(ms[0].val));
        LookupCons(m, rest);
        assert Lookup([m] + rest, k).Some? <==> HasKey([m] + rest, k);
        assert Lookup(rest, k).Some? <==> HasKey(rest, k);
      }
    }
  }

  // ---------------------------------------------------------------------
  // removeNullType

  /** `item.type === 'null'` (reading `type` of a nullish item throws). */
  predicate IsNullTyped(item: Value) {
    Get(item, "type") == Ok(Str("null"))
  }

  predicate NoNullish(s: seq<Value>) {
    forall i :: 0 <= i < |s| ==> !IsNullish(s[i])
  }

  /** How many alternatives are typed `"null"`. */
  function NullTypeCount(s: seq<Value>): nat
    decreases s
  {
    if |s| == 0 then 0
    else NullTypeCount(s[..|s| - 1]) + (if IsNullTyped(s[|s| - 1]) then 1 else 0)
  }

  /** The position of the last `"null"`-typed alternative, or -1. */
  function LastNullTypeIndex(s: seq<Value>): (r: int)
    ensures -1 <= r < |s|
    ensures r >= 0 ==> IsNullTyped(s[r])
    ensures r < 0 <==> NullTypeCount(s) == 0
    decreases s
  {
    if |s| == 0 then -1
    else if IsNullTyped(s[|s| - 1]) then |s| - 1
    else LastNullTypeIndex(s[..|s| - 1])
  }

  /** The alternatives that are not typed `"null"`, in order. */
  function NonNullTyped(s: seq<Value>): seq<Value>
    decreases s
  {
    if |s| == 0 then []
    else NonNullTyped(s[..|s| - 1]) + (if IsNullTyped(s[|s| - 1]) then [] else [s[|s| - 1]])
  }

  /** What `removeNullType` leaves of a `oneOf` list, or what it throws:
      a nullish alternative throws while counting, more than one `"null"`
      alternative throws after counting, and otherwise exactly the
      `"null"`-typed alternatives are gone. */
  function RemovedNullType(oneOf: seq<Value>): (r: Result<seq<Value>>)
    ensures !NoNullish(oneOf) ==> r == Fail(TypeError)
    ensures NoNullish(oneOf) && NullTypeCount(oneOf) > 1 ==> r == Fail(TooManyNullTypes(NullTypeCount(oneOf)))
    ensures NoNullish(oneOf) && NullTypeCount(oneOf) <= 1 ==> r == Ok(NonNullTyped(oneOf))
  {
    if !NoNullish(oneOf) then Fail(TypeError)
    else if NullTypeCount(oneOf) > 1 then Fail(TooManyNullTypes(NullTypeCount(oneOf)))
    else
      var i := LastNullTypeIndex(oneOf);
      SpliceIsFilter(oneOf);
      if i == -1 then Ok(oneOf) else Ok(oneOf[..i] + oneOf[i + 1..])
  }

  /** With at most one `"null"` alternative, splicing out the last one is
      the same as filtering out all of them. */
  lemma {:induction false} SpliceIsFilter(s: seq<Value>)
    requires NullTypeCount(s) <= 1
    ensures LastNullTypeIndex(s) < 0 ==> NonNullTyped(s) == s
    ensures LastNullTypeIndex(s) >= 0 ==>
      NonNullTyped(s) == s[..LastNullTypeIndex(s)] + s[LastNullTypeIndex(s) + 1..]
    decreases s
  {
    if |s| > 0 {
      var front, last := s[..|s| - 1], s[|s| - 1];
      SpliceIsFilter(front);
      if IsNullTyped(last) {
        SpliceLast(s);
      } else {
        SpliceBeforeLast(s);
      }
    }
  }

  /** The last alternative is the `"null"` one: the rest is kept whole. */
  lemma SpliceLast(s: seq<Value>)
    requires |s| > 0 && IsNullTyped(s[|s| - 1]) && NullTypeCount(s) <= 1
    requires LastNullTypeIndex(s[..|s| - 1]) < 0 ==> NonNullTyped(s[..|s| - 1]) == s[..|s| - 1]
    ensures LastNullTypeIndex(s) == |s| - 1
    ensures NonNullTyped(s) == s[..|s| - 1] + s[|s|..]
  {
    assert s[|s|..] == [];
  }

  /** The last alternative is kept: it follows what is kept of the rest. */
  lemma SpliceBeforeLast(s: seq<Value>)
    requires |s| > 0 && !IsNullTyped(s[|s| - 1]) && NullTypeCount(s) <= 1
    requires var front := s[..|s| - 1];
      && (LastNullTypeIndex(front) < 0 ==> NonNullTyped(front) == front)
      && (LastNullTypeIndex(front) >= 0 ==>
            NonNullTyped(front) == front[..LastNullTypeIndex(front)] + front[LastNullTypeIndex(front) + 1..])
    ensures LastNullTypeIndex(s) < 0 ==> NonNullTyped(s) == s
    ensures LastNullTypeIndex(s) >= 0 ==>
      NonNullTyped(s) == s[..LastNullTypeIndex(s)] + s[LastNullTypeIndex(s) + 1..]
  {
    var front, last := s[..|s| - 1], s[|s| - 1];
    var i := LastNullTypeIndex(front);
    assert LastNullTypeIndex(s) == i;
    assert NonNullTyped(s) == NonNullTyped(front) + [last];
    if i < 0 {
      assert front + [last] == s;
    } else {
      assert s[..i] == front[..i];
      assert s[i + 1..] == front[i + 1..] + [last];
    }
  }

  /** The alternatives other than the spliced one are not `"null"`-typed. */
  lemma {:induction false} OthersNotNullTyped(s: seq<Value>)
    requires NullTypeCount(s) <= 1
    ensures forall j :: 0 <= j < |s| && j != LastNullTypeIndex(s) ==> !IsNullTyped(s[j])
    decreases s
  {
    if |s| > 0 {
      var front := s[..|s| - 1];
      OthersNotNullTyped(front);
      if IsNullTyped(s[|s| - 1]) {
        ZeroCountNoneNullTyped(front);
      }
      forall j | 0 <= j < |s| - 1 ensures s[j] == front[j] { }
    }
  }

  lemma {:induction false} ZeroCountNoneNullTyped(s: seq<Value>)
    requires NullTypeCount(s) == 0
    ensures forall j :: 0 <= j < |s| ==> !IsNullTyped(s[j])
    decreases s
  {
    if |s| > 0 {
      var front := s[..|s| - 1];
      ZeroCountNoneNullTyped(front);
      forall j | 0 <= j < |s| - 1 ensures s[j] == front[j] { }
    }
  }

  /** `removeNullType`: counts the `"null"` alternatives in one pass,
      remembering the last one's position, then splices it out. */
  method RemoveNullType(oneOf: seq<Value>) returns (r: Result<seq<Value>>)
    ensures r == RemovedNullType(oneOf)
  {
    var scan :- ScanNullTypes(oneOf);
    if scan.count > 1 {
      return Fail(TooManyNullTypes(scan.count));
    }
    if scan.lastIndex == -1 {
      return Ok(oneOf);
    }
    r := Ok(oneOf[..scan.lastIndex] + oneOf[scan.lastIndex + 1..]);
  }

  /** What the counting loop of `removeNullType` finds. */
  datatype NullTypeScan = NullTypeScan(count: nat, lastIndex: int)

  /** The counting loop of `removeNullType`; reading `type` of a nullish
      alternative throws. */
  method ScanNullTypes(oneOf: seq<Value>) returns (r: Result<NullTypeScan>)
    ensures r.Fail? <==> !NoNullish(oneOf)
    ensures r.Fail? ==> r.error == TypeError
    ensures r.Ok? ==> r.value == NullTypeScan(NullTypeCount(oneOf), LastNullTypeIndex(oneOf))
  {
    var nullTypeCount := 0;
    var nullTypeItemIndex := -1;
    var index := 0;
    while index < |oneOf|
      invariant 0 <= index <= |oneOf|
      invariant NoNullish(oneOf[..index])
      invariant nullTypeCount == NullTypeCount(oneOf[..index])
      invariant nullTypeItemIndex == LastNullTypeIndex(oneOf[..index])
    {
      ScanStep(oneOf, index);
      var t := Get(oneOf[index], "type");
      if t.Fail? {
        return Fail(t.error);
      }
      if Truthy(t.value) && t.value == Str("null") {
        nullTypeCount := nullTypeCount + 1;
        nullTypeItemIndex := index;
      }
      index := index + 1;
    }
    assert oneOf[..|oneOf|] == oneOf;
    r := Ok(NullTypeScan(nullTypeCount, nullTypeItemIndex));
  }

  /** Scanning one more alternative. */
  lemma ScanStep(oneOf: seq<Value>, index: int)
    requires 0 <= index < |oneOf|
    ensures var seen, next := oneOf[..index], oneOf[..index + 1];
      && (NoNullish(next) <==> NoNullish(seen) && !IsNullish(oneOf[index]))
      && NullTypeCount(next) == NullTypeCount(seen) + (if IsNullTyped(oneOf[index]) then 1 else 0)
      && LastNullTypeIndex(next) == (if IsNullTyped(oneOf[index]) then index else LastNullTypeIndex(seen))
      && (!NoNullish(seen) ==> !NoNullish(oneOf))
      && (IsNullish(oneOf[index]) ==> !NoNullish(oneOf))
  {
    var seen, next := oneOf[..index], oneOf[..index + 1];
    assert next[..index] == seen && next[index] == oneOf[index];
    if !NoNullish(seen) {
      var i :| 0 <= i < index && IsNullish(seen[i]);
      assert oneOf[i] == seen[i];
    }
  }

  // ---------------------------------------------------------------------
  // fixNullablesInOneOf

  /** The result of `fixNullablesInOneOf(schema)`: only `properties` can
      change. */
  function NullablesFixed(schema: Value): (r: Result<Value>)
    ensures IsNullish(schema) ==> r == Fail(TypeError)
    ensures r.Ok? ==> (r.value.Obj? <==> schema.Obj?)
    ensures r.Ok? && schema.Obj? ==> forall k :: k != "properties" ==> Lookup(r.value.members, k) == Lookup(schema.members, k)
    ensures r.Ok? && !schema.Obj? ==> r.value == schema
    decreases schema
  {
    var properties :- Get(schema, "properties");
    if !Truthy(properties) then Ok(schema)
    else
      var fixed :- NullablesFixedEntries(properties);
      Ok(Obj(SetMember(schema.members, "properties", fixed)))
  }

  /** The `properties` value after the loop over its own entries. */
  function NullablesFixedEntries(properties: Value): Result<Value>
    decreases properties
  {
    match properties
    case Obj(ms) => var fixed :- NullablesFixedMembers(ms); Ok(Obj(fixed))
    case Arr(items) => var fixed :- NullablesFixedItems(items); Ok(Arr(fixed))
    case _ => Ok(properties)
  }

  function NullablesFixedMembers(ms: seq<Member>): Result<seq<Member>>
    decreases ms
  {
    if |ms| == 0 then Ok([])
    else
      var fixed :- NullablesFixedProperty(ms[0].val);
      var rest :- NullablesFixedMembers(ms[1..]);
      Ok([Member(ms[0].key, fixed)] + rest)
  }

  function NullablesFixedItems(items: seq<Value>): Result<seq<Value>>
    decreases items
  {
    if |items| == 0 then Ok([])
    else
      var fixed :- NullablesFixedProperty(items[0]);
      var rest :- NullablesFixedItems(items[1..]);
      Ok([fixed] + rest)
  }

  /** One property's schema: a truthy `oneOf` array loses its `"null"`
      alternative, and each remaining alternative is fixed in turn. */
  function NullablesFixedProperty(p: Value): (r: Result<Value>)
    decreases p
  {
    var oneOf :- Get(p, "oneOf");
    if Truthy(oneOf) && oneOf.Arr? then
      var kept :- RemovedNullType(oneOf.items);
      var fixed :- NullablesFixedEach(oneOf.items, LastNullTypeIndex(oneOf.items));
      Ok(Obj(SetMember(p.members, "oneOf", Arr(fixed))))
    else Ok(p)
  }

  /** The `forEach` over the alternatives `removeNullType` kept: every
      element except the one at position `skip`. */
  function NullablesFixedEach(items: seq<Value>, skip: int): Result<seq<Value>>
    decreases items
  {
    if |items| == 0 then Ok([])
    else if skip == 0 then NullablesFixedEach(items[1..], -1)
    else
      var fixed :- NullablesFixed(items[0]);
      var rest :- NullablesFixedEach(items[1..], skip - 1);
      Ok([fixed] + rest)
  }

  /** No alternative the nullable pass leaves in a `oneOf` is typed `"null"`,
      since the pass keeps every alternative's `type`. */
  lemma {:induction false} NullablesFixedEachNoNull(items: seq<Value>, skip: int)
    requires forall j :: 0 <= j < |items| && j != skip ==> !IsNullTyped(items[j])
    ensures var r := NullablesFixedEach(items, skip);
      r.Ok? ==> forall i :: 0 <= i < |r.value| ==> !IsNullTyped(r.value[i])
    decreases items
  {
    if |items| > 0 {
      forall j | 0 <= j < |items[1..]| ensures items[1..][j] == items[j + 1] { }
      NullablesFixedEachNoNull(items[1..], skip - 1);
    }
  }

  /** A property whose `oneOf` is a truthy array keeps all its other keys
      and ends with a `oneOf` that holds no `"null"`-typed alternative. */
  lemma NullablesFixedPropertyRemovesNull(p: Value)
    requires Get(p, "oneOf").Ok? && Truthy(Get(p, "oneOf").value) && Get(p, "oneOf").value.Arr?
    ensures var r := NullablesFixedProperty(p);
      r.Ok? ==> && r.value.Obj?
                && (forall k :: k != "oneOf" ==> Lookup(r.value.members, k) == Lookup(p.members, k))
                && Lookup(r.value.members, "oneOf").Some?
                && var alts := Lookup(r.value.members, "oneOf").value;
                   alts.Arr? && forall i :: 0 <= i < |alts.items| ==> !IsNullTyped(alts.items[i])
  {
    var items := Get(p, "oneOf").value.items;
    if RemovedNullType(items).Ok? {
      OthersNotNullTyped(items);
      NullablesFixedEachNoNull(items, LastNullTypeIndex(items));
    }
  }

  /** `fixNullablesInOneOf`: the loop over the own entries of
      `schema.properties`. */
  method FixNullablesInOneOf(schema: Value) returns (r: Result<Value>)
    ensures r == NullablesFixed(schema)
    decreases schema
  {
    var properties :- Get(schema, "properties");
    if !Truthy(properties) {
      return Ok(schema);
    }
    var fixed: Value;
    match properties {
      case Obj(ms) =>
        var done: seq<Member> := [];
        var i := 0;
        assert ms[0..] == ms;
        PrependedNothing(NullablesFixedMembers(ms));
        while i < |ms|
          invariant 0 <= i <= |ms|
          invariant NullablesFixedMembers(ms) == Prepended(done, NullablesFixedMembers(ms[i..]))
        {
          assert ms[i..][0] == ms[i] && ms[i..][1..] == ms[i + 1..];
          var p := FixNullablesInProperty(ms[i].val);
          if p.Fail? {
            return Fail(p.error);
          }
          PrependedAssoc(done, [Member(ms[i].key, p.value)], NullablesFixedMembers(ms[i + 1..]));
          done := done + [Member(ms[i].key, p.value)];
          i := i + 1;
        }
        assert ms[i..] == [] && done + [] == done;
        fixed := Obj(done);
      case Arr(items) =>
        var done: seq<Value> := [];
        var i := 0;
        assert items[0..] == items;
        PrependedNothing(NullablesFixedItems(items));
        while i < |items|
          invariant 0 <= i <= |items|
          invariant NullablesFixedItems(items) == Prepended(done, NullablesFixedItems(items[i..]))
        {
          assert items[i..][0] == items[i] && items[i..][1..] == items[i + 1..];
          var p := FixNullablesInProperty(items[i]);
          if p.Fail? {
            return Fail(p.error);
          }
          PrependedAssoc(done, [p.value], NullablesFixedItems(items[i + 1..]));
          done := done + [p.value];
          i := i + 1;
        }
        assert items[i..] == [] && done + [] == done;
        fixed := Arr(done);
      case _ =>
        fixed := properties;
    }
    r := Ok(Obj(SetMember(schema.members, "properties", fixed)));
  }

  /** The position in the original `oneOf` of the `i`-th alternative left
      after splicing out position `skip`. */
  function KeptPosition(i: int, skip: int): int {
    if 0 <= skip <= i then i + 1 else i
  }

  /** What `removeNullType` keeps is the original list read through
      `KeptPosition`. */
  lemma KeptIsSplice(items: seq<Value>)
    requires RemovedNullType(items).Ok?
    ensures var kept, skip := RemovedNullType(items).value, LastNullTypeIndex(items);
      && |kept| + (if skip >= 0 then 1 else 0) == |items|
      && forall i :: 0 <= i < |kept| ==> kept[i] == items[KeptPosition(i, skip)]
  {
    SpliceIsFilter(items);
  }

  /** One step of the recursion over the kept alternatives: fix the one at
      position `j`, then go on after it, jumping over `skip`. */
  lemma EachStep(items: seq<Value>, skip: int, j: int)
    requires 0 <= j < |items| && j != skip && skip < |items|
    ensures var next := if skip == j + 1 then j + 2 else j + 1;
      && next <= |items|
      && NullablesFixedEach(items[j..], skip - j) ==
           match NullablesFixed(items[j])
           case Fail(e) => Fail(e)
           case Ok(x) => Prepended([x], NullablesFixedEach(items[next..], skip - next))
  {
    assert items[j..][0] == items[j] && items[j..][1..] == items[j + 1..];
    if skip == j + 1 {
      assert items[j + 1..][1..] == items[j + 2..];
    }
  }

  /** Before the loop over the kept alternatives: nothing is done yet, and a
      `"null"` alternative in front is already jumped over. */
  lemma AlternativesStart(items: seq<Value>, skip: int)
    requires -1 <= skip < |items|
    ensures var j := KeptPosition(0, skip);
      j <= |items| && NullablesFixedEach(items, skip) == Prepended([], NullablesFixedEach(items[j..], skip - j))
  {
    assert items[0..] == items;
    PrependedNothing(NullablesFixedEach(items, skip));
    if skip == 0 {
      PrependedNothing(NullablesFixedEach(items[1..], -1));
    }
  }

  /** One turn of the loop over the kept alternatives, on the accumulated
      result `done`. */
  lemma AlternativesStep(items: seq<Value>, skip: int, kept: seq<Value>, i: int, done: seq<Value>)
    requires -1 <= skip < |items| && 0 <= i < |kept|
    requires |kept| + (if skip >= 0 then 1 else 0) == |items|
    requires forall i :: 0 <= i < |kept| ==> kept[i] == items[KeptPosition(i, skip)]
    ensures var j, k := KeptPosition(i, skip), KeptPosition(i + 1, skip);
      && k <= |items|
      && Prepended(done, NullablesFixedEach(items[j..], skip - j)) ==
           match NullablesFixed(kept[i])
           case Fail(e) => Fail(e)
           case Ok(x) => Prepended(done + [x], NullablesFixedEach(items[k..], skip - k))
  {
    var j, k := KeptPosition(i, skip), KeptPosition(i + 1, skip);
    EachStep(items, skip, j);
    if NullablesFixed(kept[i]).Ok? {
      PrependedAssoc(done, [NullablesFixed(kept[i]).value], NullablesFixedEach(items[k..], skip - k));
    }
  }

  /** The body of the loop in `fixNullablesInOneOf` for one property:
      `removeNullType(oneOf)`, then the recursion into each alternative
      that is left. */
  method FixNullablesInProperty(p: Value) returns (r: Result<Value>)
    ensures r == NullablesFixedProperty(p)
    decreases p
  {
    var oneOf :- Get(p, "oneOf");
    if !(Truthy(oneOf) && oneOf.Arr?) {
      return Ok(p);
    }
    var kept :- RemoveNullType(oneOf.items);
    KeptIsSplice(oneOf.items);
    var fixed :- FixNullablesInAlternatives(oneOf, kept, LastNullTypeIndex(oneOf.items));
    r := Ok(Obj(SetMember(p.members, "oneOf", Arr(fixed))));
  }

  /** The `forEach` of `fixNullablesInOneOf` over what `removeNullType`
      kept of `oneOf`, which is `oneOf` without position `skip`. */
  method FixNullablesInAlternatives(oneOf: Value, kept: seq<Value>, ghost skip: int) returns (r: Result<seq<Value>>)
    requires oneOf.Arr? && -1 <= skip < |oneOf.items|
    requires |kept| + (if skip >= 0 then 1 else 0) == |oneOf.items|
    requires forall i :: 0 <= i < |kept| ==> kept[i] == oneOf.items[KeptPosition(i, skip)]
    ensures r == NullablesFixedEach(oneOf.items, skip)
    decreases oneOf
  {
    var items := oneOf.items;
    var done: seq<Value> := [];
    var i := 0;
    AlternativesStart(items, skip);
    while i < |kept|
      invariant 0 <= i <= |kept|
      invariant KeptPosition(i, skip) <= |items|
      invariant NullablesFixedEach(items, skip)
        == Prepended(done, NullablesFixedEach(items[KeptPosition(i, skip)..], skip - KeptPosition(i, skip)))
    {
      AlternativesStep(items, skip, kept, i, done);
      var e := FixNullablesInOneOf(kept[i]);
      if e.Fail? {
        return Fail(e.error);
      }
      done := done + [e.value];
      i := i + 1;
    }
    assert items[KeptPosition(i, skip)..] == [] && done + [] == done;
    r := Ok(done);
  }

  // ---------------------------------------------------------------------
  // flatenOneOf

  /** The result of `flatenOneOf(schema)`: only `properties` can change. */
  function Flattened(schema: Value): (r: Result<Value>)
    ensures IsNullish(schema) ==> r == Fail(TypeError)
    ensures r.Ok? ==> (r.value.Obj? <==> schema.Obj?)
    ensures r.Ok? && schema.Obj? ==> forall k :: k != "properties" ==> Lookup(r.value.members, k) == Lookup(schema.members, k)
    ensures r.Ok? && !schema.Obj? ==> r.value == schema
    decreases schema
  {
    var properties :- Get(schema, "properties");
    if !Truthy(properties) then Ok(schema)
    else
      var flattened :- FlattenedEntries(properties);
      Ok(Obj(SetMember(schema.members, "properties", flattened)))
  }

  function FlattenedEntries(properties: Value): Result<Value>
    decreases properties
  {
    match properties
    case Obj(ms) => var flattened :- FlattenedMembers(ms); Ok(Obj(flattened))
    case Arr(items) => var flattened :- FlattenedItems(items); Ok(Arr(flattened))
    case _ => Ok(properties)
  }

  function FlattenedMembers(ms: seq<Member>): Result<seq<Member>>
    decreases ms
  {
    if |ms| == 0 then Ok([])
    else
      var flattened :- FlattenedProperty(ms[0].val);
      var rest :- FlattenedMembers(ms[1..]);
      Ok([Member(ms[0].key, flattened)] + rest)
  }

  function FlattenedItems(items: seq<Value>): Result<seq<Value>>
    decreases items
  {
    if |items| == 0 then Ok([])
    else
      var flattened :- FlattenedProperty(items[0]);
      var rest :- FlattenedItems(items[1..]);
      Ok([flattened] + rest)
  }

  /** One property's schema: a truthy `oneOf` array must have at most one
      alternative; a truthy one replaces the property and is flattened in
      turn, otherwise only the `oneOf` key goes. */
  function FlattenedProperty(p: Value): (r: Result<Value>)
    decreases p
  {
    var oneOf :- Get(p, "oneOf");
    if Truthy(oneOf) && oneOf.Arr? then
      if |oneOf.items| > 1 then Fail(OneOfNotFlattenable)
      else if |oneOf.items| == 0 || !Truthy(oneOf.items[0]) then Ok(Obj(RemoveKey(p.members, "oneOf")))
      else Flattened(oneOf.items[0])
    else Ok(p)
  }

  /** The three outcomes for a property whose `oneOf` is a truthy array; a
      single truthy alternative replaces the property and has its own
      `properties` flattened in turn. */
  lemma FlattenedPropertyCases(p: Value)
    requires Get(p, "oneOf").Ok? && Truthy(Get(p, "oneOf").value) && Get(p, "oneOf").value.Arr?
    ensures var alts, r := Get(p, "oneOf").value.items, FlattenedProperty(p);
      && (|alts| > 1 ==> r == Fail(OneOfNotFlattenable))
      && (|alts| == 1 && Truthy(alts[0]) ==> r == Flattened(alts[0]))
      && (|alts| == 1 && Truthy(alts[0]) && r.Ok? ==>
            && (r.value.Obj? <==> alts[0].Obj?)
            && (alts[0].Obj? ==> forall k :: k != "properties" ==> Lookup(r.value.members, k) == Lookup(alts[0].members, k)))
      && ((|alts| == 0 || (|alts| == 1 && !Truthy(alts[0]))) ==>
            && r.Ok? && r.value.Obj? && !HasKey(r.value.members, "oneOf")
            && forall k :: k != "oneOf" ==> Lookup(r.value.members, k) == Lookup(p.members, k))
  {
  }

  /** `flatenOneOf`: the loop over the own entries of `schema.properties`. */
  method FlatenOneOf(schema: Value) returns (r: Result<Value>)
    ensures r == Flattened(schema)
    decreases schema
  {
    var properties :- Get(schema, "properties");
    if !Truthy(properties) {
      return Ok(schema);
    }
    var flattened: Value;
    match properties {
      case Obj(ms) =>
        var done: seq<Member> := [];
        var i := 0;
        assert ms[0..] == ms;
        PrependedNothing(FlattenedMembers(ms));
        while i < |ms|
          invariant 0 <= i <= |ms|
          invariant FlattenedMembers(ms) == Prepended(done, FlattenedMembers(ms[i..]))
        {
          assert ms[i..][0] == ms[i] && ms[i..][1..] == ms[i + 1..];
          var p := FlatenProperty(ms[i].val);
          if p.Fail? {
            return Fail(p.error);
          }
          PrependedAssoc(done, [Member(ms[i].key, p.value)], FlattenedMembers(ms[i + 1..]));
          done := done + [Member(ms[i].key, p.value)];
          i := i + 1;
        }
        assert ms[i..] == [] && done + [] == done;
        flattened := Obj(done);
      case Arr(items) =>
        var done: seq<Value> := [];
        var i := 0;
        assert items[0..] == items;
        PrependedNothing(FlattenedItems(items));
        while i < |items|
          invariant 0 <= i <= |items|
          invariant FlattenedItems(items) == Prepended(done, FlattenedItems(items[i..]))
        {
          assert items[i..][0] == items[i] && items[i..][1..] == items[i + 1..];
          var p := FlatenProperty(items[i]);
          if p.Fail? {
            return Fail(p.error);
          }
          PrependedAssoc(done, [p.value], FlattenedItems(items[i + 1..]));
          done := done + [p.value];
          i := i + 1;
        }
        assert items[i..] == [] && done + [] == done;
        flattened := Arr(done);
      case _ =>
        flattened := properties;
    }
    r := Ok(Obj(SetMember(schema.members, "properties", flattened)));
  }

  /** The body of the loop in `flatenOneOf` for one property. */
  method FlatenProperty(p: Value) returns (r: Result<Value>)
    ensures r == FlattenedProperty(p)
    decreases p
  {
    var oneOf :- Get(p, "oneOf");
    if !(Truthy(oneOf) && oneOf.Arr?) {
      return Ok(p);
    }
    if |oneOf.items| > 1 {
      return Fail(OneOfNotFlattenable);
    }
    var containedSchema := if |oneOf.items| == 0 then Undefined else oneOf.items[0];
    var withoutOneOf := Obj(RemoveKey(p.members, "oneOf"));
    if !Truthy(containedSchema) {
      return Ok(withoutOneOf);
    }
    r := FlatenOneOf(containedSchema);
  }

  // ---------------------------------------------------------------------
  // simplifyAnyOf

  /** `s.type === t`. */
  predicate IsTyped(s: Value, t: string) {
    Get(s, "type") == Ok(Str(t))
  }

  /** The length of `items.filter(s => s.type === t)`. */
  function TypedCount(items: seq<Value>, t: string): nat
    decreases items
  {
    if |items| == 0 then 0 else (if IsTyped(items[0], t) then 1 else 0) + TypedCount(items[1..], t)
  }

  /** The filter finds something exactly when some alternative has that type. */
  lemma {:induction false} TypedCountPositive(items: seq<Value>, t: string)
    ensures TypedCount(items, t) > 0 <==> exists i :: 0 <= i < |items| && IsTyped(items[i], t)
    decreases items
  {
    if |items| > 0 {
      TypedCountPositive(items[1..], t);
      if exists i :: 0 <= i < |items| && IsTyped(items[i], t) {
        var i :| 0 <= i < |items| && IsTyped(items[i], t);
        if i > 0 { assert items[1..][i - 1] == items[i]; }
      }
      if exists i :: 0 <= i < |items[1..]| && IsTyped(items[1..][i], t) {
        var i :| 0 <= i < |items[1..]| && IsTyped(items[1..][i], t);
        assert items[i + 1] == items[1..][i];
      }
    }
  }

  /** Whether an `anyOf` holds both a `number` and an `integer` alternative.
      `anyOf` must be an array (only arrays have `filter`) whose elements
      are not nullish (each one's `type` is read). */
  function AnyOfCollapses(anyOf: Value): (r: Result<bool>)
    ensures r.Fail? <==> !anyOf.Arr? || !NoNullish(anyOf.items)
    ensures r.Fail? ==> r.error == TypeError
    ensures r.Ok? ==> (r.value <==>
      (exists i :: 0 <= i < |anyOf.items| && IsTyped(anyOf.items[i], "number")) &&
      (exists i :: 0 <= i < |anyOf.items| && IsTyped(anyOf.items[i], "integer")))
  {
    if !anyOf.Arr? || !NoNullish(anyOf.items) then Fail(TypeError)
    else
      TypedCountPositive(anyOf.items, "number");
      TypedCountPositive(anyOf.items, "integer");
      Ok(TypedCount(anyOf.items, "number") > 0 && TypedCount(anyOf.items, "integer") > 0)
  }

  /** The keys whose values the recursion of `simplifyAnyOf` does not touch:
      `type` once the node sets it, and `anyOf` once the node deletes it. */
  function Untouched(collapse: bool): set<string> {
    if collapse then {"type", "anyOf"} else {"type"}
  }

  /** The result of `simplifyAnyOf(schema)`. A node owning `anyOf` becomes
      `type: "number"` without `anyOf` when the alternatives mix `number` and
      `integer`, and `type: "object"` keeping `anyOf` otherwise; every
      property is simplified in turn. */
  function AnyOfSimplified(schema: Value): (r: Result<Value>)
    ensures !schema.Obj? && !schema.Arr? ==> r == Ok(schema)
    ensures r.Ok? ==> r.value.Obj? == schema.Obj? && r.value.Arr? == schema.Arr?
    ensures r.Ok? && schema.Arr? ==> |r.value.items| == |schema.items|
    ensures r.Ok? && schema.Obj? && !HasKey(schema.members, "anyOf") ==> SameKeys(r.value.members, schema.members)
    ensures r.Ok? && schema.Obj? && HasKey(schema.members, "anyOf") ==>
      var collapse := AnyOfCollapses(Lookup(schema.members, "anyOf").value);
      && collapse.Ok?
      && (collapse.value ==> Lookup(r.value.members, "type") == Some(Str("number")) && !HasKey(r.value.members, "anyOf"))
      && (!collapse.value ==> Lookup(r.value.members, "type") == Some(Str("object")) && HasKey(r.value.members, "anyOf"))
    decreases schema
  {
    match schema
    case Obj(ms) =>
      if HasKey(ms, "anyOf") then
        var collapse :- AnyOfCollapses(Lookup(ms, "anyOf").value);
        var children :- AnyOfSimplifiedMembers(ms, Untouched(collapse));
        SameKeysHasKey(children, ms, "anyOf");
        if collapse then Ok(Obj(RemoveKey(SetMember(children, "type", Str("number")), "anyOf")))
        else Ok(Obj(SetMember(children, "type", Str("object"))))
      else
        var children :- AnyOfSimplifiedMembers(ms, {});
        Ok(Obj(children))
    case Arr(items) =>
      var children :- AnyOfSimplifiedItems(items);
      Ok(Arr(children))
    case _ => Ok(schema)
  }

  lemma SameKeysHasKey(a: seq<Member>, b: seq<Member>, k: string)
    requires SameKeys(a, b)
    ensures HasKey(a, k) <==> HasKey(b, k)
  {
    IndexOfSameKeys(a, b, k);
  }

  /** The recursion over an object's own properties, leaving the values of
      the `untouched` keys as they are. */
  function AnyOfSimplifiedMembers(ms: seq<Member>, untouched: set<string>): (r: Result<seq<Member>>)
    ensures r.Ok? ==> SameKeys(r.value, ms)
    decreases ms
  {
    if |ms| == 0 then Ok([])
    else
      var simplified :- if ms[0].key in untouched then Ok(ms[0].val) else AnyOfSimplified(ms[0].val);
      var rest :- AnyOfSimplifiedMembers(ms[1..], untouched);
      Ok([Member(ms[0].key, simplified)] + rest)
  }

  function AnyOfSimplifiedItems(items: seq<Value>): (r: Result<seq<Value>>)
    ensures r.Ok? ==> |r.value| == |items|
    decreases items
  {
    if |items| == 0 then Ok([])
    else
      var simplified :- AnyOfSimplified(items[0]);
      var rest :- AnyOfSimplifiedItems(items[1..]);
      Ok([simplified] + rest)
  }

  /** `simplifyAnyOf`. The recursion into the properties runs before the
      node's own `type`/`anyOf` rewrite here; the rewrite only writes a
      string to `type` and deletes `anyOf`, which the source's recursion
      would not descend into, so the resulting document is the same. */
  method SimplifyAnyOf(schema: Value) returns (r: Result<Value>)
    ensures r == AnyOfSimplified(schema)
    decreases schema
  {
    match schema {
      case Obj(ms) =>
        if HasKey(ms, "anyOf") {
          var collapse :- AnyOfCollapses(Lookup(ms, "anyOf").value);
          var children :- SimplifyAnyOfMembers(ms, Untouched(collapse));
          if collapse {
            r := Ok(Obj(RemoveKey(SetMember(children, "type", Str("number")), "anyOf")));
          } else {
            r := Ok(Obj(SetMember(children, "type", Str("object"))));
          }
        } else {
          var children :- SimplifyAnyOfMembers(ms, {});
          r := Ok(Obj(children));
        }
      case Arr(items) =>
        var done: seq<Value> := [];
        var i := 0;
        assert items[0..] == items;
        PrependedNothing(AnyOfSimplifiedItems(items));
        while i < |items|
          invariant 0 <= i <= |items|
          invariant AnyOfSimplifiedItems(items) == Prepended(done, AnyOfSimplifiedItems(items[i..]))
        {
          assert items[i..][0] == items[i] && items[i..][1..] == items[i + 1..];
          var e := SimplifyAnyOf(items[i]);
          if e.Fail? {
            return Fail(e.error);
          }
          PrependedAssoc(done, [e.value], AnyOfSimplifiedItems(items[i + 1..]));
          done := done + [e.value];
          i := i + 1;
        }
        assert items[i..] == [] && done + [] == done;
        r := Ok(Arr(done));
      case _ =>
        r := Ok(schema);
    }
  }

  /** The `for..in` loop of `simplifyAnyOf` over an object's properties. */
  method SimplifyAnyOfMembers(ms: seq<Member>, untouched: set<string>) returns (r: Result<seq<Member>>)
    ensures r == AnyOfSimplifiedMembers(ms, untouched)
    decreases ms
  {
    var done: seq<Member> := [];
    var i := 0;
    assert ms[0..] == ms;
    PrependedNothing(AnyOfSimplifiedMembers(ms, untouched));
    while i < |ms|
      invariant 0 <= i <= |ms|
      invariant AnyOfSimplifiedMembers(ms, untouched) == Prepended(done, AnyOfSimplifiedMembers(ms[i..], untouched))
    {
      assert ms[i..][0] == ms[i] && ms[i..][1..] == ms[i + 1..];
      var value := ms[i].val;
      if ms[i].key !in untouched {
        var e := SimplifyAnyOf(value);
        if e.Fail? {
          return Fail(e.error);
        }
        value := e.value;
      }
      PrependedAssoc(done, [Member(ms[i].key, value)], AnyOfSimplifiedMembers(ms[i + 1..], untouched));
      done := done + [Member(ms[i].key, value)];
      i := i + 1;
    }
    assert ms[i..] == [] && done + [] == done;
    r := Ok(done);
  }

  // ---------------------------------------------------------------------
  // resolveLocalReferences and ReplaceRefs

  /** Some object in `v` owns a `$ref` key: what `find(schema, {$ref: ...})`
      reports as non-empty. */
  predicate HasRefs(v: Value)
    decreases v
  {
    match v
    case Obj(ms) => HasKey(ms, "$ref") || exists i :: 0 <= i < |ms| && HasRefs(ms[i].val)
    case Arr(items) => exists i :: 0 <= i < |items| && HasRefs(items[i])
    case _ => false
  }

  /** `schema.definitions[ref.replace('#/definitions/', '')]`, which must
      be truthy. A non-string `$ref` has no `replace`. */
  function ResolveRef(ref: Value, definitions: Value): (r: Result<Value>)
    ensures !ref.Str? || IsNullish(definitions) ==> r == Fail(TypeError)
    ensures ref.Str? && !IsNullish(definitions) ==>
      var found := Get(definitions, RemoveFirst(ref.s, DefinitionsPrefix)).value;
      r == if Truthy(found) then Ok(found) else Fail(UnresolvableReference(ref.s))
  {
    if !ref.Str? then Fail(TypeError)
    else
      var replacement :- Get(definitions, RemoveFirst(ref.s, DefinitionsPrefix));
      if !Truthy(replacement) then Fail(UnresolvableReference(ref.s)) else Ok(replacement)
  }

  /** `delete refParent.$ref; Object.assign(refParent, replacement)`: the
      node loses `$ref`, takes every own property of the replacement
      (the last one wins on a repeated key) and keeps its other keys. */
  function ReplaceRefNode(ms: seq<Member>, replacement: Value): (r: seq<Member>)
    ensures forall k :: HasKey(OwnEntries(replacement), k) ==> Lookup(r, k) == LookupLast(OwnEntries(replacement), k)
    ensures !HasKey(OwnEntries(replacement), "$ref") ==> !HasKey(r, "$ref")
    ensures forall k :: !HasKey(OwnEntries(replacement), k) && k != "$ref" ==> Lookup(r, k) == Lookup(ms, k)
  {
    Assign(RemoveKey(ms, "$ref"), replacement)
  }

  /** One pass of `ReplaceRefs` over every node that owns `$ref`, parents
      before their descendants, each resolved against `definitions` as it
      was when the pass began. */
  function RefsReplaced(v: Value, definitions: Value): (r: Result<Value>)
    ensures r.Ok? ==> (r.value.Obj? <==> v.Obj?)
    ensures !HasRefs(v) ==> r == Ok(v)
    decreases v
  {
    match v
    case Obj(ms) =>
      if HasKey(ms, "$ref") then
        var replacement :- ResolveRef(Lookup(ms, "$ref").value, definitions);
        var children :- RefsReplacedMembers(ms, definitions);
        Ok(Obj(ReplaceRefNode(children, replacement)))
      else
        var children :- RefsReplacedMembers(ms, definitions);
        Ok(Obj(children))
    case Arr(items) =>
      var children :- RefsReplacedItems(items, definitions);
      Ok(Arr(children))
    case _ => Ok(v)
  }

  function RefsReplacedMembers(ms: seq<Member>, definitions: Value): (r: Result<seq<Member>>)
    ensures (forall i :: 0 <= i < |ms| ==> !HasRefs(ms[i].val)) ==> r == Ok(ms)
    decreases ms
  {
    if |ms| == 0 then Ok([])
    else
      var replaced :- RefsReplaced(ms[0].val, definitions);
      var rest :- RefsReplacedMembers(ms[1..], definitions);
      assert (forall i :: 0 <= i < |ms| ==> !HasRefs(ms[i].val)) ==> [ms[0]] + ms[1..] == ms && forall i :: 0 <= i < |ms[1..]| ==> !HasRefs(ms[1..][i].val) by {
        if forall i :: 0 <= i < |ms| ==> !HasRefs(ms[i].val) {
          forall i | 0 <= i < |ms[1..]| ensures !HasRefs(ms[1..][i].val) { assert ms[1..][i] == ms[i + 1]; }
        }
      }
      Ok([Member(ms[0].key, replaced)] + rest)
  }

  function RefsReplacedItems(items: seq<Value>, definitions: Value): (r: Result<seq<Value>>)
    ensures (forall i :: 0 <= i < |items| ==> !HasRefs(items[i])) ==> r == Ok(items)
    decreases items
  {
    if |items| == 0 then Ok([])
    else
      var replaced :- RefsReplaced(items[0], definitions);
      var rest :- RefsReplacedItems(items[1..], definitions);
      assert (forall i :: 0 <= i < |items| ==> !HasRefs(items[i])) ==> [items[0]] + items[1..] == items && forall i :: 0 <= i < |items[1..]| ==> !HasRefs(items[1..][i]) by {
        if forall i :: 0 <= i < |items| ==> !HasRefs(items[i]) {
          forall i | 0 <= i < |items[1..]| ensures !HasRefs(items[1..][i]) { assert items[1..][i] == items[i + 1]; }
        }
      }
      Ok([replaced] + rest)
  }

  /** Where the resolution loop stopped: the document and the number of
      passes it ran. */
  datatype Resolution = Resolution(schema: Value, passes: nat)

  /** The `while` loop of `resolveLocalReferences` from pass `iteration` on:
      it stops when no `$ref` is left or when the budget is spent. */
  function ResolveFrom(schema: Value, iteration: nat): (r: Result<Resolution>)
    requires iteration <= MaxTrys
    ensures r.Ok? ==> iteration <= r.value.passes <= MaxTrys
    ensures r.Ok? && r.value.passes < MaxTrys ==> !HasRefs(r.value.schema)
    ensures !HasRefs(schema) ==> r == Ok(Resolution(schema, iteration))
    decreases MaxTrys - iteration
  {
    if iteration == MaxTrys || !HasRefs(schema) then Ok(Resolution(schema, iteration))
    else
      // a document holding a `$ref` is an object or an array, so reading
      // its `definitions` does not throw
      var definitions := Get(schema, "definitions").value;
      var next :- RefsReplaced(schema, definitions);
      ResolveFrom(next, iteration + 1)
  }

  /** The result of `resolveLocalReferences(schema)`. */
  function ResolvedLocalReferences(schema: Value): Result<Value> {
    var run :- ResolveFrom(schema, 0);
    if run.passes == MaxTrys then Ok(run.schema) else Delete(run.schema, "definitions")
  }

  /** When the loop ends before the budget is spent, no `$ref` is left and
      `definitions` is gone; when the budget is spent, the document is kept
      as the last pass left it, `definitions` included. */
  lemma ResolvedLocalReferencesOutcome(schema: Value)
    ensures var r := ResolvedLocalReferences(schema);
      var run := ResolveFrom(schema, 0);
      && (run.Ok? && run.value.passes < MaxTrys && r.Ok? ==>
            !HasRefs(r.value) && (r.value.Obj? ==> !HasKey(r.value.members, "definitions")))
      && (run.Ok? && run.value.passes == MaxTrys ==> r == Ok(run.value.schema) && HasRefs(r.value) == HasRefs(run.value.schema))
  {
    var run := ResolveFrom(schema, 0);
    if run.Ok? && run.value.passes < MaxTrys {
      DeleteKeepsNoRefs(run.value.schema, "definitions");
    }
  }

  /** Deleting a key introduces no `$ref`. */
  lemma DeleteKeepsNoRefs(v: Value, k: string)
    requires !HasRefs(v)
    ensures Delete(v, k).Ok? ==> !HasRefs(Delete(v, k).value)
  {
    if v.Obj? {
      var r := RemoveKey(v.members, k);
      forall i | 0 <= i < |r| ensures !HasRefs(r[i].val) {
        assert r[i] in v.members;
      }
    }
  }

  /** A document without `$ref` only loses its `definitions`. */
  lemma NoRefsOnlyDropsDefinitions(schema: Value)
    requires !HasRefs(schema)
    ensures ResolvedLocalReferences(schema) == Delete(schema, "definitions")
  {
  }

  /** `resolveLocalReferences`: at most `MaxTrys` passes of `find` and
      `ReplaceRefs`, then `definitions` is deleted unless the budget ran out. */
  method ResolveLocalReferences(schema: Value) returns (r: Result<Value>)
    ensures r == ResolvedLocalReferences(schema)
  {
    var run :- RunReplaceRefsPasses(schema);
    if run.passes == MaxTrys {
      r := Ok(run.schema);
    } else {
      r := Delete(run.schema, "definitions");
    }
  }

  /** The `while` loop of `resolveLocalReferences`. */
  method RunReplaceRefsPasses(schema: Value) returns (r: Result<Resolution>)
    ensures r == ResolveFrom(schema, 0)
  {
    var current := schema;
    var iteration := 0;
    while iteration < MaxTrys && HasRefs(current)
      invariant 0 <= iteration <= MaxTrys
      invariant ResolveFrom(current, iteration) == ResolveFrom(schema, 0)
      decreases MaxTrys - iteration
    {
      var next := ReplaceRefsPass(current, iteration);
      if next.Fail? {
        return Fail(next.error);
      }
      current := next.value;
      iteration := iteration + 1;
    }
    ResolveStop(current, iteration);
    r := Ok(Resolution(current, iteration));
  }

  /** One pass of the loop: `ReplaceRefs` against the current `definitions`. */
  method ReplaceRefsPass(current: Value, iteration: nat) returns (next: Result<Value>)
    requires iteration < MaxTrys && HasRefs(current)
    ensures next.Fail? ==> ResolveFrom(current, iteration) == Fail(next.error)
    ensures next.Ok? ==> ResolveFrom(current, iteration) == ResolveFrom(next.value, iteration + 1)
  {
    var definitions := Get(current, "definitions").value;
    next := RefsReplaced(current, definitions);
  }

  /** Where the loop stops. */
  lemma ResolveStop(current: Value, iteration: nat)
    requires iteration <= MaxTrys && (iteration == MaxTrys || !HasRefs(current))
    ensures ResolveFrom(current, iteration) == Ok(Resolution(current, iteration))
  {
  }

  // ---------------------------------------------------------------------
  // simplifySchema

  /** The result of `simplifySchema(response)`: the six passes in order,
      stopping at the first one that throws. */
  function SimplifiedSchema(response: Value): Result<Value> {
    var resolved :- ResolvedLocalReferences(response);
    var nullablesFixed :- NullablesFixed(resolved);
    var flattened :- Flattened(nullablesFixed);
    var formatsFixed := FixedFormats(flattened);
    var anyOfSimplified :- AnyOfSimplified(formatsFixed);
    RemoveSchemaSpecification(anyOfSimplified)
  }

  /** `simplifySchema`. */
  method SimplifySchema(response: Value) returns (r: Result<Value>)
    ensures r == SimplifiedSchema(response)
  {
    var resolved :- ResolveLocalReferences(response);
    var nullablesFixed :- FixNullablesInOneOf(resolved);
    var flattened :- FlatenOneOf(nullablesFixed);
    var formatsFixed := FixUnknownFormats(flattened);
    var anyOfSimplified :- SimplifyAnyOf(formatsFixed);
    r := RemoveSchemaSpecification(anyOfSimplified);
  }

  /** A simplified schema has no `int32`/`int64` format anywhere and no
      top-level `$schema`. */
  lemma SimplifiedSchemaProperties(response: Value)
    ensures var r := SimplifiedSchema(response);
      r.Ok? ==> NoIntFormats(r.value) && (r.value.Obj? ==> !HasKey(r.value.members, "$schema"))
  {
    var resolved := ResolvedLocalReferences(response);
    if resolved.Ok? {
      var nullablesFixed := NullablesFixed(resolved.value);
      if nullablesFixed.Ok? {
        var flattened := Flattened(nullablesFixed.value);
        if flattened.Ok? {
          var formatsFixed := FixedFormats(flattened.value);
          FixedFormatsRemovesAll(flattened.value);
          AnyOfKeepsNoIntFormats(formatsFixed);
          var anyOfSimplified := AnyOfSimplified(formatsFixed);
          if anyOfSimplified.Ok? {
            DeleteKeepsNoIntFormats(anyOfSimplified.value, "$schema");
          }
        }
      }
    }
  }

  /** Deleting a key introduces no unknown format. */
  lemma DeleteKeepsNoIntFormats(v: Value, k: string)
    requires NoIntFormats(v)
    ensures Delete(v, k).Ok? ==> NoIntFormats(Delete(v, k).value)
  {
    if v.Obj? {
      RemoveKeyKeepsNoIntFormats(v.members, k);
    }
  }

  /** `simplifyAnyOf` writes only `type` and deletes only `anyOf`, so it
      introduces no unknown format. */
  lemma {:induction false} AnyOfKeepsNoIntFormats(v: Value)
    requires NoIntFormats(v)
    ensures AnyOfSimplified(v).Ok? ==> NoIntFormats(AnyOfSimplified(v).value)
    decreases v
  {
    match v
    case Obj(ms) =>
      if HasKey(ms, "anyOf") {
        var collapse := AnyOfCollapses(Lookup(ms, "anyOf").value);
        if collapse.Ok? {
          var children := AnyOfSimplifiedMembers(ms, Untouched(collapse.value));
          AnyOfMembersKeepNoIntFormats(ms, Untouched(collapse.value));
          if children.Ok? {
            var typed := SetMember(children.value, "type", Str(if collapse.value then "number" else "object"));
            SetMemberKeepsNoIntFormats(children.value, "type", Str(if collapse.value then "number" else "object"));
            RemoveKeyKeepsNoIntFormats(typed, "anyOf");
          }
        }
      } else {
        AnyOfMembersKeepNoIntFormats(ms, {});
      }
    case Arr(items) => AnyOfItemsKeepNoIntFormats(items);
    case _ =>
  }

  lemma SetMemberKeepsNoIntFormats(ms: seq<Member>, k: string, x: Value)
    requires NoIntFormats(Obj(ms)) && NoIntFormats(x) && !IsUnknownFormat(Member(k, x))
    ensures NoIntFormats(Obj(SetMember(ms, k, x)))
  {
    var r := SetMember(ms, k, x);
    forall i | 0 <= i < |r| ensures !IsUnknownFormat(r[i]) && NoIntFormats(r[i].val) {
      if r[i] != Member(k, x) {
        var j :| 0 <= j < |ms| && ms[j] == r[i];
      }
    }
  }

  lemma RemoveKeyKeepsNoIntFormats(ms: seq<Member>, k: string)
    requires NoIntFormats(Obj(ms))
    ensures NoIntFormats(Obj(RemoveKey(ms, k)))
  {
    var r := RemoveKey(ms, k);
    forall i | 0 <= i < |r| ensures !IsUnknownFormat(r[i]) && NoIntFormats(r[i].val) {
      var j :| 0 <= j < |ms| && ms[j] == r[i];
    }
  }

  lemma {:induction false} AnyOfMembersKeepNoIntFormats(ms: seq<Member>, untouched: set<string>)
    requires NoIntFormats(Obj(ms))
    ensures AnyOfSimplifiedMembers(ms, untouched).Ok? ==> NoIntFormats(Obj(AnyOfSimplifiedMembers(ms, untouched).value))
    decreases ms
  {
    if |ms| > 0 {
      assert NoIntFormats(Obj(ms[1..])) by {
        forall i | 0 <= i < |ms[1..]| ensures !IsUnknownFormat(ms[1..][i]) && NoIntFormats(ms[1..][i].val) {
          assert ms[1..][i] == ms[i + 1];
        }
      }
      AnyOfMembersKeepNoIntFormats(ms[1..], untouched);
      AnyOfKeepsNoIntFormats(ms[0].val);
      var r := AnyOfSimplifiedMembers(ms, untouched);
      if r.Ok? {
        var rest := AnyOfSimplifiedMembers(ms[1..], untouched).value;
        forall i | 1 <= i < |r.value| ensures r.value[i] == rest[i - 1] { }
        assert r.value[0].key == ms[0].key;
      }
    }
  }

  lemma {:induction false} AnyOfItemsKeepNoIntFormats(items: seq<Value>)
    requires NoIntFormats(Arr(items))
    ensures AnyOfSimplifiedItems(items).Ok? ==> NoIntFormats(Arr(AnyOfSimplifiedItems(items).value))
    decreases items
  {
    if |items| > 0 {
      assert NoIntFormats(Arr(items[1..])) by {
        forall i | 0 <= i < |items[1..]| ensures NoIntFormats(items[1..][i]) {
          assert items[1..][i] == items[i + 1];
        }
      }
      AnyOfItemsKeepNoIntFormats(items[1..]);
      AnyOfKeepsNoIntFormats(items[0]);
      var r := AnyOfSimplifiedItems(items);
      if r.Ok? {
        var rest := AnyOfSimplifiedItems(items[1..]).value;
        forall i | 1 <= i < |r.value| ensures r.value[i] == rest[i - 1] { }
      }
    }
  }

  // ---------------------------------------------------------------------
  // Worked examples

  /** A `#/definitions/<name>` reference is looked up under `name`. */
  lemma ResolveRefByName(name: string, definitions: Value)
    requires !IsNullish(definitions)
    ensures var found := Get(definitions, name).value;
      ResolveRef(Str(DefinitionsPrefix + name), definitions)
        == if Truthy(found) then Ok(found) else Fail(UnresolvableReference(DefinitionsPrefix + name))
  {
    var ref := DefinitionsPrefix + name;
    assert ref[..|DefinitionsPrefix|] == DefinitionsPrefix && ref[|DefinitionsPrefix|..] == name;
  }

  /** A document whose root refers to a definition it does not have fails
      with `UnresolvableReference`. */
  lemma MissingDefinitionFails(ms: seq<Member>, name: string, definitions: seq<Member>)
    requires Lookup(ms, "$ref") == Some(Str(DefinitionsPrefix + name))
    requires Lookup(ms, "definitions") == Some(Obj(definitions))
    requires !HasKey(definitions, name)
    ensures ResolvedLocalReferences(Obj(ms)) == Fail(UnresolvableReference(DefinitionsPrefix + name))
  {
    ResolveRefByName(name, Obj(definitions));
    assert HasRefs(Obj(ms));
    assert Get(Obj(ms), "definitions") == Ok(Obj(definitions));
    assert RefsReplaced(Obj(ms), Obj(definitions)) == Fail(UnresolvableReference(DefinitionsPrefix + name));
  }

  /** No object anywhere in `v` owns an `anyOf`. */
  predicate NoAnyOf(v: Value)
    decreases v
  {
    match v
    case Obj(ms) => !HasKey(ms, "anyOf") && forall i :: 0 <= i < |ms| ==> NoAnyOf(ms[i].val)
    case Arr(items) => forall i :: 0 <= i < |items| ==> NoAnyOf(items[i])
    case _ => true
  }

  /** `simplifyAnyOf` leaves a schema without `anyOf` as it is. */
  lemma {:induction false} AnyOfIdentity(v: Value)
    requires NoAnyOf(v)
    ensures AnyOfSimplified(v) == Ok(v)
    decreases v
  {
    match v
    case Obj(ms) => AnyOfIdentityMembers(ms);
    case Arr(items) => AnyOfIdentityItems(items);
    case _ =>
  }

  lemma {:induction false} AnyOfIdentityMembers(ms: seq<Member>)
    requires forall i :: 0 <= i < |ms| ==> NoAnyOf(ms[i].val)
    ensures AnyOfSimplifiedMembers(ms, {}) == Ok(ms)
    decreases ms
  {
    if |ms| > 0 {
      AnyOfIdentity(ms[0].val);
      assert forall i :: 0 <= i < |ms[1..]| ==> NoAnyOf(ms[1..][i].val) by {
        forall i | 0 <= i < |ms[1..]| ensures NoAnyOf(ms[1..][i].val) { assert ms[1..][i] == ms[i + 1]; }
      }
      AnyOfIdentityMembers(ms[1..]);
      assert [Member(ms[0].key, ms[0].val)] + ms[1..] == ms;
    }
  }

  lemma {:induction false} AnyOfIdentityItems(items: seq<Value>)
    requires forall i :: 0 <= i < |items| ==> NoAnyOf(items[i])
    ensures AnyOfSimplifiedItems(items) == Ok(items)
    decreases items
  {
    if |items| > 0 {
      AnyOfIdentity(items[0]);
      assert forall i :: 0 <= i < |items[1..]| ==> NoAnyOf(items[1..][i]) by {
        forall i | 0 <= i < |items[1..]| ensures NoAnyOf(items[1..][i]) { assert items[1..][i] == items[i + 1]; }
      }
      AnyOfIdentityItems(items[1..]);
      assert [items[0]] + items[1..] == items;
    }
  }

  /** The properties named in `untouched` keep their values. */
  lemma {:induction false} AnyOfUntouchedMembers(ms: seq<Member>, untouched: set<string>)
    requires forall i :: 0 <= i < |ms| ==> ms[i].key in untouched
    ensures AnyOfSimplifiedMembers(ms, untouched) == Ok(ms)
    decreases ms
  {
    if |ms| > 0 {
      assert forall i :: 0 <= i < |ms[1..]| ==> ms[1..][i].key in untouched by {
        forall i | 0 <= i < |ms[1..]| ensures ms[1..][i].key in untouched { assert ms[1..][i] == ms[i + 1]; }
      }
      AnyOfUntouchedMembers(ms[1..], untouched);
      assert [Member(ms[0].key, ms[0].val)] + ms[1..] == ms;
    }
  }

  /** `simplifyAnyOf` is not idempotent: a nested `anyOf` that collapses to
      `number` on the first run makes its parent collapse on the second. */
  lemma AnyOfNotIdempotent()
    ensures var once := AnyOfSimplified(MixedAnyOf);
      && once.Ok?
      && AnyOfSimplified(once.value) != once
  {
    MixedAnyOfOnce();
    MixedAnyOfTwice();
  }

  const NumberType := Obj([Member("type", Str("number"))])
  const IntegerType := Obj([Member("type", Str("integer"))])
  const NumberOrIntegerType := Obj([Member("anyOf", Arr([NumberType, IntegerType]))])
  /** `{anyOf: [{type: "integer"}, {anyOf: [{type: "number"}, {type: "integer"}]}]}` */
  const MixedAnyOf := Obj([Member("anyOf", Arr([IntegerType, NumberOrIntegerType]))])
  /** What the first run makes of `MixedAnyOf`. */
  const MixedAnyOfSimplified := Obj([Member("anyOf", Arr([IntegerType, NumberType])), Member("type", Str("object"))])

  lemma NumberTyped()
    ensures IsTyped(NumberType, "number") && !IsTyped(NumberType, "integer")
  {
  }

  lemma IntegerTyped()
    ensures IsTyped(IntegerType, "integer") && !IsTyped(IntegerType, "number")
  {
  }

  /** `anyOf: [number, integer]` holds both. */
  lemma NumberOrIntegerCollapses()
    ensures AnyOfCollapses(NumberOrIntegerType.members[0].val) == Ok(true)
  {
    NumberTyped();
    IntegerTyped();
    var alternatives := NumberOrIntegerType.members[0].val.items;
    assert IsTyped(alternatives[0], "number") && IsTyped(alternatives[1], "integer");
  }

  /** `anyOf: [number, integer]` collapses to `number`. */
  lemma NumberOrInteger()
    ensures AnyOfSimplified(NumberOrIntegerType) == Ok(NumberType)
  {
    var ms := NumberOrIntegerType.members;
    assert ms[0].key == "anyOf" && Lookup(ms, "anyOf") == Some(ms[0].val);
    NumberOrIntegerCollapses();
    AnyOfUntouchedMembers(ms, Untouched(true));
    AnyOfNode(ms, true, ms);
    var typed := SetMember(ms, "type", Str("number"));
    assert !HasKey(ms, "type");
    assert typed == ms + [Member("type", Str("number"))];
    assert typed[1..] == [Member("type", Str("number"))];
    assert RemoveKey(typed[1..], "anyOf") == typed[1..];
  }

  /** `anyOf: [integer, {anyOf: ...}]` has no `number` alternative. */
  lemma MixedDoesNotCollapse()
    ensures AnyOfCollapses(MixedAnyOf.members[0].val) == Ok(false)
  {
    var alternatives := MixedAnyOf.members[0].val.items;
    IntegerTyped();
    assert !HasKey(NumberOrIntegerType.members, "type");
    forall i | 0 <= i < |alternatives| ensures !IsTyped(alternatives[i], "number") {
      if i == 0 {
        assert alternatives[i] == IntegerType;
      } else {
        assert alternatives[i] == NumberOrIntegerType;
      }
    }
  }

  /** A pair of alternatives simplifies one by one. */
  lemma PairSimplified(a: Value, b: Value, a': Value, b': Value)
    requires AnyOfSimplified(a) == Ok(a') && AnyOfSimplified(b) == Ok(b')
    ensures AnyOfSimplifiedItems([a, b]) == Ok([a', b'])
  {
    assert [a, b][1..] == [b] && [a, b][0] == a;
    assert [b][1..] == [] && [b][0] == b;
    assert AnyOfSimplifiedItems([]) == Ok([]);
    assert [b'] + [] == [b'];
    assert AnyOfSimplifiedItems([b]) == Ok([b']);
    assert [a'] + [b'] == [a', b'];
  }

  /** A single property outside `untouched` is simplified. */
  lemma SingleSimplified(k: string, v: Value, v': Value, untouched: set<string>)
    requires k !in untouched && AnyOfSimplified(v) == Ok(v')
    ensures AnyOfSimplifiedMembers([Member(k, v)], untouched) == Ok([Member(k, v')])
  {
    var ms := [Member(k, v)];
    assert ms[1..] == [] && ms[0].key !in untouched && ms[0].val == v;
    assert AnyOfSimplifiedMembers(ms[1..], untouched) == Ok([]);
    assert [Member(k, v')] + [] == [Member(k, v')];
  }

  /** The rewrite of one node owning `anyOf`, once its properties are
      simplified. */
  lemma AnyOfNode(ms: seq<Member>, collapse: bool, children: seq<Member>)
    requires HasKey(ms, "anyOf") && AnyOfCollapses(Lookup(ms, "anyOf").value) == Ok(collapse)
    requires AnyOfSimplifiedMembers(ms, Untouched(collapse)) == Ok(children)
    ensures AnyOfSimplified(Obj(ms)) == Ok(
      if collapse then Obj(RemoveKey(SetMember(children, "type", Str("number")), "anyOf"))
      else Obj(SetMember(children, "type", Str("object"))))
  {
  }

  lemma IntegerTypeKept()
    ensures AnyOfSimplified(IntegerType) == Ok(IntegerType)
  {
    assert NoAnyOf(IntegerType);
    AnyOfIdentity(IntegerType);
  }

  /** The properties of `MixedAnyOf`, simplified: the nested `anyOf`
      collapses. */
  lemma MixedChildren()
    ensures AnyOfSimplifiedMembers(MixedAnyOf.members, Untouched(false))
      == Ok([Member("anyOf", Arr([IntegerType, NumberType]))])
  {
    NumberOrInteger();
    IntegerTypeKept();
    PairSimplified(IntegerType, NumberOrIntegerType, IntegerType, NumberType);
    SingleSimplified("anyOf", Arr([IntegerType, NumberOrIntegerType]), Arr([IntegerType, NumberType]), Untouched(false));
  }

  lemma MixedAnyOfOnce()
    ensures AnyOfSimplified(MixedAnyOf) == Ok(MixedAnyOfSimplified)
  {
    var ms := MixedAnyOf.members;
    assert ms[0].key == "anyOf" && Lookup(ms, "anyOf") == Some(ms[0].val);
    MixedDoesNotCollapse();
    MixedChildren();
    var children := [Member("anyOf", Arr([IntegerType, NumberType]))];
    AnyOfNode(ms, false, children);
    assert !HasKey(children, "type");
    assert children + [Member("type", Str("object"))] == MixedAnyOfSimplified.members;
  }

  lemma MixedAnyOfTwice()
    ensures AnyOfSimplified(MixedAnyOfSimplified) == Ok(NumberType)
  {
    var ms := MixedAnyOfSimplified.members;
    assert ms[0].key == "anyOf" && Lookup(ms, "anyOf") == Some(ms[0].val);
    IntegerOrNumber();
    AnyOfUntouchedMembers(ms, Untouched(true));
    AnyOfNode(ms, true, ms);
    RetypedAsNumber();
  }

  /** Writing `type: "number"` and deleting `anyOf` leaves `{type: "number"}`. */
  lemma RetypedAsNumber()
    ensures RemoveKey(SetMember(MixedAnyOfSimplified.members, "type", Str("number")), "anyOf") == NumberType.members
  {
    var ms := MixedAnyOfSimplified.members;
    assert IndexOfKey(ms, "type") == 1;
    var typed := SetMember(ms, "type", Str("number"));
    assert typed == [ms[0], Member("type", Str("number"))];
    assert typed[1..] == [Member("type", Str("number"))];
    assert RemoveKey(typed[1..], "anyOf") == typed[1..];
  }

  /** `anyOf: [integer, number]` collapses as well. */
  lemma IntegerOrNumber()
    ensures AnyOfCollapses(MixedAnyOfSimplified.members[0].val) == Ok(true)
  {
    NumberTyped();
    IntegerTyped();
    var alternatives := MixedAnyOfSimplified.members[0].val.items;
    assert IsTyped(alternatives[1], "number") && IsTyped(alternatives[0], "integer");
  }
}
