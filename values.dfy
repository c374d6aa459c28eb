/** JavaScript values as the hypermedia client sees them after `JSON.parse`,
    with the handful of language operations the core relies on: truthiness,
    own-property reads, `delete`, property assignment, `Object.assign`,
    `String(...)`, array spread and the string methods `split`, `join`,
    `includes` and `replace`. Objects are values (no aliasing) whose
    members keep insertion order, as JavaScript objects do for non-index keys. */
module Values {

  datatype Option<T> = None | Some(value: T)

  /** What the modelled code throws. `TypeError` stands for every runtime
      type error (reading a property of null or undefined, calling a method
      a value does not have, spreading a non-iterable); the other
      alternatives are the `Error`s the code throws on purpose. */
  datatype Error =
    | TypeError
      // schema simplifier
    | TooManyNullTypes(count: nat)
    | OneOfNotFlattenable
    | UnresolvableReference(ref: string)
      // Siren deserializer; each carries the offending action's `name`
    | UnsupportedActionType(action: Value)
    | FieldsMissing(action: Value)
    | FieldCountNotOne(action: Value)
    | FieldNameMissing(action: Value)
    | JsonFieldClassCountNotOne(action: Value)
      // client service
    | ParametersMissing
    | NoFileSpecified
    | OctetStreamWithMultipleFiles
    | UnsupportedUploadType(contentType: Value)

  /** A computation that either returns a value or throws. */
  datatype Result<T> = Ok(value: T) | Fail(error: Error) {
    predicate IsFailure() { Fail? }
    function PropagateFailure<U>(): Result<U>
      requires Fail?
    {
      Fail(error)
    }
    function Extract(): T
      requires Ok?
    {
      value
    }
  }

  /** The outcome of a loop that has produced `done` and still has `rest`
      to produce: a failure of the rest is the loop's failure. */
  function Prepended<T>(done: seq<T>, rest: Result<seq<T>>): Result<seq<T>> {
    if rest.Fail? then Fail(rest.error) else Ok(done + rest.value)
  }

  lemma PrependedNothing<T>(rest: Result<seq<T>>)
    ensures Prepended([], rest) == rest
  {
    if rest.Ok? {
      assert [] + rest.value == rest.value;
    }
  }

  lemma PrependedAssoc<T>(a: seq<T>, b: seq<T>, rest: Result<seq<T>>)
    ensures Prepended(a, Prepended(b, rest)) == Prepended(a + b, rest)
  {
    if rest.Ok? {
      assert a + (b + rest.value) == a + b + rest.value;
    }
  }

  /** `xs.forEach(x => result.push(f(x)))`: `f` applied to each element in
      order, the whole loop failing at the first element `f` throws on. */
  function MapAll<A, B>(f: A -> Result<B>, xs: seq<A>): Result<seq<B>> {
    if |xs| == 0 then Ok([])
    else
      var first :- f(xs[0]);
      var rest :- MapAll(f, xs[1..]);
      Ok([first] + rest)
  }

  /** The loop succeeds iff every element succeeds, producing one result
      per element in order; otherwise it fails with the error of the first
      element that fails. */
  lemma {:induction false} MapAllEach<A, B>(f: A -> Result<B>, xs: seq<A>)
    ensures MapAll(f, xs).Ok? <==> forall i :: 0 <= i < |xs| ==> f(xs[i]).Ok?
    ensures MapAll(f, xs).Ok? ==>
      |MapAll(f, xs).value| == |xs| && forall i :: 0 <= i < |xs| ==> f(xs[i]) == Ok(MapAll(f, xs).value[i])
    ensures MapAll(f, xs).Fail? ==>
      exists j :: 0 <= j < |xs| && f(xs[j]) == Fail(MapAll(f, xs).error) && forall k :: 0 <= k < j ==> f(xs[k]).Ok?
  {
    if |xs| > 0 {
      var tail := xs[1..];
      MapAllEach(f, tail);
      assert forall i :: 0 <= i < |tail| ==> tail[i] == xs[i + 1];
      var first, rest := f(xs[0]), MapAll(f, tail);
      if first.Ok? && rest.Ok? {
        assert forall i :: 1 <= i < |xs| ==> ([first.value] + rest.value)[i] == rest.value[i - 1];
      }
      if first.Ok? && rest.Fail? {
        var j :| 0 <= j < |tail| && f(tail[j]) == Fail(rest.error) && forall k :: 0 <= k < j ==> f(tail[k]).Ok?;
        assert f(xs[j + 1]) == Fail(rest.error);
        assert forall k :: 0 <= k < j + 1 ==> f(xs[k]).Ok? by {
          forall k | 0 <= k < j + 1 ensures f(xs[k]).Ok? {
            if k > 0 { assert xs[k] == tail[k - 1]; }
          }
        }
      }
    }
  }

  /** One step of the loop: the element at `i`, then the rest. */
  lemma MapAllStep<A, B>(f: A -> Result<B>, xs: seq<A>, i: nat)
    requires i < |xs|
    ensures MapAll(f, xs[i..]) == if f(xs[i]).Fail? then Fail(f(xs[i]).error) else Prepended([f(xs[i]).value], MapAll(f, xs[i + 1..]))
  {
    assert xs[i..][0] == xs[i] && xs[i..][1..] == xs[i + 1..];
  }

  /** A JavaScript value. `Undefined` is the value of a missing property.
      Numbers are integers in this model. */
  datatype Value =
    | Undefined
    | Null
    | Bool(b: bool)
    | Num(n: int)
    | Str(s: string)
    | Arr(items: seq<Value>)
    | Obj(members: seq<Member>)

  datatype Member = Member(key: string, val: Value)

  /** JavaScript truthiness: `undefined`, `null`, `false`, `0` and `""` are falsy. */
  predicate Truthy(v: Value) {
    match v
    case Undefined => false
    case Null => false
    case Bool(b) => b
    case Num(n) => n != 0
    case Str(s) => s != ""
    case Arr(_) => true
    case Obj(_) => true
  }

  /** `typeof v === 'object'`: arrays, objects and null. */
  predicate IsObjectType(v: Value) {
    v.Null? || v.Arr? || v.Obj?
  }

  /** Reading a property or calling a method of `null` or `undefined` throws. */
  predicate IsNullish(v: Value) {
    v.Undefined? || v.Null?
  }

  // ---------------------------------------------------------------------
  // Member lists

  predicate HasKey(ms: seq<Member>, k: string) {
    exists i :: 0 <= i < |ms| && ms[i].key == k
  }

  /** The position of the member named `k`, or -1. */
  function IndexOfKey(ms: seq<Member>, k: string): (i: int)
    ensures -1 <= i < |ms|
    ensures i >= 0 ==> ms[i].key == k && forall j :: 0 <= j < i ==> ms[j].key != k
    ensures i == -1 <==> !HasKey(ms, k)
  {
    if |ms| == 0 then -1
    else if ms[0].key == k then 0
    else
      var i := IndexOfKey(ms[1..], k);
      assert HasKey(ms[1..], k) ==> HasKey(ms, k) by {
        if HasKey(ms[1..], k) {
          var j :| 0 <= j < |ms[1..]| && ms[1..][j].key == k;
          assert ms[j + 1].key == k;
        }
      }
      assert HasKey(ms, k) ==> HasKey(ms[1..], k) by {
        if HasKey(ms, k) {
          var j :| 0 <= j < |ms| && ms[j].key == k;
          assert ms[1..][j - 1].key == k;
        }
      }
      if i < 0 then -1 else i + 1
  }

  /** The value of the member named `k`. */
  function Lookup(ms: seq<Member>, k: string): (r: Option<Value>)
    ensures r.Some? <==> HasKey(ms, k)
  {
    var i := IndexOfKey(ms, k);
    if i < 0 then None else Some(ms[i].val)
  }

  lemma LookupCons(m: Member, rest: seq<Member>)
    ensures forall k :: Lookup([m] + rest, k) == if m.key == k then Some(m.val) else Lookup(rest, k)
  {
    forall k ensures Lookup([m] + rest, k) == if m.key == k then Some(m.val) else Lookup(rest, k) {
      assert ([m] + rest)[1..] == rest;
    }
  }

  /** Two member lists with the same keys in the same positions. */
  predicate SameKeys(a: seq<Member>, b: seq<Member>) {
    |a| == |b| && forall i :: 0 <= i < |a| ==> a[i].key == b[i].key
  }

  lemma IndexOfSameKeys(a: seq<Member>, b: seq<Member>, k: string)
    requires SameKeys(a, b)
    ensures IndexOfKey(a, k) == IndexOfKey(b, k)
  {
    var i, j := IndexOfKey(a, k), IndexOfKey(b, k);
    if i >= 0 { assert b[i].key == k; }
    if j >= 0 { assert a[j].key == k; }
  }

  lemma IndexOfAppend(ms: seq<Member>, m: Member, k: string)
    ensures IndexOfKey(ms + [m], k) ==
      if HasKey(ms, k) then IndexOfKey(ms, k) else if m.key == k then |ms| else -1
  {
    var r := ms + [m];
    var i := IndexOfKey(ms, k);
    if i >= 0 { assert r[i].key == k; }
    else if m.key == k { assert r[|ms|].key == k; }
    var j := IndexOfKey(r, k);
    if j >= 0 && j < |ms| { assert ms[j].key == k; }
  }

  /** `obj[k] = x`: an existing key keeps its position, a new key is appended. */
  function SetMember(ms: seq<Member>, k: string, x: Value): (r: seq<Member>)
    ensures Lookup(r, k) == Some(x)
    ensures forall j :: j != k ==> Lookup(r, j) == Lookup(ms, j)
    ensures HasKey(ms, k) ==> SameKeys(r, ms)
    ensures HasKey(ms, k) ==> r == ms[IndexOfKey(ms, k) := Member(k, x)]
    ensures !HasKey(ms, k) ==> r == ms + [Member(k, x)]
    ensures forall j :: HasKey(r, j) <==> HasKey(ms, j) || j == k
    ensures forall i :: 0 <= i < |r| ==> r[i] in ms || r[i] == Member(k, x)
  {
    var i := IndexOfKey(ms, k);
    if i >= 0 then
      var r := ms[i := Member(k, x)];
      forall j ensures IndexOfKey(r, j) == IndexOfKey(ms, j) { IndexOfSameKeys(r, ms, j); }
      assert forall t :: 0 <= t < |r| ==> r[t] == if t == i then Member(k, x) else ms[t];
      r
    else
      var r := ms + [Member(k, x)];
      forall j ensures IndexOfKey(r, j) == if HasKey(ms, j) then IndexOfKey(ms, j) else if k == j then |ms| else -1 {
        IndexOfAppend(ms, Member(k, x), j);
      }
      assert r[..|ms|] == ms;
      assert forall t :: 0 <= t < |ms| ==> r[t] == ms[t];
      r
  }

  /** `delete obj[k]`. */
  function RemoveKey(ms: seq<Member>, k: string): (r: seq<Member>)
    ensures !HasKey(r, k)
    ensures forall j :: j != k ==> Lookup(r, j) == Lookup(ms, j)
    ensures |r| <= |ms|
    ensures forall i :: 0 <= i < |r| ==> r[i] in ms
    ensures !HasKey(ms, k) ==> r == ms
  {
    if |ms| == 0 then []
    else
      LookupCons(ms[0], ms[1..]);
      assert ms == [ms[0]] + ms[1..];
      var rest := RemoveKey(ms[1..], k);
      if ms[0].key == k then rest
      else
        LookupCons(ms[0], rest);
        [ms[0]] + rest
  }

  // ---------------------------------------------------------------------
  // Property access

  /** `v[k]` for a non-index key other than `length`: an own member of an
      object, `undefined` on any other non-nullish value, a TypeError on
      `null` and `undefined`. */
  function Get(v: Value, k: string): (r: Result<Value>)
    ensures r.Fail? <==> IsNullish(v)
    ensures r.Fail? ==> r.error == TypeError
    ensures r.Ok? && r.value != Undefined ==> v.Obj? && Lookup(v.members, k) == Some(r.value)
  {
    match v
    case Undefined => Fail(TypeError)
    case Null => Fail(TypeError)
    case Obj(ms) => (match Lookup(ms, k) case Some(x) => Ok(x) case None => Ok(Undefined))
    case _ => Ok(Undefined)
  }

  /** `v[k]` where `v` is known to be neither null nor undefined. */
  function Property(v: Value, k: string): (r: Value)
    requires !IsNullish(v)
    ensures Get(v, k) == Ok(r)
    ensures v.Obj? && HasKey(v.members, k) ==> Lookup(v.members, k) == Some(r)
    ensures !(v.Obj? && HasKey(v.members, k)) ==> r == Undefined
  {
    Get(v, k).value
  }

  /** `v.hasOwnProperty(k)` for a non-index key other than `length`. */
  function HasOwn(v: Value, k: string): (r: Result<bool>)
    ensures r.Fail? <==> IsNullish(v)
    ensures r.Ok? ==> (r.value <==> v.Obj? && HasKey(v.members, k))
  {
    if IsNullish(v) then Fail(TypeError)
    else Ok(v.Obj? && HasKey(v.members, k))
  }

  /** `delete v[k]`: removes an own member of an object; a no-op on other
      non-nullish values. */
  function Delete(v: Value, k: string): (r: Result<Value>)
    ensures r.Fail? <==> IsNullish(v)
    ensures r.Ok? && v.Obj? ==> r.value == Obj(RemoveKey(v.members, k))
    ensures r.Ok? && !v.Obj? ==> r.value == v
  {
    match v
    case Undefined => Fail(TypeError)
    case Null => Fail(TypeError)
    case Obj(ms) => Ok(Obj(RemoveKey(ms, k)))
    case _ => Ok(v)
  }

  /** The own enumerable properties of `src` in `for..in` order: the members
      of an object, index keys of an array or a string, none otherwise. */
  function OwnEntries(src: Value): (r: seq<Member>)
    ensures src.Obj? ==> r == src.members
    ensures src.Arr? ==> |r| == |src.items| && forall i :: 0 <= i < |r| ==> r[i] == Member(IndexKey(i), src.items[i])
    ensures !src.Obj? && !src.Arr? && !src.Str? ==> r == []
  {
    match src
    case Obj(ms) => ms
    case Arr(items) => seq(|items|, i requires 0 <= i < |items| => Member(IndexKey(i), items[i]))
    case Str(s) => seq(|s|, i requires 0 <= i < |s| => Member(IndexKey(i), Str([s[i]])))
    case _ => []
  }

  /** The value of the last member named `k`: the one `Object.assign`
      leaves behind when a source repeats a key. */
  function LookupLast(entries: seq<Member>, k: string): (r: Option<Value>)
    ensures r.Some? <==> HasKey(entries, k)
  {
    if |entries| == 0 then None
    else if entries[|entries| - 1].key == k then Some(entries[|entries| - 1].val)
    else
      var front := entries[..|entries| - 1];
      assert HasKey(entries, k) <==> HasKey(front, k) by {
        if HasKey(entries, k) {
          var i :| 0 <= i < |entries| && entries[i].key == k;
          assert front[i].key == k;
        }
        if HasKey(front, k) {
          var i :| 0 <= i < |front| && front[i].key == k;
          assert entries[i].key == k;
        }
      }
      LookupLast(front, k)
  }

  /** `Object.assign(target, src)` on the target's member list: every own
      property of `src` is written in order, overwriting an existing key in
      place and appending a new one. */
  function Assign(ms: seq<Member>, src: Value): (r: seq<Member>)
    ensures forall k :: Lookup(r, k) == if HasKey(OwnEntries(src), k) then LookupLast(OwnEntries(src), k) else Lookup(ms, k)
  {
    AssignAll(ms, OwnEntries(src))
  }

  function AssignAll(ms: seq<Member>, entries: seq<Member>): (r: seq<Member>)
    ensures forall k :: Lookup(r, k) == if HasKey(entries, k) then LookupLast(entries, k) else Lookup(ms, k)
  {
    if |entries| == 0 then ms
    else
      var last := entries[|entries| - 1];
      SetMember(AssignAll(ms, entries[..|entries| - 1]), last.key, last.val)
  }

  /** `[...v]`: the elements of an array, the characters of a string; any
      other value is not iterable. */
  function Spread(v: Value): (r: Result<seq<Value>>)
    ensures r.Fail? <==> !v.Arr? && !v.Str?
    ensures v.Arr? ==> r == Ok(v.items)
    ensures v.Str? ==> r.Ok? && |r.value| == |v.s|
  {
    match v
    case Arr(items) => Ok(items)
    case Str(s) => Ok(seq(|s|, i requires 0 <= i < |s| => Str([s[i]])))
    case _ => Fail(TypeError)
  }

  // ---------------------------------------------------------------------
  // String conversion, JavaScript's `String(v)`

  function DigitChar(d: nat): char
    requires d < 10
  {
    "0123456789"[d]
  }

  function NatToString(n: nat): (r: string)
    ensures |r| >= 1
    decreases n
  {
    if n < 10 then [DigitChar(n)] else NatToString(n / 10) + [DigitChar(n % 10)]
  }

  /** The key of the `i`-th element of an array. */
  function IndexKey(i: nat): string {
    NatToString(i)
  }

  function IntToString(n: int): string {
    if n < 0 then "-" + NatToString(-n) else NatToString(n)
  }

  /** `String(v)`, which is also how a value becomes a property key. */
  function ToStr(v: Value): string {
    match v
    case Undefined => "undefined"
    case Null => "null"
    case Bool(b) => if b then "true" else "false"
    case Num(n) => IntToString(n)
    case Str(s) => s
    case Arr(items) => JoinElements(items)
    case Obj(_) => "[object Object]"
  }

  /** `items.join()`: null and undefined elements become empty strings. */
  function JoinElements(items: seq<Value>): string {
    if |items| == 0 then ""
    else
      var first := if IsNullish(items[0]) then "" else ToStr(items[0]);
      if |items| == 1 then first else first + "," + JoinElements(items[1..])
  }

  // ---------------------------------------------------------------------
  // String methods

  /** `s.split(sep)` for a one-character separator. An empty string splits
      into one empty part. */
  function Split(s: string, sep: char): (parts: seq<string>)
    ensures |parts| >= 1
    ensures forall i :: 0 <= i < |parts| ==> sep !in parts[i]
    ensures sep !in s ==> parts == [s]
    ensures sep in s ==> |parts| >= 2
    ensures forall i, c :: 0 <= i < |parts| && c in parts[i] ==> c in s
  {
    if |s| == 0 then [""]
    else
      var rest := Split(s[1..], sep);
      assert forall c :: c in s[1..] ==> c in s;
      if s[0] == sep then
        assert forall i :: 1 <= i <= |rest| ==> ([""] + rest)[i] == rest[i - 1];
        [""] + rest
      else
        assert sep !in s ==> rest == [s[1..]] && [s[0]] + s[1..] == s;
        [[s[0]] + rest[0]] + rest[1..]
  }

  /** `parts.join(sep)`; an empty list joins to the empty string. */
  function Join(parts: seq<string>, sep: char): string {
    if |parts| == 0 then ""
    else if |parts| == 1 then parts[0]
    else parts[0] + [sep] + Join(parts[1..], sep)
  }

  /** Splitting and joining with the same separator gives the string back. */
  lemma {:induction false} JoinSplit(s: string, sep: char)
    ensures Join(Split(s, sep), sep) == s
  {
    if |s| > 0 {
      JoinSplit(s[1..], sep);
      var rest := Split(s[1..], sep);
      if s[0] != sep && |rest| > 1 {
        assert ([[s[0]] + rest[0]] + rest[1..])[1..] == rest[1..];
      } else if s[0] == sep {
        assert ([""] + rest)[1..] == rest;
      }
    }
  }

  /** A string that starts with a separator-free part and a separator
      splits into that part followed by the parts of the rest. */
  lemma {:induction false} SplitAfterFirst(a: string, sep: char, b: string)
    requires sep !in a
    ensures Split(a + [sep] + b, sep) == [a] + Split(b, sep)
  {
    if |a| == 0 {
      assert a + [sep] + b == [sep] + b && ([sep] + b)[1..] == b;
    } else {
      SplitAfterFirst(a[1..], sep, b);
      assert (a + [sep] + b)[0] == a[0] && (a + [sep] + b)[1..] == a[1..] + [sep] + b;
      assert [a[0]] + a[1..] == a;
    }
  }

  predicate StartsWith(s: string, prefix: string) {
    |prefix| <= |s| && s[..|prefix|] == prefix
  }

  /** `s.includes(sub)`. */
  predicate Contains(s: string, sub: string)
    decreases |s|
  {
    StartsWith(s, sub) || (|s| > 0 && Contains(s[1..], sub))
  }

  /** `s.replace(pattern, '')` for a string pattern: only the first
      occurrence is removed. */
  function RemoveFirst(s: string, pattern: string): (r: string)
    ensures StartsWith(s, pattern) ==> r == s[|pattern|..]
    ensures !Contains(s, pattern) ==> r == s
    decreases |s|
  {
    if |s| < |pattern| then s
    else if s[..|pattern|] == pattern then s[|pattern|..]
    else
      assert [s[0]] + s[1..] == s;
      [s[0]] + RemoveFirst(s[1..], pattern)
  }
}
