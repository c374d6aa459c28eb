/** `ObservableLruCache`: a bounded map from keys to cache items whose
    iteration order is its recency order. A lookup moves the key to the
    newest position; an insertion into a full map first drops the oldest
    key. Each `CacheItem` is pending (it holds the shared source stream)
    until its source emits, and resolved (it holds the value) afterwards. */
module LruCache {
  import opened Values
  import opened Streams

  // ---------------------------------------------------------------------
  // The key order of the underlying `Map`, oldest first

  predicate NoDuplicates<K(==, !new)>(s: seq<K>) {
    forall i, j :: 0 <= i < j < |s| ==> s[i] != s[j]
  }

  /** `Map.delete(k)` on the key order. */
  function Remove<K(==, !new)>(s: seq<K>, k: K): (r: seq<K>)
    ensures forall x :: x in r <==> x in s && x != k
    ensures k !in s ==> r == s
    ensures NoDuplicates(s) && k in s ==> |r| == |s| - 1
    ensures NoDuplicates(s) ==> NoDuplicates(r)
  {
    if |s| == 0 then []
    else if s[0] == k then Remove(s[1..], k)
    else
      var rest := Remove(s[1..], k);
      assert NoDuplicates(s) ==> NoDuplicates(s[1..]) && s[0] !in s[1..] by {
        if NoDuplicates(s) {
          forall i | 0 <= i < |s[1..]| ensures s[1..][i] != s[0] { assert s[1..][i] == s[i + 1]; }
        }
      }
      assert k in s ==> k in s[1..] by {
        if k in s { var i :| 0 <= i < |s| && s[i] == k; assert s[1..][i - 1] == k; }
      }
      [s[0]] + rest
  }

  /** The key order after `getItem(k)`: delete then re-insert a present key. */
  function Touch<K(==, !new)>(order: seq<K>, k: K): seq<K> {
    if k in order then Remove(order, k) + [k] else order
  }

  /** Whether `addItem` evicts: the map holds at least `maxEntries` keys
      (and there is a first key to delete). */
  predicate Evicts<K(==, !new)>(order: seq<K>, maxEntries: int) {
    |order| >= maxEntries && |order| > 0
  }

  /** The key order after the eviction step of `addItem`. */
  function Evict<K(==, !new)>(order: seq<K>, maxEntries: int): seq<K> {
    if Evicts(order, maxEntries) then order[1..] else order
  }

  /** `Map.set(k, item)` on the key order: a present key keeps its place. */
  function Insert<K(==, !new)>(order: seq<K>, k: K): seq<K> {
    if k in order then order else order + [k]
  }

  /** The key order after `addItem(k, ...)`. */
  function AfterAdd<K(==, !new)>(order: seq<K>, maxEntries: int, k: K): seq<K> {
    Insert(Evict(order, maxEntries), k)
  }

  /** The size bound the cache keeps: `maxEntries`, but at least one entry
      since an insertion always happens after the eviction. */
  function Capacity(maxEntries: int): nat {
    if maxEntries >= 1 then maxEntries else 1
  }

  /** A lookup of a present key makes it the newest and keeps the key set
      and the relative order of all other keys. */
  lemma {:induction false} TouchMovesToNewest<K(!new)>(order: seq<K>, k: K)
    requires NoDuplicates(order) && k in order
    ensures var t := Touch(order, k);
      && |t| == |order| && t[|t| - 1] == k
      && (forall x :: x in t <==> x in order)
      && Remove(t, k) == Remove(order, k)
      && NoDuplicates(t)
  {
    var t := Touch(order, k);
    RemoveAppend(Remove(order, k), k);
  }

  lemma {:induction false} RemoveAppend<K(!new)>(s: seq<K>, k: K)
    requires k !in s
    ensures Remove(s + [k], k) == s
  {
    if |s| > 0 {
      assert (s + [k])[1..] == s[1..] + [k];
      RemoveAppend(s[1..], k);
    } else {
      assert [k][1..] == [];
    }
  }

  /** With room left nothing is evicted; at or over the limit exactly the
      oldest key goes, and the new key is the newest unless it survived the
      eviction, in which case it keeps its old position. */
  lemma {:induction false} AddOrder<K(!new)>(order: seq<K>, maxEntries: int, k: K)
    requires NoDuplicates(order)
    ensures var r := AfterAdd(order, maxEntries, k);
      && NoDuplicates(r)
      && (Evicts(order, maxEntries) ==> order[0] !in r || order[0] == k)
      && (forall x :: x in r <==> x == k || (x in order && !(Evicts(order, maxEntries) && x == order[0])))
      && (k in Evict(order, maxEntries) ==> r == Evict(order, maxEntries))
      && (k !in Evict(order, maxEntries) ==> r[|r| - 1] == k)
  {
    var e := Evict(order, maxEntries);
    if Evicts(order, maxEntries) {
      assert order == [order[0]] + e;
      assert order[0] !in e;
    }
    var r := Insert(e, k);
    if k !in e {
      assert NoDuplicates(r) by {
        forall i, j | 0 <= i < j < |r| ensures r[i] != r[j] {
          if j == |r| - 1 { assert r[i] == e[i]; }
        }
      }
    }
  }

  /** The size never exceeds the capacity after an insertion. */
  lemma {:induction false} AddBounded<K(!new)>(order: seq<K>, maxEntries: int, k: K)
    requires NoDuplicates(order) && |order| <= Capacity(maxEntries)
    ensures |AfterAdd(order, maxEntries, k)| <= Capacity(maxEntries)
  {
  }

  // ---------------------------------------------------------------------
  // Cache items

  class CacheItem {
    /** The resolved value; `null` until the source emits. */
    var value: Value
    /** The shared source while pending; `null` once resolved. */
    var valueSource: Option<Stream>

    constructor ()
      ensures value == Null && valueSource == None
    {
      value := Null;
      valueSource := None;
    }

    /** `setValue`: wraps the source so that its emission resolves this item,
        and shares it between subscribers. */
    method SetValue(source: Stream) returns (r: Stream)
      modifies this
      ensures r == Shared(source)
      ensures valueSource == Some(r) && value == old(value)
    {
      valueSource := Some(Shared(source));
      r := valueSource.value;
    }

    /** The `map` step of the shared stream, run when the source emits
        `result`: the item keeps the value and drops its source. */
    method Resolve(result: Value)
      modifies this
      ensures value == result && valueSource == None
      ensures GetValue() == if Truthy(result) then Some(Of(result)) else None
    {
      value := result;
      valueSource := None;
    }

    /** `getValue`: the stored value when it is truthy, else the pending
        source (which is `null` once resolved). */
    function GetValue(): Option<Stream>
      reads this
    {
      if Truthy(value) then Some(Of(value)) else valueSource
    }
  }

  // ---------------------------------------------------------------------
  // The cache

  class ObservableLruCache<K(==, !new)> {
    /** The iteration order of `cacheItems`, oldest first. */
    var order: seq<K>
    var cacheItems: map<K, CacheItem>
    const maxEntries: int

    ghost predicate Valid()
      reads this
    {
      && (forall k :: k in cacheItems <==> k in order)
      && NoDuplicates(order)
      && |order| <= Capacity(maxEntries)
    }

    constructor (maxEntries: int := 50)
      ensures Valid() && this.maxEntries == maxEntries
      ensures order == [] && cacheItems == map[]
    {
      this.maxEntries := maxEntries;
      order := [];
      cacheItems := map[];
    }

    /** `getItem`: a hit moves the key to the newest position and returns
        the item's value stream; a miss changes nothing and returns null. */
    method GetItem(key: K) returns (r: Option<Stream>)
      requires Valid()
      modifies this
      ensures Valid()
      ensures cacheItems == old(cacheItems)
      ensures order == Touch(old(order), key)
      ensures key !in cacheItems ==> r == None && order == old(order)
      ensures key in cacheItems ==> r == cacheItems[key].GetValue() && order[|order| - 1] == key
    {
      r := None;
      if key in cacheItems {
        var item := cacheItems[key];
        TouchMovesToNewest(order, key);
        order := Remove(order, key) + [key];
        r := item.GetValue();
      }
    }

    /** `addItem`: evicts the oldest key when the map is full, then stores a
        fresh pending item for `key` and returns its shared stream. */
    method AddItem(key: K, value: Stream) returns (r: Stream)
      requires Valid()
      modifies this
      ensures Valid()
      ensures order == AfterAdd(old(order), maxEntries, key)
      ensures r == Shared(value)
      ensures key in cacheItems && fresh(cacheItems[key])
      ensures cacheItems[key].GetValue() == Some(Shared(value))
      ensures forall k :: k in cacheItems && k != key ==> k in old(cacheItems) && cacheItems[k] == old(cacheItems)[k]
    {
      AddOrder(order, maxEntries, key);
      AddBounded(order, maxEntries, key);
      if |order| >= maxEntries && |order| > 0 {
        var keyToDelete := order[0];
        cacheItems := cacheItems - {keyToDelete};
        order := order[1..];
      }
      var newItem := new CacheItem();
      r := newItem.SetValue(value);
      cacheItems := cacheItems[key := newItem];
      if key !in order {
        order := order + [key];
      }
    }
  }
}
