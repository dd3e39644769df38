/** Python's insertion-ordered `dict` with string keys: an ordered list of
    key/value entries whose keys are pairwise distinct. The pure functions
    describe the entry list; class Dict is a mutable dictionary object, so that
    in-place updates and aliasing can be stated. */
module Dicts {
  import opened Wrappers

  /** The keys, in insertion order (what `list(d.keys())` gives). */
  function Keys<V>(items: seq<(string, V)>): (ks: seq<string>)
    ensures |ks| == |items|
  {
    if items == [] then [] else [items[0].0] + Keys(items[1..])
  }

  /** `d[k]` when k is a key, None otherwise. */
  function Find<V>(items: seq<(string, V)>, k: string): Option<V>
  {
    if items == [] then None
    else if items[0].0 == k then Some(items[0].1)
    else Find(items[1..], k)
  }

  /** `k in d` */
  predicate HasKey<V>(items: seq<(string, V)>, k: string)
  {
    Find(items, k).Some?
  }

  /** `k in d` holds exactly when k is one of the listed keys. */
  lemma {:induction false} HasKeyInKeys<V>(items: seq<(string, V)>, k: string)
    ensures HasKey(items, k) <==> k in Keys(items)
  {
    if items != [] {
      HasKeyInKeys(items[1..], k);
      assert Keys(items) == [items[0].0] + Keys(items[1..]);
    }
  }

  /** A Python dict never holds the same key twice. */
  ghost predicate DistinctKeys<V>(items: seq<(string, V)>)
  {
    items == [] || (!HasKey(items[1..], items[0].0) && DistinctKeys(items[1..]))
  }

  /** The keys of ks that are not in drop, in their original order. */
  function Omit(ks: seq<string>, drop: set<string>): seq<string>
  {
    if ks == [] then [] else (if ks[0] in drop then [] else [ks[0]]) + Omit(ks[1..], drop)
  }

  /** `d[k] = v`: an existing key keeps its position, a new one goes last. */
  function Put<V>(items: seq<(string, V)>, k: string, v: V): (r: seq<(string, V)>)
    ensures HasKey(items, k) ==> Keys(r) == Keys(items)
    ensures !HasKey(items, k) ==> Keys(r) == Keys(items) + [k]
    ensures Find(r, k) == Some(v)
    ensures forall k' :: k' != k ==> Find(r, k') == Find(items, k')
  {
    if items == [] then [(k, v)]
    else if items[0].0 == k then
      assert ([(k, v)] + items[1..])[1..] == items[1..];
      [(k, v)] + items[1..]
    else
      var rest := Put(items[1..], k, v);
      assert ([items[0]] + rest)[1..] == rest;
      [items[0]] + rest
  }

  /** Assigning to a key never makes a key occur twice. */
  lemma {:induction false} PutKeepsDistinct<V>(items: seq<(string, V)>, k: string, v: V)
    requires DistinctKeys(items)
    ensures DistinctKeys(Put(items, k, v))
  {
    if items != [] && items[0].0 != k {
      PutKeepsDistinct(items[1..], k, v);
      var r := Put(items, k, v);
      assert r[1..] == Put(items[1..], k, v);
    } else if items != [] {
      var r := Put(items, k, v);
      assert r[1..] == items[1..];
    }
  }

  /** `d.pop(k)` without its value, or the dict itself when k is absent. */
  function Remove<V>(items: seq<(string, V)>, k: string): (r: seq<(string, V)>)
    requires DistinctKeys(items)
    ensures Keys(r) == Omit(Keys(items), {k})
    ensures Find(r, k) == None
    ensures forall k' :: k' != k ==> Find(r, k') == Find(items, k')
    ensures DistinctKeys(r)
    ensures !HasKey(items, k) ==> r == items
  {
    if items == [] then []
    else if items[0].0 == k then
      OmitMissing(items[1..], k);
      items[1..]
    else
      var rest := Remove(items[1..], k);
      assert ([items[0]] + rest)[1..] == rest;
      [items[0]] + rest
  }

  /** Dropping a key that does not occur leaves the key list as it is. */
  lemma {:induction false} OmitMissing<V>(items: seq<(string, V)>, k: string)
    requires !HasKey(items, k)
    ensures Omit(Keys(items), {k}) == Keys(items)
  {
    if items != [] {
      OmitMissing(items[1..], k);
      assert Keys(items)[1..] == Keys(items[1..]);
    }
  }

  /** Dropping one set of keys and then another is dropping both at once. */
  lemma {:induction false} OmitTwice(ks: seq<string>, a: set<string>, b: set<string>)
    ensures Omit(Omit(ks, a), b) == Omit(ks, a + b)
  {
    if ks != [] {
      OmitTwice(ks[1..], a, b);
      if ks[0] in a {
        assert Omit(ks, a) == Omit(ks[1..], a);
      } else {
        assert Omit(ks, a) == [ks[0]] + Omit(ks[1..], a);
        assert Omit(ks, a)[1..] == Omit(ks[1..], a);
      }
    }
  }

  /** A mutable Python dict object. */
  class Dict<V> {
    var items: seq<(string, V)>

    ghost predicate Valid()
      reads this
    {
      DistinctKeys(items)
    }

    constructor (entries: seq<(string, V)>)
      requires DistinctKeys(entries)
      ensures Valid() && items == entries
    {
      items := entries;
    }

    /** `k in d` */
    method Contains(k: string) returns (b: bool)
      ensures b == HasKey(items, k)
    {
      b := HasKey(items, k);
    }

    /** `d[k]`, raising KeyError for a missing key. */
    method Get(k: string) returns (r: Result<V>)
      ensures r.Ok? <==> HasKey(items, k)
      ensures r.Ok? ==> Find(items, k) == Some(r.value)
      ensures r.Err? ==> r.error == KeyError(k)
    {
      match Find(items, k)
      case None => r := Err(KeyError(k));
      case Some(v) => r := Ok(v);
    }

    /** `list(d.keys())` */
    method KeyList() returns (ks: seq<string>)
      ensures ks == Keys(items)
    {
      ks := Keys(items);
    }

    /** `next(iter(d.keys()))`: the first key, or StopIteration when empty. */
    method FirstKey() returns (r: Result<string>)
      ensures r.Ok? <==> items != []
      ensures r.Ok? ==> r.value == items[0].0
      ensures r.Err? ==> r.error == StopIteration
    {
      if items == [] {
        r := Err(StopIteration);
      } else {
        r := Ok(items[0].0);
      }
    }

    /** `d[k] = v` */
    method Set(k: string, v: V)
      requires Valid()
      modifies this
      ensures Valid()
      ensures items == Put(old(items), k, v)
    {
      PutKeepsDistinct(items, k, v);
      items := Put(items, k, v);
    }

    /** `d.pop(k)`: removes and returns the value of k, or raises KeyError. */
    method Pop(k: string) returns (r: Result<V>)
      requires Valid()
      modifies this
      ensures Valid()
      ensures r.Ok? <==> HasKey(old(items), k)
      ensures r.Ok? ==> Find(old(items), k) == Some(r.value)
      ensures r.Err? ==> r.error == KeyError(k)
      ensures items == Remove(old(items), k)
    {
      r := Get(k);
      items := Remove(items, k);
    }
  }
}
