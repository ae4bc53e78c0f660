/**
 * The LRU cache of rendered spectrogram tiles.  The backing `OrderedDict`
 * is a sequence of (key, tile) entries ordered from least to most recently
 * used; `get` and `put` move the touched key to the end and `put` evicts
 * the front entry once the cache is full.
 */
module TileCacheModel {
  import opened Common

  const DefaultMaxSize: int := 200

  ghost predicate DistinctKeys<V>(e: seq<(string, V)>)
  {
    forall i, j :: 0 <= i < j < |e| ==> e[i].0 != e[j].0
  }

  /** The size bound the cache keeps: never more than max_size entries, and empty when max_size <= 0. */
  ghost predicate Bounded<V>(e: seq<(string, V)>, maxSize: int)
  {
    |e| == 0 || |e| <= maxSize
  }

  /** Position of key k, if present. */
  function IndexOf<V>(e: seq<(string, V)>, k: string): (r: Option<nat>)
    ensures r.Some? ==> r.value < |e| && e[r.value].0 == k
    ensures r.Some? ==> forall j :: 0 <= j < r.value ==> e[j].0 != k
    ensures r.None? <==> forall j :: 0 <= j < |e| ==> e[j].0 != k
  {
    if e == [] then None
    else if e[0].0 == k then Some(0)
    else match IndexOf(e[1..], k)
      case None => None
      case Some(i) => Some(i + 1)
  }

  /** `cache[k]` when present. */
  function Lookup<V>(e: seq<(string, V)>, k: string): (r: Option<V>)
    ensures r.Some? <==> exists j :: 0 <= j < |e| && e[j].0 == k
  {
    match IndexOf(e, k)
    case None => None
    case Some(i) => Some(e[i].1)
  }

  function Remove<V>(e: seq<(string, V)>, i: nat): (r: seq<(string, V)>)
    requires i < |e|
    ensures |r| == |e| - 1
    ensures forall j :: 0 <= j < i ==> r[j] == e[j]
    ensures forall j :: i <= j < |r| ==> r[j] == e[j + 1]
  {
    e[..i] + e[i + 1..]
  }

  /** Recency order after `get(k)`: a hit moves k to the end, a miss changes nothing. */
  function AfterGet<V>(e: seq<(string, V)>, k: string): (r: seq<(string, V)>)
  {
    match IndexOf(e, k)
    case None => e
    case Some(i) => Remove(e, i) + [e[i]]
  }

  /**
   * Entries after `put(k, v)`.  An existing key is moved to the end with its
   * new tile; a new key evicts the front entry when the cache holds max_size
   * or more.  `popitem` on an empty cache raises KeyError: None.
   */
  function AfterPut<V>(e: seq<(string, V)>, maxSize: int, k: string, v: V): (r: Option<seq<(string, V)>>)
  {
    match IndexOf(e, k)
    case Some(i) => Some(Remove(e, i) + [(k, v)])
    case None =>
      if |e| >= maxSize then
        if e == [] then None else Some(e[1..] + [(k, v)])
      else Some(e + [(k, v)])
  }

  function KeysOf<V>(e: seq<(string, V)>): (ks: seq<string>)
    ensures |ks| == |e|
    ensures forall i :: 0 <= i < |e| ==> ks[i] == e[i].0
  {
    seq(|e|, i requires 0 <= i < |e| => e[i].0)
  }

  // ---------------------------------------------------------------------
  // Properties of the recency order
  // ---------------------------------------------------------------------

  lemma LookupAt<V>(e: seq<(string, V)>, i: nat)
    requires DistinctKeys(e) && i < |e|
    ensures IndexOf(e, e[i].0) == Some(i)
    ensures Lookup(e, e[i].0) == Some(e[i].1)
  {
    var r := IndexOf(e, e[i].0);
    assert r.Some?;
  }

  lemma RemoveDistinct<V>(e: seq<(string, V)>, i: nat)
    requires DistinctKeys(e) && i < |e|
    ensures DistinctKeys(Remove(e, i))
    ensures forall j :: 0 <= j < |Remove(e, i)| ==> Remove(e, i)[j].0 != e[i].0
  {
    var r := Remove(e, i);
    forall a, b | 0 <= a < b < |r| ensures r[a].0 != r[b].0 {
      var a', b' := if a < i then a else a + 1, if b < i then b else b + 1;
      assert r[a] == e[a'] && r[b] == e[b'];
    }
  }

  lemma AppendDistinct<V>(e: seq<(string, V)>, k: string, v: V)
    requires DistinctKeys(e)
    requires forall j :: 0 <= j < |e| ==> e[j].0 != k
    ensures DistinctKeys(e + [(k, v)])
  {
  }

  /** A lookup in a sequence with distinct keys finds the only entry with that key. */
  lemma LookupUnique<V>(e: seq<(string, V)>, k: string, i: nat)
    requires DistinctKeys(e) && i < |e| && e[i].0 == k
    ensures Lookup(e, k) == Some(e[i].1)
  {
    LookupAt(e, i);
  }

  /** Looking up k in e + [(k', v)] with k' new: the new entry when k == k', else the old answer. */
  lemma LookupAppend<V>(e: seq<(string, V)>, k': string, v: V, k: string)
    requires forall j :: 0 <= j < |e| ==> e[j].0 != k'
    ensures Lookup(e + [(k', v)], k) == if k == k' then Some(v) else Lookup(e, k)
  {
    var f := e + [(k', v)];
    if IndexOf(e, k).Some? {
      var i := IndexOf(e, k).value;
      assert f[i] == e[i];
      var g := IndexOf(f, k);
      assert g.Some? && g.value <= i;
    } else if k == k' {
      assert f[|e|].0 == k;
      assert IndexOf(f, k).Some?;
    } else {
      assert forall j :: 0 <= j < |f| ==> f[j].0 != k by {
        forall j | 0 <= j < |f| ensures f[j].0 != k {
          if j < |e| { assert f[j] == e[j]; }
        }
      }
    }
  }

  /** Removing one entry leaves the other keys' lookups as they were. */
  lemma LookupRemove<V>(e: seq<(string, V)>, i: nat, k: string)
    requires DistinctKeys(e) && i < |e| && k != e[i].0
    ensures Lookup(Remove(e, i), k) == Lookup(e, k)
  {
    var r := Remove(e, i);
    RemoveDistinct(e, i);
    if IndexOf(e, k).Some? {
      var p := IndexOf(e, k).value;
      var q := if p < i then p else p - 1;
      assert r[q] == e[p];
      LookupUnique(r, k, q);
    } else {
      forall j | 0 <= j < |r| ensures r[j].0 != k {
        if j < i { assert r[j] == e[j]; } else { assert r[j] == e[j + 1]; }
      }
    }
  }

  /** `get` reorders entries but keeps every key's tile and the distinct-keys invariant. */
  lemma AfterGetKeepsContents<V>(e: seq<(string, V)>, k: string, k': string)
    requires DistinctKeys(e)
    ensures DistinctKeys(AfterGet(e, k))
    ensures |AfterGet(e, k)| == |e|
    ensures Lookup(AfterGet(e, k), k') == Lookup(e, k')
    ensures Lookup(e, k).Some? ==> AfterGet(e, k)[|e| - 1].0 == k
  {
    match IndexOf(e, k)
    case None =>
    case Some(i) =>
      RemoveDistinct(e, i);
      AppendDistinct(Remove(e, i), k, e[i].1);
      LookupAppend(Remove(e, i), k, e[i].1, k');
      if k' == k {
        LookupAt(e, i);
      } else {
        LookupRemove(e, i, k');
      }
  }

  /**
   * `put` keeps the keys distinct and the size bounded, and afterwards the key
   * maps to the new tile and sits at the most-recent end.
   */
  lemma AfterPutKeepsInvariant<V>(e: seq<(string, V)>, maxSize: int, k: string, v: V)
    requires DistinctKeys(e) && Bounded(e, maxSize)
    requires AfterPut(e, maxSize, k, v).Some?
    ensures DistinctKeys(AfterPut(e, maxSize, k, v).value)
    ensures Bounded(AfterPut(e, maxSize, k, v).value, maxSize)
    ensures Lookup(AfterPut(e, maxSize, k, v).value, k) == Some(v)
    ensures AfterPut(e, maxSize, k, v).value[|AfterPut(e, maxSize, k, v).value| - 1] == (k, v)
  {
    var r := AfterPut(e, maxSize, k, v).value;
    match IndexOf(e, k)
    case Some(i) =>
      RemoveDistinct(e, i);
      AppendDistinct(Remove(e, i), k, v);
      LookupAppend(Remove(e, i), k, v, k);
    case None =>
      if |e| >= maxSize {
        assert DistinctKeys(e[1..]);
        AppendDistinct(e[1..], k, v);
        LookupAppend(e[1..], k, v, k);
      } else {
        AppendDistinct(e, k, v);
        LookupAppend(e, k, v, k);
      }
  }

  /** `put` raises exactly when the key is new, the cache is empty and max_size <= 0. */
  lemma AfterPutFails<V>(e: seq<(string, V)>, maxSize: int, k: string, v: V)
    ensures AfterPut(e, maxSize, k, v).None? <==> Lookup(e, k).None? && e == [] && maxSize <= 0
  {
  }

  /**
   * A new key on a full cache evicts the least recently used entry (the front)
   * and nothing else: every other key keeps its tile.
   */
  lemma AfterPutEvictsOldest<V>(e: seq<(string, V)>, maxSize: int, k: string, v: V, k': string)
    requires DistinctKeys(e) && e != []
    requires Lookup(e, k).None? && |e| >= maxSize
    ensures AfterPut(e, maxSize, k, v) == Some(e[1..] + [(k, v)])
    ensures Lookup(AfterPut(e, maxSize, k, v).value, e[0].0).None?
    ensures k' != k && k' != e[0].0 ==> Lookup(AfterPut(e, maxSize, k, v).value, k') == Lookup(e, k')
  {
    var r := e[1..] + [(k, v)];
    assert e[1..] == Remove(e, 0);
    RemoveDistinct(e, 0);
    LookupAppend(e[1..], k, v, e[0].0);
    LookupAppend(e[1..], k, v, k');
    if k' != k && k' != e[0].0 {
      LookupRemove(e, 0, k');
    }
    assert Lookup(e[1..], e[0].0).None?;
  }

  /** A new key on a cache with room is appended; nothing is evicted. */
  lemma AfterPutAppends<V>(e: seq<(string, V)>, maxSize: int, k: string, v: V, k': string)
    requires Lookup(e, k).None? && |e| < maxSize
    ensures AfterPut(e, maxSize, k, v) == Some(e + [(k, v)])
    ensures k' != k ==> Lookup(AfterPut(e, maxSize, k, v).value, k') == Lookup(e, k')
  {
    LookupAppend(e, k, v, k');
  }

  /** Re-putting an existing key replaces its tile without changing the size or other keys. */
  lemma AfterPutReplaces<V>(e: seq<(string, V)>, maxSize: int, k: string, v: V, k': string)
    requires DistinctKeys(e) && Lookup(e, k).Some?
    ensures AfterPut(e, maxSize, k, v).Some?
    ensures |AfterPut(e, maxSize, k, v).value| == |e|
    ensures k' != k ==> Lookup(AfterPut(e, maxSize, k, v).value, k') == Lookup(e, k')
  {
    var i := IndexOf(e, k).value;
    RemoveDistinct(e, i);
    LookupAppend(Remove(e, i), k, v, k');
    if k' != k { LookupRemove(e, i, k'); }
  }

  // ---------------------------------------------------------------------
  // The cache object
  // ---------------------------------------------------------------------

  class TileCache<V> {
    var entries: seq<(string, V)>
    const maxSize: int

    ghost predicate Valid()
      reads this
    {
      DistinctKeys(entries) && Bounded(entries, maxSize)
    }

    constructor(maxSize: int)
      ensures Valid()
      ensures this.maxSize == maxSize && entries == []
    {
      this.maxSize := maxSize;
      entries := [];
    }

    /** Returns the tile for key on a hit (making it the most recent), None on a miss. */
    method Get(key: string) returns (tile: Option<V>)
      requires Valid()
      modifies this
      ensures Valid()
      ensures tile == Lookup(old(entries), key)
      ensures entries == AfterGet(old(entries), key)
    {
      var i := IndexOf(entries, key);
      match i
      case None =>
        tile := None;
      case Some(j) =>
        AfterGetKeepsContents(entries, key, key);
        tile := Some(entries[j].1);
        entries := Remove(entries, j) + [entries[j]];
    }

    /** Stores a tile; `ok` is false where Python raises KeyError (popitem on an empty cache). */
    method Put(key: string, tile: V) returns (ok: bool)
      requires Valid()
      modifies this
      ensures Valid()
      ensures ok <==> AfterPut(old(entries), maxSize, key, tile).Some?
      ensures ok ==> entries == AfterPut(old(entries), maxSize, key, tile).value
      ensures !ok ==> entries == old(entries)
    {
      var i := IndexOf(entries, key);
      match i
      case Some(j) =>
        AfterPutKeepsInvariant(entries, maxSize, key, tile);
        entries := Remove(entries, j) + [(key, tile)];
        ok := true;
      case None =>
        if |entries| >= maxSize {
          if entries == [] {
            ok := false;
            return;
          }
          AfterPutKeepsInvariant(entries, maxSize, key, tile);
          entries := entries[1..];
        } else {
          AfterPutKeepsInvariant(entries, maxSize, key, tile);
        }
        entries := entries + [(key, tile)];
        ok := true;
    }

    function Contains(key: string): (b: bool)
      reads this
      ensures b <==> exists j :: 0 <= j < |entries| && entries[j].0 == key
    {
      Lookup(entries, key).Some?
    }

    method Clear()
      modifies this
      ensures entries == []
    {
      entries := [];
    }

    function Size(): (n: nat)
      reads this
      requires Valid()
      ensures n == |entries|
      ensures n == 0 || n <= maxSize
    {
      |entries|
    }

    /** Keys from least to most recently used, each once. */
    function Keys(): (ks: seq<string>)
      reads this
      requires Valid()
      ensures |ks| == |entries|
      ensures forall i :: 0 <= i < |ks| ==> ks[i] == entries[i].0
      ensures forall i, j :: 0 <= i < j < |ks| ==> ks[i] != ks[j]
      ensures forall i :: 0 <= i < |ks| ==> Contains(ks[i])
    {
      KeysOf(entries)
    }
  }
}
