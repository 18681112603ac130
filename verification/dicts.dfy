/**
 * The registry's tables are Python dicts with integer keys: lookups by key,
 * iteration in insertion order, and an update of a present key that keeps
 * the key's position. A `Dict` is the list of its (key, value) entries in
 * that order; `Put` replaces the first entry with the key or appends one.
 */
module Dicts {
  import opened Wrappers
  import opened Seqs

  datatype Dict<V> = Dict(items: seq<(int, V)>)

  function Empty<V>(): Dict<V> {
    Dict([])
  }

  /** Position of the entry for `k`. */
  function Find<V>(d: Dict<V>, k: int): Option<nat> {
    FirstIndex(d.items, (e: (int, V)) => e.0 == k)
  }

  function Get<V>(d: Dict<V>, k: int): Option<V> {
    match Find(d, k)
    case None => None
    case Some(i) => Some(d.items[i].1)
  }

  predicate Has<V>(d: Dict<V>, k: int) {
    Find(d, k).Some?
  }

  /** The keys in iteration order. */
  function Keys<V>(d: Dict<V>): (ks: seq<int>)
    ensures |ks| == |d.items|
    ensures forall i :: 0 <= i < |ks| ==> ks[i] == d.items[i].0
  {
    seq(|d.items|, i requires 0 <= i < |d.items| => d.items[i].0)
  }

  /** The values in iteration order (`d.values()`). */
  function Values<V>(d: Dict<V>): (vs: seq<V>)
    ensures |vs| == |d.items|
    ensures forall i :: 0 <= i < |vs| ==> vs[i] == d.items[i].1
  {
    seq(|d.items|, i requires 0 <= i < |d.items| => d.items[i].1)
  }

  /** No key occurs twice, as in every dict the source builds. */
  ghost predicate DistinctKeys<V>(d: Dict<V>) {
    forall i, j :: 0 <= i < j < |d.items| ==> d.items[i].0 != d.items[j].0
  }

  /** Dropping the first entry keeps the keys distinct, and none of the rest has the first key. */
  lemma DistinctTail<V>(items: seq<(int, V)>)
    requires |items| > 0
    requires DistinctKeys(Dict(items))
    ensures DistinctKeys(Dict(items[1..]))
    ensures forall i :: 0 <= i < |items[1..]| ==> items[1..][i].0 != items[0].0
  {
    var rest := items[1..];
    forall i, j | 0 <= i < j < |rest| ensures rest[i].0 != rest[j].0 {
      assert rest[i] == items[i + 1] && rest[j] == items[j + 1];
    }
    forall i | 0 <= i < |rest| ensures rest[i].0 != items[0].0 {
      assert rest[i] == items[i + 1];
    }
  }

  lemma HasGet<V>(d: Dict<V>, k: int)
    ensures Has(d, k) <==> Get(d, k).Some?
  {
  }

  /** A key is present exactly when some entry carries it. */
  lemma HasIff<V>(d: Dict<V>, k: int)
    ensures Has(d, k) <==> exists i :: 0 <= i < |d.items| && d.items[i].0 == k
  {
    if !Has(d, k) {
      assert forall i :: 0 <= i < |d.items| ==> d.items[i].0 != k;
    }
  }

  /** With distinct keys, the entry at position `i` is what `Get` returns for its key. */
  lemma GetAt<V>(d: Dict<V>, i: nat)
    requires DistinctKeys(d)
    requires i < |d.items|
    ensures Get(d, d.items[i].0) == Some(d.items[i].1)
  {
    var k := d.items[i].0;
    FirstIndexIs(d.items, (e: (int, V)) => e.0 == k, Some(i));
  }

  /** `d[k] = v` */
  function Put<V>(d: Dict<V>, k: int, v: V): (r: Dict<V>)
    ensures Get(r, k) == Some(v)
    ensures forall k' :: k' != k ==> Get(r, k') == Get(d, k')
    ensures Has(d, k) ==> Keys(r) == Keys(d)
    ensures !Has(d, k) ==> Keys(r) == Keys(d) + [k]
    ensures DistinctKeys(d) ==> DistinctKeys(r)
  {
    var r := match Find(d, k)
      case Some(i) => Dict(d.items[i := (k, v)])
      case None => Dict(d.items + [(k, v)]);
    PutMeaning(d, k, v, r);
    r
  }

  lemma PutMeaning<V>(d: Dict<V>, k: int, v: V, r: Dict<V>)
    requires r == match Find(d, k)
      case Some(i) => Dict(d.items[i := (k, v)])
      case None => Dict(d.items + [(k, v)])
    ensures Get(r, k) == Some(v)
    ensures forall k' :: k' != k ==> Get(r, k') == Get(d, k')
    ensures Has(d, k) ==> Keys(r) == Keys(d)
    ensures !Has(d, k) ==> Keys(r) == Keys(d) + [k]
    ensures DistinctKeys(d) ==> DistinctKeys(r)
  {
    forall k' ensures Get(r, k') == if k' == k then Some(v) else Get(d, k') {
      PutFind(d, k, v, r, k');
    }
    PutKeys(d, k, v, r);
  }

  /** A put keeps the key order, appending a new key, and keeps the keys distinct. */
  lemma PutKeys<V>(d: Dict<V>, k: int, v: V, r: Dict<V>)
    requires r == match Find(d, k)
      case Some(i) => Dict(d.items[i := (k, v)])
      case None => Dict(d.items + [(k, v)])
    ensures Has(d, k) ==> Keys(r) == Keys(d)
    ensures !Has(d, k) ==> Keys(r) == Keys(d) + [k]
    ensures DistinctKeys(d) ==> DistinctKeys(r)
  {
    if Find(d, k).Some? {
      assert Keys(r) == Keys(d);
    } else {
      assert Keys(r) == Keys(d) + [k];
      if DistinctKeys(d) {
        assert forall j :: 0 <= j < |d.items| ==> d.items[j].0 != k;
      }
    }
  }

  /** Where a key is found after a put: a new key at the end, every other key where it was. */
  lemma PutFind<V>(d: Dict<V>, k: int, v: V, r: Dict<V>, k': int)
    requires r == match Find(d, k)
      case Some(i) => Dict(d.items[i := (k, v)])
      case None => Dict(d.items + [(k, v)])
    ensures Find(r, k') == (if k' == k && Find(d, k).None? then Some(|d.items|) else Find(d, k'))
  {
    var p := (e: (int, V)) => e.0 == k';
    var q := FirstIndex(d.items, p);
    assert forall j :: 0 <= j < |d.items| ==> (p(r.items[j]) <==> p(d.items[j]));
    if k' == k && Find(d, k).None? {
      FirstIndexIs(r.items, p, Some(|d.items|));
    } else {
      FirstIndexIs(r.items, p, q);
    }
  }

  /** `d.update(other)`: the entries of `other` put into `d` one by one, in order. */
  function PutAll<V>(d: Dict<V>, other: seq<(int, V)>): (r: Dict<V>)
    ensures forall k :: !Has(Dict(other), k) ==> Get(r, k) == Get(d, k)
    ensures DistinctKeys(Dict(other)) ==> forall k :: Has(Dict(other), k) ==> Get(r, k) == Get(Dict(other), k)
    decreases |other|
  {
    if |other| == 0 then d
    else
      var r := PutAll(Put(d, other[0].0, other[0].1), other[1..]);
      PutAllStep(d, other, r);
      r
  }

  lemma PutAllStep<V>(d: Dict<V>, other: seq<(int, V)>, r: Dict<V>)
    requires |other| > 0
    requires var d' := Put(d, other[0].0, other[0].1);
      && (forall k :: !Has(Dict(other[1..]), k) ==> Get(r, k) == Get(d', k))
      && (DistinctKeys(Dict(other[1..])) ==> forall k :: Has(Dict(other[1..]), k) ==> Get(r, k) == Get(Dict(other[1..]), k))
    ensures forall k :: !Has(Dict(other), k) ==> Get(r, k) == Get(d, k)
    ensures DistinctKeys(Dict(other)) ==> forall k :: Has(Dict(other), k) ==> Get(r, k) == Get(Dict(other), k)
  {
    forall k ensures Get(Dict(other), k) == if other[0].0 == k then Some(other[0].1) else Get(Dict(other[1..]), k) {
      TailGet(other, k);
    }
    if DistinctKeys(Dict(other)) {
      assert DistinctKeys(Dict(other[1..])) by {
        forall i, j | 0 <= i < j < |other[1..]| ensures other[1..][i].0 != other[1..][j].0 {
          assert other[1..][i] == other[i + 1] && other[1..][j] == other[j + 1];
        }
      }
      forall k | Has(Dict(other), k) ensures Get(r, k) == Get(Dict(other), k) {
        if other[0].0 == k {
          HasIff(Dict(other[1..]), k);
        } else {
          HasIff(Dict(other), k);
          HasIff(Dict(other[1..]), k);
          var i :| 0 <= i < |other| && other[i].0 == k;
          assert other[1..][i - 1].0 == k;
        }
      }
    }
  }

  /** A lookup in a list of entries either hits the first entry or looks in the rest. */
  lemma TailGet<V>(items: seq<(int, V)>, k: int)
    requires |items| > 0
    ensures Get(Dict(items), k) == if items[0].0 == k then Some(items[0].1) else Get(Dict(items[1..]), k)
    ensures Has(Dict(items), k) <==> items[0].0 == k || Has(Dict(items[1..]), k)
  {
  }

  /** The entries mapping every key of `ks` to `v`. */
  function MapAll<V>(ks: seq<int>, v: V): (m: seq<(int, V)>)
    ensures |m| == |ks|
    ensures forall i :: 0 <= i < |m| ==> m[i] == (ks[i], v)
  {
    seq(|ks|, i requires 0 <= i < |ks| => (ks[i], v))
  }

  /** Updating with entries that all carry the same value maps every one of their keys to it. */
  lemma {:induction false} PutAllConst<V>(d: Dict<V>, other: seq<(int, V)>, v: V)
    requires forall i :: 0 <= i < |other| ==> other[i].1 == v
    ensures forall i :: 0 <= i < |other| ==> Get(PutAll(d, other), other[i].0) == Some(v)
    decreases |other|
  {
    if |other| > 0 {
      var d' := Put(d, other[0].0, other[0].1);
      var rest := other[1..];
      PutAllConst(d', rest, v);
      forall i | 0 <= i < |other| ensures Get(PutAll(d, other), other[i].0) == Some(v) {
        if i > 0 {
          assert other[i] == rest[i - 1];
        } else if Has(Dict(rest), other[0].0) {
          HasIff(Dict(rest), other[0].0);
          var j :| 0 <= j < |rest| && rest[j].0 == other[0].0;
        }
      }
    }
  }

  /** Mapping each of `ks` to `v` hits exactly the keys in `ks`. */
  lemma PutAllKeys<V>(d: Dict<V>, ks: seq<int>, v: V)
    ensures forall i :: 0 <= i < |ks| ==> Get(PutAll(d, MapAll(ks, v)), ks[i]) == Some(v)
    ensures forall k :: k !in ks ==> Get(PutAll(d, MapAll(ks, v)), k) == Get(d, k)
  {
    var m := MapAll(ks, v);
    PutAllConst(d, m, v);
    forall k | k !in ks ensures !Has(Dict(m), k) {
      HasIff(Dict(m), k);
    }
  }
}
