/**
 * Typed cross-references of a connection record. The source keeps them as two
 * parallel arrays, `other_connections` (the tag) and `other_connected_ids`;
 * here each aligned pair is one element of a `seq<CrossRef>`.
 */
module CrossRefs {
  import opened Wrappers
  import opened Seqs

  /** The tag values 0 (age), 1 (building), 2 (unit) and 3 (tech); anything else is `OtherTag`. */
  datatype Kind = AgeTag | BuildingTag | UnitTag | TechTag | OtherTag

  function KindOfCode(code: int): Kind {
    if code == 0 then AgeTag
    else if code == 1 then BuildingTag
    else if code == 2 then UnitTag
    else if code == 3 then TechTag
    else OtherTag
  }

  type CrossRef = (Kind, int)

  function IsKind(k: Kind): CrossRef -> bool {
    (c: CrossRef) => c.0 == k
  }

  /** Index of the first cross-reference tagged `k` (the source's `connected_index` search). */
  function FirstIndexOfKind(refs: seq<CrossRef>, k: Kind): Option<nat> {
    FirstIndex(refs, IsKind(k))
  }

  /** The id paired with the first cross-reference tagged `k`. */
  function FirstOfKind(refs: seq<CrossRef>, k: Kind): (r: Option<int>)
    ensures r.None? <==> forall i :: 0 <= i < |refs| ==> refs[i].0 != k
    ensures r.Some? ==> exists i :: 0 <= i < |refs| && refs[i] == (k, r.value) && forall j :: 0 <= j < i ==> refs[j].0 != k
  {
    match FirstIndexOfKind(refs, k)
    case None => None
    case Some(i) => Some(refs[i].1)
  }

  /** A scan that skips a leading entry of another kind finds the same id. */
  lemma FirstOfKindTail(refs: seq<CrossRef>, k: Kind)
    ensures |refs| > 0 ==> FirstOfKind(refs, k) == if refs[0].0 == k then Some(refs[0].1) else FirstOfKind(refs[1..], k)
  {
    if |refs| > 0 && refs[0].0 != k {
      var t := FirstIndexOfKind(refs[1..], k);
      FirstIndexIs(refs, IsKind(k), if t.Some? then Some(t.value + 1) else None);
    }
  }

  /** The ids of all cross-references tagged `k`, in order (the source's `connected_tech_indices` walk). */
  function IdsOfKind(refs: seq<CrossRef>, k: Kind): (ids: seq<int>)
    ensures forall i :: 0 <= i < |ids| ==> (k, ids[i]) in refs
    ensures |ids| == 0 <==> FirstOfKind(refs, k).None?
    ensures |ids| > 0 ==> FirstOfKind(refs, k) == Some(ids[0])
    decreases |refs|
  {
    FirstOfKindTail(refs, k);
    if |refs| == 0 then []
    else if refs[0].0 == k then [refs[0].1] + IdsOfKind(refs[1..], k)
    else IdsOfKind(refs[1..], k)
  }

  /** The ids carried by a run of cross-references, in order. */
  function IdsOf(cs: seq<CrossRef>): (ids: seq<int>)
    ensures |ids| == |cs|
    ensures forall i :: 0 <= i < |cs| ==> ids[i] == cs[i].1
  {
    seq(|cs|, i requires 0 <= i < |cs| => cs[i].1)
  }

  /** The walk keeps order: its ids are the ids of the cross-references tagged `k`, position by position. */
  lemma {:induction false} IdsOfKindFiltered(refs: seq<CrossRef>, k: Kind)
    ensures IdsOfKind(refs, k) == IdsOf(Filter(refs, IsKind(k)))
    decreases |refs|
  {
    if |refs| > 0 {
      IdsOfKindFiltered(refs[1..], k);
      var f := Filter(refs[1..], IsKind(k));
      if refs[0].0 == k {
        assert IdsOfKind(refs, k) == [refs[0].1] + IdsOf(f);
        assert Filter(refs, IsKind(k)) == [refs[0]] + f;
        IdsOfCons(refs[0], f);
      } else {
        assert IdsOfKind(refs, k) == IdsOf(f);
        assert Filter(refs, IsKind(k)) == f;
      }
    }
  }

  lemma IdsOfCons(c: CrossRef, cs: seq<CrossRef>)
    ensures IdsOf([c] + cs) == [c.1] + IdsOf(cs)
  {
  }

  /** The walk misses nothing: every cross-reference tagged `k` contributes its id. */
  lemma IdsOfKindComplete(refs: seq<CrossRef>, k: Kind)
    ensures forall j :: 0 <= j < |refs| && refs[j].0 == k ==> refs[j].1 in IdsOfKind(refs, k)
  {
    IdsOfKindFiltered(refs, k);
    var ids, f := IdsOfKind(refs, k), Filter(refs, IsKind(k));
    forall j | 0 <= j < |refs| && refs[j].0 == k
      ensures refs[j].1 in ids
    {
      assert IsKind(k)(refs[j]);
      assert refs[j] in f;
      var i :| 0 <= i < |f| && f[i] == refs[j];
      assert ids[i] == refs[j].1;
    }
  }
}
