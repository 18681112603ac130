/**
 * `_create_unit_lines` (processor.py:427-515) and `_create_extra_unit_lines`
 * (processor.py:517-533): units are sorted into lines by the unit connections,
 * each line published under its head unit id and under its line id.
 */
module UnitLines {
  import opened Wrappers
  import opened Dicts
  import opened CrossRefs
  import opened Records
  import opened Groups
  import opened Registry

  /** The vertical line whose first unit opens a monk group. */
  const MonkLineId := 65
  /** The monk-with-relic unit the source hard-codes for that group. */
  const RelicMonkUnitId := 286
  /** Wildlife units that no connection mentions. */
  const ExtraUnitIds: seq<int> := [48, 65, 594, 833]

  const FirstInLine := 2

  predicate HasTransform(u: Unit) {
    u.transformUnitId.Some? && u.transformUnitId.value > -1
  }

  predicate InTaskGroup(u: Unit) {
    u.taskGroup.Some? && u.taskGroup.value > 0
  }

  /**
   * The group opened for a unit whose line has none yet, by the source's fixed
   * precedence; `None` when the unit is a villager, left to the villager builder.
   */
  function NewLineKind(u: Unit, unitId: int, lineId: int): Option<GroupKind> {
    if HasTransform(u) then Some(TransformLine(unitId))
    else if lineId == MonkLineId then Some(MonkLine(unitId, RelicMonkUnitId))
    else if InTaskGroup(u) then None
    else Some(UnitLine)
  }

  /**
   * The unit a connection's unit is placed after: none for the first unit of a
   * line, else the id paired with the first cross-reference tagged Unit.
   */
  function Predecessor(unitId: int, c: UnitConnection): (r: Result<Option<int>, Error>)
    ensures c.lineMode == FirstInLine ==> r == Success(None)
    ensures r.Failure? <==> c.lineMode != FirstInLine && forall i :: 0 <= i < |c.refs| ==> c.refs[i].0 != UnitTag
    ensures r.Failure? ==> r.error == NoPreviousUnit(unitId)
    ensures r.Success? && r.value.Some? ==>
      exists i :: 0 <= i < |c.refs| && c.refs[i] == (UnitTag, r.value.value) && forall j :: 0 <= j < i ==> c.refs[j].0 != UnitTag
  {
    if c.lineMode == FirstInLine then Success(None)
    else match FirstOfKind(c.refs, UnitTag)
      case None => Failure(NoPreviousUnit(unitId))
      case Some(p) => Success(Some(p))
  }

  /** The pass's local `pre_unit_lines` dict (line id to line) next to the registry. */
  datatype Pass = Pass(pre: Dict<GroupRef>, reg: Registry)

  /** `unit_line.add_unit(unit)` or `add_unit(unit, after=previous_unit_id)`. */
  function Place(unitId: int, c: UnitConnection, ref: GroupRef, st: Pass): (r: Result<Pass, Error>)
    ensures r.Success? <==> Predecessor(unitId, c).Success?
    ensures r.Success? ==> r.value.pre == st.pre
    ensures r.Success? ==> r.value.reg == st.reg.(groups := r.value.reg.groups)
    ensures r.Success? ==> r.value.reg.groups == st.reg.groups[ref := Deref(r.value.reg.groups, ref)]
    ensures r.Success? ==> var g := Deref(st.reg.groups, ref);
      Deref(r.value.reg.groups, ref) == g.(line := AddUnit(g.line, unitId, Predecessor(unitId, c).value))
  {
    var prev :- Predecessor(unitId, c);
    var g := Deref(st.reg.groups, ref);
    Success(st.(reg := st.reg.(groups := st.reg.groups[ref := g.(line := AddUnit(g.line, unitId, prev))])))
  }

  /** Everything this pass leaves alone. */
  predicate Unchanged(a: Registry, b: Registry) {
    b == a.(groups := b.groups, transformGroups := b.transformGroups, monkGroups := b.monkGroups, unitRef := b.unitRef)
  }

  /** One iteration of the connection loop. */
  function Step(ds: Dataset, unitId: int, c: UnitConnection, st: Pass): (r: Result<Pass, Error>)
    // only the line groups, the transform and monk indices and the unit map change
    ensures r.Success? ==> Unchanged(st.reg, r.value.reg)
    ensures !Has(ds.units, unitId) ==> r == Failure(MissingKey(UnitsTable, unitId))
    ensures Has(ds.units, unitId) && r.Failure? ==> r.error == NoPreviousUnit(unitId)
    // a line that already exists is reused and the unit is mapped to it
    ensures Has(ds.units, unitId) && Get(st.pre, c.verticalLine).Some? ==>
      var ref := Get(st.pre, c.verticalLine).value;
      && (r.Success? <==> Predecessor(unitId, c).Success?)
      && (r.Success? ==> r.value.pre == st.pre && Get(r.value.reg.unitRef, unitId) == Some(ref)
                         && unitId in Deref(r.value.reg.groups, ref).line)
    // otherwise the precedence transform > monk > villager skip > plain decides
    ensures Has(ds.units, unitId) && Get(st.pre, c.verticalLine).None? ==>
      var u := Get(ds.units, unitId).value;
      var L := c.verticalLine;
      var ref := UnitLineRef(L);
      && (!HasTransform(u) && L != MonkLineId && InTaskGroup(u) ==> r == Success(st))
      && (!(!HasTransform(u) && L != MonkLineId && InTaskGroup(u)) ==>
            && (r.Success? <==> Predecessor(unitId, c).Success?)
            && (r.Success? ==>
                  && Get(r.value.pre, L) == Some(ref)
                  && Get(r.value.reg.unitRef, unitId) == Some(ref)
                  && ref in r.value.reg.groups
                  && Deref(r.value.reg.groups, ref).line == [unitId]
                  && Deref(r.value.reg.groups, ref).id == L))
      && (r.Success? && HasTransform(u) ==>
            Deref(r.value.reg.groups, ref).kind == TransformLine(unitId) && Get(r.value.reg.transformGroups, L) == Some(ref))
      && (r.Success? && !HasTransform(u) && L == MonkLineId ==>
            Deref(r.value.reg.groups, ref).kind == MonkLine(unitId, RelicMonkUnitId) && Get(r.value.reg.monkGroups, L) == Some(ref))
      && (r.Success? && !HasTransform(u) && L != MonkLineId && !InTaskGroup(u) ==>
            Deref(r.value.reg.groups, ref).kind == UnitLine)
  {
    var u :- LookupUnit(ds, unitId);
    var L := c.verticalLine;
    match Get(st.pre, L)
    case Some(ref) =>
      Place(unitId, c, ref, st.(reg := st.reg.(unitRef := Put(st.reg.unitRef, unitId, ref))))
    case None =>
      match NewLineKind(u, unitId, L)
      case None => Success(st)
      case Some(kind) =>
        Place(unitId, c, UnitLineRef(L), Open(unitId, L, kind, st))
  }

  /** A new, still empty line `L` of the given kind, registered before the unit is placed in it. */
  function Open(unitId: int, L: int, kind: GroupKind, st: Pass): Pass {
    var ref := UnitLineRef(L);
    Pass(Put(st.pre, L, ref), st.reg.(
      groups := st.reg.groups[ref := NewGroup(kind, L)],
      transformGroups := if kind.TransformLine? then Put(st.reg.transformGroups, L, ref) else st.reg.transformGroups,
      monkGroups := if kind.MonkLine? then Put(st.reg.monkGroups, L, ref) else st.reg.monkGroups,
      unitRef := Put(st.reg.unitRef, unitId, ref)))
  }

  /** The loop over the unit connections, in dict order. */
  function Fold(ds: Dataset, items: seq<(int, UnitConnection)>, st: Pass): (r: Result<Pass, Error>)
    ensures r.Success? ==> Unchanged(st.reg, r.value.reg)
    decreases |items|
  {
    if |items| == 0 then Success(st)
    else
      var st' :- Step(ds, items[0].0, items[0].1, st);
      Fold(ds, items[1..], st')
  }

  /** `unit_lines.update({line.get_head_unit_id(): line})` for every line, in order. */
  function IndexByHead(lines: seq<(int, GroupRef)>, reg: Registry): (r: Result<Registry, Error>)
    ensures r.Success? ==> r.value == reg.(unitLines := r.value.unitLines)
    decreases |lines|
  {
    if |lines| == 0 then Success(reg)
    else
      var head :- HeadUnitId(reg.groups, lines[0].1);
      IndexByHead(lines[1..], reg.(unitLines := Put(reg.unitLines, head, lines[0].1)))
  }

  /**
   * `_create_unit_lines`: the connection loop, then both line indices. It
   * writes the groups, the transform and monk indices, `unit_ref`,
   * `unit_lines` and `unit_lines_vertical_ref`, and nothing else.
   */
  function CreateUnitLines(ds: Dataset, reg: Registry): (r: Result<Registry, Error>)
    ensures r.Success? ==> r.value == reg.(groups := r.value.groups, transformGroups := r.value.transformGroups,
      monkGroups := r.value.monkGroups, unitRef := r.value.unitRef, unitLines := r.value.unitLines,
      unitLinesVerticalRef := r.value.unitLinesVerticalRef)
  {
    var st :- Fold(ds, ds.unitConnections.items, Pass(Empty(), reg));
    var reg' :- IndexByHead(st.pre.items, st.reg);
    Success(reg'.(unitLinesVerticalRef := PutAll(reg'.unitLinesVerticalRef, st.pre.items)))
  }

  /**
   * One wildlife unit of `_create_extra_unit_lines`: a plain line holding just
   * that unit, published in `unit_lines` under the unit id (its line id).
   */
  function ExtraLine(ds: Dataset, unitId: int, reg: Registry): (r: Result<Registry, Error>)
    ensures r.Failure? <==> !Has(ds.units, unitId)
    ensures r.Failure? ==> r.error == MissingKey(UnitsTable, unitId)
    ensures r.Success? ==>
      var ref := ExtraLineRef(unitId);
      && Get(r.value.unitLines, unitId) == Some(ref)
      && Get(r.value.unitRef, unitId) == Some(ref)
      && Deref(r.value.groups, ref) == NewGroup(UnitLine, unitId).(line := [unitId])
      && (forall k :: k != unitId ==> Get(r.value.unitLines, k) == Get(reg.unitLines, k) && Get(r.value.unitRef, k) == Get(reg.unitRef, k))
      && (forall g :: g != ref ==> Deref(r.value.groups, g) == Deref(reg.groups, g))
      && r.value == reg.(groups := r.value.groups, unitLines := r.value.unitLines, unitRef := r.value.unitRef)
  {
    var _ :- LookupUnit(ds, unitId);
    var ref := ExtraLineRef(unitId);
    var g := NewGroup(UnitLine, unitId);
    Success(reg.(groups := reg.groups[ref := g.(line := AddUnit(g.line, unitId, None))],
                 unitLines := Put(reg.unitLines, unitId, ref),
                 unitRef := Put(reg.unitRef, unitId, ref)))
  }

  function ExtraFold(ds: Dataset, ids: seq<int>, reg: Registry): (r: Result<Registry, Error>)
    ensures r.Success? ==> r.value == reg.(groups := r.value.groups, unitLines := r.value.unitLines, unitRef := r.value.unitRef)
    decreases |ids|
  {
    if |ids| == 0 then Success(reg)
    else
      var reg' :- ExtraLine(ds, ids[0], reg);
      ExtraFold(ds, ids[1..], reg')
  }

  /** `_create_extra_unit_lines`: it raises exactly when a wildlife id is not a unit. */
  function CreateExtraUnitLines(ds: Dataset, reg: Registry): (r: Result<Registry, Error>)
    ensures r.Success? <==> AllUnits(ds, ExtraUnitIds)
    ensures r.Success? ==> r.value == reg.(groups := r.value.groups, unitLines := r.value.unitLines, unitRef := r.value.unitRef)
  {
    ExtraFoldSucceeds(ds, ExtraUnitIds, reg);
    ExtraFold(ds, ExtraUnitIds, reg)
  }

  /** The extra pass fails exactly when one of its ids is not a unit. */
  lemma {:induction false} ExtraFoldSucceeds(ds: Dataset, ids: seq<int>, reg: Registry)
    ensures ExtraFold(ds, ids, reg).Success? <==> AllUnits(ds, ids)
    decreases |ids|
  {
    if |ids| > 0 {
      AllUnitsCons(ds, ids);
      if Has(ds.units, ids[0]) {
        var reg1 := ExtraLine(ds, ids[0], reg).value;
        assert ExtraFold(ds, ids, reg) == ExtraFold(ds, ids[1..], reg1);
        ExtraFoldSucceeds(ds, ids[1..], reg1);
      } else {
        assert ExtraFold(ds, ids, reg).Failure?;
      }
    }
  }

  /**
   * After the extra pass each id is the only member of its own line, published
   * under the id in `unit_lines` and `unit_ref`.
   */
  lemma {:induction false} ExtraFoldPublishes(ds: Dataset, ids: seq<int>, reg: Registry)
    requires forall i, j :: 0 <= i < j < |ids| ==> ids[i] != ids[j]
    requires ExtraFold(ds, ids, reg).Success?
    ensures var r := ExtraFold(ds, ids, reg).value;
      forall i :: 0 <= i < |ids| ==>
        && Get(r.unitLines, ids[i]) == Some(ExtraLineRef(ids[i]))
        && Get(r.unitRef, ids[i]) == Some(ExtraLineRef(ids[i]))
        && Deref(r.groups, ExtraLineRef(ids[i])).line == [ids[i]]
    decreases |ids|
  {
    if |ids| > 0 {
      var rest := ids[1..];
      var reg1 := ExtraLine(ds, ids[0], reg).value;
      var r := ExtraFold(ds, ids, reg).value;
      assert r == ExtraFold(ds, rest, reg1).value;
      ExtraFoldPublishes(ds, rest, reg1);
      assert ids[0] !in rest by {
        forall i | 0 <= i < |rest| ensures rest[i] != ids[0] {
          assert rest[i] == ids[i + 1];
        }
      }
      ExtraFoldFrame(ds, rest, reg1, ids[0]);
      forall i | 0 < i < |ids| ensures Get(r.unitLines, ids[i]) == Some(ExtraLineRef(ids[i])) {
        assert ids[i] == rest[i - 1];
      }
      forall i | 0 < i < |ids| ensures Get(r.unitRef, ids[i]) == Some(ExtraLineRef(ids[i])) {
        assert ids[i] == rest[i - 1];
      }
      forall i | 0 < i < |ids| ensures Deref(r.groups, ExtraLineRef(ids[i])).line == [ids[i]] {
        assert ids[i] == rest[i - 1];
      }
    }
  }

  /** Entries for an id the remaining loop does not visit are left as they are. */
  lemma {:induction false} ExtraFoldFrame(ds: Dataset, ids: seq<int>, reg: Registry, k: int)
    requires k !in ids
    requires ExtraFold(ds, ids, reg).Success?
    ensures var r := ExtraFold(ds, ids, reg).value;
      && Get(r.unitLines, k) == Get(reg.unitLines, k)
      && Get(r.unitRef, k) == Get(reg.unitRef, k)
      && Deref(r.groups, ExtraLineRef(k)) == Deref(reg.groups, ExtraLineRef(k))
    decreases |ids|
  {
    if |ids| > 0 {
      assert k !in ids[1..];
      ExtraFoldFrame(ds, ids[1..], ExtraLine(ds, ids[0], reg).value, k);
    }
  }

  // ----- the two indices of a line -----

  function LineOf(st: Pass, L: int): seq<int> {
    Deref(st.reg.groups, UnitLineRef(L)).line
  }

  predicate InLine(st: Pass, L: int, x: int) {
    x in LineOf(st, L)
  }

  /**
   * What the loop keeps true: `pre` maps each line id to its own line, every
   * line is non-empty and holds only units already processed, and no unit is
   * in two lines.
   */
  ghost predicate LinesWellFormed(st: Pass, seen: set<int>) {
    && DistinctKeys(st.pre)
    && (forall i :: 0 <= i < |st.pre.items| ==> st.pre.items[i].1 == UnitLineRef(st.pre.items[i].0))
    && (forall L :: Has(st.pre, L) ==> |LineOf(st, L)| > 0 && !Deref(st.reg.groups, UnitLineRef(L)).kind.VillagerLine?)
    && (forall L, x :: Has(st.pre, L) && InLine(st, L, x) ==> x in seen)
    && (forall L1, L2, x :: Has(st.pre, L1) && Has(st.pre, L2) && InLine(st, L1, x) && InLine(st, L2, x) ==> L1 == L2)
  }

  lemma PreValue(st: Pass, seen: set<int>, L: int)
    requires LinesWellFormed(st, seen)
    ensures Has(st.pre, L) ==> Get(st.pre, L) == Some(UnitLineRef(L))
  {
  }

  lemma PutKeepsLineRefs(pre: Dict<GroupRef>, L: int)
    requires forall i :: 0 <= i < |pre.items| ==> pre.items[i].1 == UnitLineRef(pre.items[i].0)
    ensures var p := Put(pre, L, UnitLineRef(L));
      forall i :: 0 <= i < |p.items| ==> p.items[i].1 == UnitLineRef(p.items[i].0)
  {
  }

  /** Growing one line by a fresh unit (or opening it with one) keeps the lines well formed. */
  lemma GrowLine(st: Pass, st': Pass, seen: set<int>, L: int, u: int)
    requires LinesWellFormed(st, seen)
    requires u !in seen
    requires DistinctKeys(st'.pre)
    requires forall i :: 0 <= i < |st'.pre.items| ==> st'.pre.items[i].1 == UnitLineRef(st'.pre.items[i].0)
    requires forall L2 :: Has(st'.pre, L2) <==> Has(st.pre, L2) || L2 == L
    requires forall L2 :: L2 != L ==> LineOf(st', L2) == LineOf(st, L2)
    requires forall L2 :: L2 != L ==> Deref(st'.reg.groups, UnitLineRef(L2)).kind == Deref(st.reg.groups, UnitLineRef(L2)).kind
    requires forall x :: InLine(st', L, x) <==> x == u || (Has(st.pre, L) && InLine(st, L, x))
    requires !Deref(st'.reg.groups, UnitLineRef(L)).kind.VillagerLine?
    ensures LinesWellFormed(st', seen + {u})
  {
    forall L2 | Has(st'.pre, L2) ensures |LineOf(st', L2)| > 0 && !Deref(st'.reg.groups, UnitLineRef(L2)).kind.VillagerLine? {
      if L2 == L {
        assert InLine(st', L, u);
      }
    }
    forall L2, x | Has(st'.pre, L2) && InLine(st', L2, x) ensures x in seen + {u} {
      if L2 != L {
        assert InLine(st, L2, x);
      }
    }
    forall L1, L2, x | Has(st'.pre, L1) && Has(st'.pre, L2) && InLine(st', L1, x) && InLine(st', L2, x) ensures L1 == L2 {
      if L1 != L && L2 != L {
        assert InLine(st, L1, x) && InLine(st, L2, x);
      } else if L1 == L && L2 != L {
        assert InLine(st, L2, x);
      } else if L1 != L && L2 == L {
        assert InLine(st, L1, x);
      }
    }
  }

  lemma ReuseKeepsLines(st: Pass, st': Pass, seen: set<int>, L: int, u: int, prev: Option<int>)
    requires LinesWellFormed(st, seen)
    requires u !in seen
    requires Has(st.pre, L)
    requires st'.pre == st.pre
    requires st'.reg.groups == st.reg.groups[UnitLineRef(L) := Deref(st.reg.groups, UnitLineRef(L)).(line := AddUnit(LineOf(st, L), u, prev))]
    ensures LinesWellFormed(st', seen + {u})
  {
    GrowLine(st, st', seen, L, u);
  }

  lemma OpenKeepsLines(st: Pass, st': Pass, seen: set<int>, L: int, u: int, kind: GroupKind, prev: Option<int>)
    requires LinesWellFormed(st, seen)
    requires u !in seen
    requires !Has(st.pre, L)
    requires !kind.VillagerLine?
    requires st'.pre == Put(st.pre, L, UnitLineRef(L))
    requires st'.reg.groups == st.reg.groups[UnitLineRef(L) := NewGroup(kind, L).(line := AddUnit([], u, prev))]
    ensures LinesWellFormed(st', seen + {u})
  {
    PutKeepsLineRefs(st.pre, L);
    forall L2 ensures Has(st'.pre, L2) <==> Has(st.pre, L2) || L2 == L {
      assert Has(st'.pre, L2) <==> Get(st'.pre, L2).Some?;
      assert Has(st.pre, L2) <==> Get(st.pre, L2).Some?;
    }
    GrowLine(st, st', seen, L, u);
  }

  lemma StepReuseKeepsLines(ds: Dataset, u: int, c: UnitConnection, st: Pass, seen: set<int>)
    requires LinesWellFormed(st, seen)
    requires u !in seen
    requires Has(ds.units, u) && Get(st.pre, c.verticalLine).Some?
    requires Step(ds, u, c, st).Success?
    ensures LinesWellFormed(Step(ds, u, c, st).value, seen + {u})
  {
    var st' := Step(ds, u, c, st).value;
    var L := c.verticalLine;
    var ref := UnitLineRef(L);
    PreValue(st, seen, L);
    var prev := Predecessor(u, c).value;
    var st1 := st.(reg := st.reg.(unitRef := Put(st.reg.unitRef, u, ref)));
    assert st' == Place(u, c, ref, st1).value;
    ReuseKeepsLines(st, st', seen, L, u, prev);
  }

  lemma PlaceOpenKeepsLines(st: Pass, seen: set<int>, u: int, c: UnitConnection, L: int, kind: GroupKind)
    requires LinesWellFormed(st, seen)
    requires u !in seen
    requires !Has(st.pre, L) && !kind.VillagerLine?
    requires Place(u, c, UnitLineRef(L), Open(u, L, kind, st)).Success?
    ensures LinesWellFormed(Place(u, c, UnitLineRef(L), Open(u, L, kind, st)).value, seen + {u})
  {
    var ref := UnitLineRef(L);
    var st1 := Open(u, L, kind, st);
    var st' := Place(u, c, ref, st1).value;
    var g' := NewGroup(kind, L).(line := AddUnit([], u, Predecessor(u, c).value));
    assert st1.reg.groups == st.reg.groups[ref := NewGroup(kind, L)];
    assert st' == Pass(st1.pre, st1.reg.(groups := st1.reg.groups[ref := g']));
    Overwrite(st.reg.groups, ref, NewGroup(kind, L), g');
    OpenKeepsLines(st, st', seen, L, u, kind, Predecessor(u, c).value);
  }

  lemma StepOpenKeepsLines(ds: Dataset, u: int, c: UnitConnection, st: Pass, seen: set<int>)
    requires LinesWellFormed(st, seen)
    requires u !in seen
    requires Has(ds.units, u) && Get(st.pre, c.verticalLine).None?
    requires NewLineKind(Get(ds.units, u).value, u, c.verticalLine).Some?
    requires Step(ds, u, c, st).Success?
    ensures LinesWellFormed(Step(ds, u, c, st).value, seen + {u})
  {
    var L := c.verticalLine;
    var kind := NewLineKind(Get(ds.units, u).value, u, L).value;
    HasGet(st.pre, L);
    assert Step(ds, u, c, st) == Place(u, c, UnitLineRef(L), Open(u, L, kind, st));
    PlaceOpenKeepsLines(st, seen, u, c, L, kind);
  }

  lemma StepKeepsLines(ds: Dataset, u: int, c: UnitConnection, st: Pass, seen: set<int>)
    requires LinesWellFormed(st, seen)
    requires u !in seen
    requires Step(ds, u, c, st).Success?
    ensures LinesWellFormed(Step(ds, u, c, st).value, seen + {u})
  {
    var L := c.verticalLine;
    if Get(st.pre, L).Some? {
      StepReuseKeepsLines(ds, u, c, st, seen);
    } else if NewLineKind(Get(ds.units, u).value, u, L).Some? {
      StepOpenKeepsLines(ds, u, c, st, seen);
    } else {
      assert Step(ds, u, c, st).value == st;
    }
  }

  /** The keys of a list of entries. */
  function KeySet<V>(items: seq<(int, V)>): set<int>
    decreases |items|
  {
    if |items| == 0 then {} else {items[0].0} + KeySet(items[1..])
  }

  /** The remaining keys are distinct and unseen once the first key is counted as seen. */
  lemma FreshTail<V>(items: seq<(int, V)>, seen: set<int>)
    requires |items| > 0
    requires DistinctKeys(Dict(items))
    requires forall i :: 0 <= i < |items| ==> items[i].0 !in seen
    ensures DistinctKeys(Dict(items[1..]))
    ensures forall i :: 0 <= i < |items[1..]| ==> items[1..][i].0 !in seen + {items[0].0}
    ensures seen + {items[0].0} + KeySet(items[1..]) == seen + KeySet(items)
  {
    DistinctTail(items);
    forall i | 0 <= i < |items[1..]| ensures items[1..][i].0 !in seen + {items[0].0} {
      assert items[1..][i] == items[i + 1];
    }
  }

  /** Moving the first entry still to come onto the end of the entries done. */
  lemma MoveHead<T>(done: seq<T>, items: seq<T>)
    requires |items| > 0
    ensures done + [items[0]] + items[1..] == done + items
  {
    assert items == [items[0]] + items[1..];
  }

  lemma {:induction false} FoldKeepsLines(ds: Dataset, items: seq<(int, UnitConnection)>, st: Pass, seen: set<int>)
    requires LinesWellFormed(st, seen)
    requires DistinctKeys(Dict(items))
    requires forall i :: 0 <= i < |items| ==> items[i].0 !in seen
    requires Fold(ds, items, st).Success?
    ensures LinesWellFormed(Fold(ds, items, st).value, seen + KeySet(items))
    decreases |items|
  {
    if |items| > 0 {
      var st' := Step(ds, items[0].0, items[0].1, st).value;
      var rest := items[1..];
      var seen' := seen + {items[0].0};
      assert Fold(ds, items, st) == Fold(ds, rest, st');
      StepKeepsLines(ds, items[0].0, items[0].1, st, seen);
      FreshTail(items, seen);
      FoldKeepsLines(ds, rest, st', seen');
    }
  }

  /** The head lookups of distinct lines give distinct keys, so no later entry overwrites an earlier one. */
  lemma {:induction false} IndexByHeadFrame(lines: seq<(int, GroupRef)>, reg: Registry, k: int)
    requires IndexByHead(lines, reg).Success?
    requires forall i :: 0 <= i < |lines| ==> HeadUnitId(reg.groups, lines[i].1) != Success(k)
    ensures Get(IndexByHead(lines, reg).value.unitLines, k) == Get(reg.unitLines, k)
    decreases |lines|
  {
    if |lines| > 0 {
      var head := HeadUnitId(reg.groups, lines[0].1).value;
      var reg1 := reg.(unitLines := Put(reg.unitLines, head, lines[0].1));
      assert forall i :: 0 <= i < |lines[1..]| ==> lines[1..][i] == lines[i + 1];
      IndexByHeadFrame(lines[1..], reg1, k);
    }
  }

  lemma {:induction false} IndexByHeadMaps(lines: seq<(int, GroupRef)>, reg: Registry)
    requires forall i :: 0 <= i < |lines| ==> HeadUnitId(reg.groups, lines[i].1).Success?
    requires forall i, j :: 0 <= i < j < |lines| ==> HeadUnitId(reg.groups, lines[i].1) != HeadUnitId(reg.groups, lines[j].1)
    ensures IndexByHead(lines, reg).Success?
    ensures forall i :: 0 <= i < |lines| ==>
      Get(IndexByHead(lines, reg).value.unitLines, HeadUnitId(reg.groups, lines[i].1).value) == Some(lines[i].1)
    decreases |lines|
  {
    if |lines| > 0 {
      var head := HeadUnitId(reg.groups, lines[0].1).value;
      var reg1 := reg.(unitLines := Put(reg.unitLines, head, lines[0].1));
      var rest := lines[1..];
      assert forall i :: 0 <= i < |rest| ==> rest[i] == lines[i + 1];
      assert IndexByHead(lines, reg) == IndexByHead(rest, reg1);
      IndexByHeadMaps(rest, reg1);
      IndexByHeadFrame(rest, reg1, head);
      var m := IndexByHead(rest, reg1).value.unitLines;
      forall i | 0 <= i < |lines| ensures Get(m, HeadUnitId(reg.groups, lines[i].1).value) == Some(lines[i].1) {
        if i > 0 {
          assert lines[i] == rest[i - 1];
        }
      }
    }
  }

  /** Indexing a well-formed pass by head publishes every line under its own head. */
  lemma PassIndexed(st: Pass, seen: set<int>)
    requires LinesWellFormed(st, seen)
    ensures IndexByHead(st.pre.items, st.reg).Success?
    ensures forall L :: Has(st.pre, L) ==>
      Get(IndexByHead(st.pre.items, st.reg).value.unitLines, LineOf(st, L)[0]) == Some(UnitLineRef(L))
  {
    var lines := st.pre.items;
    forall i | 0 <= i < |lines| ensures HeadUnitId(st.reg.groups, lines[i].1) == Success(LineOf(st, lines[i].0)[0]) {
      GetAt(st.pre, i);
    }
    forall i, j | 0 <= i < j < |lines| ensures HeadUnitId(st.reg.groups, lines[i].1) != HeadUnitId(st.reg.groups, lines[j].1) {
      GetAt(st.pre, i);
      GetAt(st.pre, j);
      assert InLine(st, lines[i].0, LineOf(st, lines[i].0)[0]);
      assert InLine(st, lines[j].0, LineOf(st, lines[j].0)[0]);
    }
    IndexByHeadMaps(lines, st.reg);
    forall L | Has(st.pre, L)
      ensures Get(IndexByHead(lines, st.reg).value.unitLines, LineOf(st, L)[0]) == Some(UnitLineRef(L))
    {
      var i := Find(st.pre, L).value;
      GetAt(st.pre, i);
    }
  }

  /**
   * Every line in `unit_lines_vertical_ref` is published under its own line
   * id, is non-empty, and is the same object `unit_lines` holds under its head.
   */
  ghost predicate LinesPublished(r: Registry) {
    forall L :: Has(r.unitLinesVerticalRef, L) ==>
      && Get(r.unitLinesVerticalRef, L) == Some(UnitLineRef(L))
      && |Deref(r.groups, UnitLineRef(L)).line| > 0
      && Get(r.unitLines, Deref(r.groups, UnitLineRef(L)).line[0]) == Some(UnitLineRef(L))
  }

  lemma PublishPass(st: Pass, seen: set<int>, vertical: Dict<GroupRef>, r: Registry)
    requires LinesWellFormed(st, seen)
    requires IndexByHead(st.pre.items, st.reg).Success?
    requires vertical == PutAll(Empty(), st.pre.items)
    requires r == IndexByHead(st.pre.items, st.reg).value.(unitLinesVerticalRef := vertical)
    ensures LinesPublished(r)
  {
    PassIndexed(st, seen);
    forall L | Has(r.unitLinesVerticalRef, L)
      ensures Get(r.unitLinesVerticalRef, L) == Some(UnitLineRef(L))
      ensures |Deref(r.groups, UnitLineRef(L)).line| > 0
      ensures Get(r.unitLines, Deref(r.groups, UnitLineRef(L)).line[0]) == Some(UnitLineRef(L))
    {
      assert Get(vertical, L).Some?;
      assert Has(st.pre, L);
      PreValue(st, seen, L);
    }
  }

  // ----- where each unit ends up -----

  /** A unit the pass itself must place: it exists and its line would not be left to the villager builder. */
  predicate Opens(ds: Dataset, u: int, L: int) {
    Has(ds.units, u) && NewLineKind(Get(ds.units, u).value, u, L).Some?
  }

  /** `u` is a member of line `L`, `L` is a line of the pass, and `unit_ref` points there. */
  predicate Placed(st: Pass, u: int, L: int) {
    Has(st.pre, L) && InLine(st, L, u) && Get(st.reg.unitRef, u) == Some(UnitLineRef(L))
  }

  /**
   * When the pass reaches `done[i]`, its line already exists or the unit opens
   * it: some connection up to `i` on the same line opens it. Exactly these
   * units are placed; the others are villagers left to the villager builder.
   */
  ghost predicate OpenedBy(ds: Dataset, done: seq<(int, UnitConnection)>, i: int) {
    exists j :: 0 <= j <= i < |done| && done[j].1.verticalLine == done[i].1.verticalLine
      && Opens(ds, done[j].0, done[j].1.verticalLine)
  }

  /** Every processed connection whose line was open, or opened by it, has been placed in that line. */
  ghost predicate AllPlaced(ds: Dataset, st: Pass, done: seq<(int, UnitConnection)>) {
    forall i :: 0 <= i < |done| && OpenedBy(ds, done, i) ==> Placed(st, done[i].0, done[i].1.verticalLine)
  }

  /** Every member of a line is a processed unit of that line that was placed. */
  ghost predicate MembersOpened(ds: Dataset, st: Pass, done: seq<(int, UnitConnection)>) {
    forall L, x :: Has(st.pre, L) && InLine(st, L, x) ==>
      exists i :: 0 <= i < |done| && done[i].0 == x && done[i].1.verticalLine == L && OpenedBy(ds, done, i)
  }

  /** What one step does to membership: the only new member is `u`, in line `L`. */
  ghost predicate OnlyJoins(st: Pass, st': Pass, u: int, L: int) {
    forall L2, x :: Has(st'.pre, L2) && InLine(st', L2, x) ==> (Has(st.pre, L2) && InLine(st, L2, x)) || (x == u && L2 == L)
  }

  /** Appending an entry does not change which earlier entries opened their lines. */
  lemma OpenedByPrefix(ds: Dataset, done: seq<(int, UnitConnection)>, e: (int, UnitConnection), i: int)
    requires 0 <= i < |done|
    ensures OpenedBy(ds, done + [e], i) <==> OpenedBy(ds, done, i)
  {
    var done' := done + [e];
    if OpenedBy(ds, done', i) {
      var j :| 0 <= j <= i < |done'| && done'[j].1.verticalLine == done'[i].1.verticalLine
        && Opens(ds, done'[j].0, done'[j].1.verticalLine);
      assert done'[j] == done[j] && done'[i] == done[i];
    }
    if OpenedBy(ds, done, i) {
      var j :| 0 <= j <= i < |done| && done[j].1.verticalLine == done[i].1.verticalLine
        && Opens(ds, done[j].0, done[j].1.verticalLine);
      assert done'[j] == done[j] && done'[i] == done[i];
    }
  }

  /** A line `L` already open before the step is open for the new entry, through its first member. */
  lemma OpenLineOpened(ds: Dataset, st: Pass, seen: set<int>, done: seq<(int, UnitConnection)>, e: (int, UnitConnection))
    requires LinesWellFormed(st, seen)
    requires MembersOpened(ds, st, done)
    requires Has(st.pre, e.1.verticalLine)
    ensures OpenedBy(ds, done + [e], |done|)
  {
    var L := e.1.verticalLine;
    var done' := done + [e];
    var y := LineOf(st, L)[0];
    assert InLine(st, L, y);
    var i :| 0 <= i < |done| && done[i].0 == y && done[i].1.verticalLine == L && OpenedBy(ds, done, i);
    var j :| 0 <= j <= i < |done| && done[j].1.verticalLine == done[i].1.verticalLine
      && Opens(ds, done[j].0, done[j].1.verticalLine);
    assert done'[j] == done[j] && done'[|done|] == e;
  }

  /** Lines that only gained `u` in line `L`. */
  lemma JoinsBy(st: Pass, st': Pass, u: int, L: int)
    requires forall L2 :: Has(st'.pre, L2) ==> Has(st.pre, L2) || L2 == L
    requires forall L2 :: L2 != L ==> LineOf(st', L2) == LineOf(st, L2)
    requires forall x :: InLine(st', L, x) ==> x == u || (Has(st.pre, L) && InLine(st, L, x))
    ensures OnlyJoins(st, st', u, L)
  {
    forall L2, x | Has(st'.pre, L2) && InLine(st', L2, x) ensures (Has(st.pre, L2) && InLine(st, L2, x)) || (x == u && L2 == L) {
      if L2 != L {
        assert LineOf(st', L2) == LineOf(st, L2);
      }
    }
  }

  /** What one step does to membership: lines only grow, only `u`'s `unit_ref` moves. */
  ghost predicate Grows(st: Pass, st': Pass, u: int) {
    && (forall L, x :: Has(st.pre, L) && InLine(st, L, x) ==> Has(st'.pre, L) && InLine(st', L, x))
    && (forall x :: x != u ==> Get(st'.reg.unitRef, x) == Get(st.reg.unitRef, x))
  }

  lemma StepReuseGrows(ds: Dataset, u: int, c: UnitConnection, st: Pass, seen: set<int>)
    requires LinesWellFormed(st, seen)
    requires Has(ds.units, u) && Get(st.pre, c.verticalLine).Some?
    requires Step(ds, u, c, st).Success?
    ensures Grows(st, Step(ds, u, c, st).value, u)
    ensures OnlyJoins(st, Step(ds, u, c, st).value, u, c.verticalLine)
    ensures Placed(Step(ds, u, c, st).value, u, c.verticalLine)
  {
    var L := c.verticalLine;
    var ref := UnitLineRef(L);
    HasGet(st.pre, L);
    PreValue(st, seen, L);
    var st1 := st.(reg := st.reg.(unitRef := Put(st.reg.unitRef, u, ref)));
    assert Step(ds, u, c, st) == Place(u, c, ref, st1);
    PlaceReuseGrows(st, u, c, L);
    HasGet(st.pre, L);
  }

  lemma PlaceReuseGrows(st: Pass, u: int, c: UnitConnection, L: int)
    requires Has(st.pre, L)
    requires Place(u, c, UnitLineRef(L), st.(reg := st.reg.(unitRef := Put(st.reg.unitRef, u, UnitLineRef(L))))).Success?
    ensures var st' := Place(u, c, UnitLineRef(L), st.(reg := st.reg.(unitRef := Put(st.reg.unitRef, u, UnitLineRef(L))))).value;
      Grows(st, st', u) && InLine(st', L, u) && st'.pre == st.pre && Get(st'.reg.unitRef, u) == Some(UnitLineRef(L))
    ensures OnlyJoins(st, Place(u, c, UnitLineRef(L), st.(reg := st.reg.(unitRef := Put(st.reg.unitRef, u, UnitLineRef(L))))).value, u, L)
  {
    var ref := UnitLineRef(L);
    var st' := Place(u, c, ref, st.(reg := st.reg.(unitRef := Put(st.reg.unitRef, u, ref)))).value;
    forall L2 | L2 != L ensures LineOf(st', L2) == LineOf(st, L2) {
      assert UnitLineRef(L2) != ref;
    }
    GrowsBy(st, st', u, L);
    JoinsBy(st, st', u, L);
  }

  /** Lines of `st` keep their members in `st'` and only `u`'s `unit_ref` moves, when only line `L` changed. */
  lemma GrowsBy(st: Pass, st': Pass, u: int, L: int)
    requires forall L2 :: Has(st.pre, L2) ==> Has(st'.pre, L2)
    requires forall L2 :: L2 != L ==> LineOf(st', L2) == LineOf(st, L2)
    requires Has(st.pre, L) ==> forall x :: InLine(st, L, x) ==> InLine(st', L, x)
    requires forall x :: x != u ==> Get(st'.reg.unitRef, x) == Get(st.reg.unitRef, x)
    ensures Grows(st, st', u)
  {
    forall L2, x | Has(st.pre, L2) && InLine(st, L2, x) ensures InLine(st', L2, x) {
      if L2 != L {
        assert LineOf(st', L2) == LineOf(st, L2);
      }
    }
  }

  lemma PlaceOpenGrows(st: Pass, u: int, c: UnitConnection, L: int, kind: GroupKind)
    requires !Has(st.pre, L)
    requires Place(u, c, UnitLineRef(L), Open(u, L, kind, st)).Success?
    ensures Grows(st, Place(u, c, UnitLineRef(L), Open(u, L, kind, st)).value, u)
    ensures OnlyJoins(st, Place(u, c, UnitLineRef(L), Open(u, L, kind, st)).value, u, L)
  {
    var ref := UnitLineRef(L);
    var st1 := Open(u, L, kind, st);
    var st' := Place(u, c, ref, st1).value;
    forall L2 ensures Has(st.pre, L2) || L2 == L <==> Has(st'.pre, L2) {
      HasGet(st.pre, L2);
      HasGet(st'.pre, L2);
    }
    forall L2 | L2 != L ensures LineOf(st', L2) == LineOf(st, L2) {
      assert UnitLineRef(L2) != ref;
    }
    GrowsBy(st, st', u, L);
    JoinsBy(st, st', u, L);
  }

  lemma StepOpenGrows(ds: Dataset, u: int, c: UnitConnection, st: Pass)
    requires Opens(ds, u, c.verticalLine) && Get(st.pre, c.verticalLine).None?
    requires Step(ds, u, c, st).Success?
    ensures Grows(st, Step(ds, u, c, st).value, u)
    ensures OnlyJoins(st, Step(ds, u, c, st).value, u, c.verticalLine)
    ensures Placed(Step(ds, u, c, st).value, u, c.verticalLine)
  {
    var L := c.verticalLine;
    var kind := NewLineKind(Get(ds.units, u).value, u, L).value;
    HasGet(st.pre, L);
    assert Step(ds, u, c, st) == Place(u, c, UnitLineRef(L), Open(u, L, kind, st));
    PlaceOpenGrows(st, u, c, L, kind);
    HasGet(Step(ds, u, c, st).value.pre, L);
  }

  lemma StepGrows(ds: Dataset, u: int, c: UnitConnection, st: Pass, seen: set<int>)
    requires LinesWellFormed(st, seen)
    requires Step(ds, u, c, st).Success?
    ensures Grows(st, Step(ds, u, c, st).value, u)
    ensures OnlyJoins(st, Step(ds, u, c, st).value, u, c.verticalLine)
    ensures Opens(ds, u, c.verticalLine) || Has(st.pre, c.verticalLine) ==> Placed(Step(ds, u, c, st).value, u, c.verticalLine)
    ensures !Opens(ds, u, c.verticalLine) && !Has(st.pre, c.verticalLine) ==> Step(ds, u, c, st).value == st
  {
    HasGet(st.pre, c.verticalLine);
    if Get(st.pre, c.verticalLine).Some? {
      StepReuseGrows(ds, u, c, st, seen);
    } else if Opens(ds, u, c.verticalLine) {
      StepOpenGrows(ds, u, c, st);
    } else {
      assert Step(ds, u, c, st).value == st;
    }
  }

  /** Placements already made survive a step for a different unit. */
  lemma PlacedSurvives(ds: Dataset, st: Pass, st': Pass, u: int, done: seq<(int, UnitConnection)>)
    requires AllPlaced(ds, st, done)
    requires Grows(st, st', u)
    requires forall i :: 0 <= i < |done| ==> done[i].0 != u
    ensures AllPlaced(ds, st', done)
  {
    forall i | 0 <= i < |done| && OpenedBy(ds, done, i)
      ensures Placed(st', done[i].0, done[i].1.verticalLine)
    {
      assert Placed(st, done[i].0, done[i].1.verticalLine);
    }
  }

  /** One step keeps the lines well formed and extends the placements by its own connection. */
  lemma StepPlaces(ds: Dataset, u: int, c: UnitConnection, st: Pass, seen: set<int>, done: seq<(int, UnitConnection)>)
    requires LinesWellFormed(st, seen)
    requires AllPlaced(ds, st, done) && MembersOpened(ds, st, done)
    requires forall i :: 0 <= i < |done| ==> done[i].0 in seen
    requires u !in seen
    requires Step(ds, u, c, st).Success?
    ensures LinesWellFormed(Step(ds, u, c, st).value, seen + {u})
    ensures AllPlaced(ds, Step(ds, u, c, st).value, done + [(u, c)])
    ensures MembersOpened(ds, Step(ds, u, c, st).value, done + [(u, c)])
    ensures forall i :: 0 <= i < |done + [(u, c)]| ==> (done + [(u, c)])[i].0 in seen + {u}
  {
    StepKeepsLines(ds, u, c, st, seen);
    StepGrows(ds, u, c, st, seen);
    if Has(st.pre, c.verticalLine) {
      OpenLineOpened(ds, st, seen, done, (u, c));
    }
    PlacedExtend(ds, st, Step(ds, u, c, st).value, u, c, seen, done);
    MembersExtend(ds, st, Step(ds, u, c, st).value, u, c, seen, done);
  }

  lemma PlacedExtend(ds: Dataset, st: Pass, st': Pass, u: int, c: UnitConnection, seen: set<int>, done: seq<(int, UnitConnection)>)
    requires AllPlaced(ds, st, done)
    requires Grows(st, st', u)
    requires forall i :: 0 <= i < |done| ==> done[i].0 in seen
    requires u !in seen
    requires Opens(ds, u, c.verticalLine) || Has(st.pre, c.verticalLine) ==> Placed(st', u, c.verticalLine)
    ensures AllPlaced(ds, st', done + [(u, c)])
    ensures forall i :: 0 <= i < |done + [(u, c)]| ==> (done + [(u, c)])[i].0 in seen + {u}
  {
    var done' := done + [(u, c)];
    PlacedSurvives(ds, st, st', u, done);
    forall i | 0 <= i < |done'| && OpenedBy(ds, done', i)
      ensures Placed(st', done'[i].0, done'[i].1.verticalLine)
    {
      if i < |done| {
        OpenedByPrefix(ds, done, (u, c), i);
        assert done'[i] == done[i];
      } else {
        NewEntryOpen(ds, st, done, (u, c));
      }
    }
  }

  /** An entry whose line is opened by it or by an earlier entry finds the line open or opens it itself. */
  lemma NewEntryOpen(ds: Dataset, st: Pass, done: seq<(int, UnitConnection)>, e: (int, UnitConnection))
    requires AllPlaced(ds, st, done)
    requires OpenedBy(ds, done + [e], |done|)
    ensures Opens(ds, e.0, e.1.verticalLine) || Has(st.pre, e.1.verticalLine)
  {
    var done' := done + [e];
    var j :| 0 <= j <= |done| < |done'| && done'[j].1.verticalLine == done'[|done|].1.verticalLine
      && Opens(ds, done'[j].0, done'[j].1.verticalLine);
    assert done'[|done|] == e;
    if j < |done| {
      assert done'[j] == done[j];
      assert OpenedBy(ds, done, j);
      assert Placed(st, done[j].0, done[j].1.verticalLine);
    }
  }

  /** After a step, every line member is still a placed, processed unit of that line. */
  lemma MembersExtend(ds: Dataset, st: Pass, st': Pass, u: int, c: UnitConnection, seen: set<int>, done: seq<(int, UnitConnection)>)
    requires MembersOpened(ds, st, done)
    requires OnlyJoins(st, st', u, c.verticalLine)
    requires Opens(ds, u, c.verticalLine) || Has(st.pre, c.verticalLine) || st' == st
    requires Has(st.pre, c.verticalLine) ==> OpenedBy(ds, done + [(u, c)], |done|)
    ensures MembersOpened(ds, st', done + [(u, c)])
  {
    var done' := done + [(u, c)];
    forall L, x | Has(st'.pre, L) && InLine(st', L, x)
      ensures exists i :: 0 <= i < |done'| && done'[i].0 == x && done'[i].1.verticalLine == L && OpenedBy(ds, done', i)
    {
      if Has(st.pre, L) && InLine(st, L, x) {
        var i :| 0 <= i < |done| && done[i].0 == x && done[i].1.verticalLine == L && OpenedBy(ds, done, i);
        OpenedByPrefix(ds, done, (u, c), i);
        assert done'[i] == done[i];
      } else {
        var n := |done|;
        assert done'[n] == (u, c);
        if !Has(st.pre, c.verticalLine) {
          assert OpenedBy(ds, done', n);
        }
      }
    }
  }

  lemma {:induction false} FoldPlaces(ds: Dataset, items: seq<(int, UnitConnection)>, st: Pass, seen: set<int>,
                                      done: seq<(int, UnitConnection)>)
    requires LinesWellFormed(st, seen)
    requires AllPlaced(ds, st, done) && MembersOpened(ds, st, done)
    requires forall i :: 0 <= i < |done| ==> done[i].0 in seen
    requires DistinctKeys(Dict(items))
    requires forall i :: 0 <= i < |items| ==> items[i].0 !in seen
    requires Fold(ds, items, st).Success?
    ensures AllPlaced(ds, Fold(ds, items, st).value, done + items)
    ensures MembersOpened(ds, Fold(ds, items, st).value, done + items)
    decreases |items|
  {
    if |items| == 0 {
      assert done + items == done;
    } else {
      var u, c := items[0].0, items[0].1;
      var st' := Step(ds, u, c, st).value;
      var rest := items[1..];
      var done' := done + [(u, c)];
      assert Fold(ds, items, st) == Fold(ds, rest, st');
      StepPlaces(ds, u, c, st, seen, done);
      FreshTail(items, seen);
      FoldPlaces(ds, rest, st', seen + {u}, done');
      MoveHead(done, items);
    }
  }

  /**
   * A published line holding `u`: it sits in `unit_lines_vertical_ref` under
   * `L`, `unit_ref` points to it, and no other published line holds `u`.
   */
  ghost predicate PublishedIn(r: Registry, u: int, L: int) {
    && Get(r.unitLinesVerticalRef, L) == Some(UnitLineRef(L))
    && u in Deref(r.groups, UnitLineRef(L)).line
    && Get(r.unitRef, u) == Some(UnitLineRef(L))
    && (forall L2 :: Has(r.unitLinesVerticalRef, L2) && u in Deref(r.groups, UnitLineRef(L2)).line ==> L2 == L)
  }

  lemma PublishPlaced(st: Pass, seen: set<int>, r: Registry, u: int, L: int)
    requires LinesWellFormed(st, seen)
    requires Placed(st, u, L)
    requires r.groups == st.reg.groups && r.unitRef == st.reg.unitRef
    requires r.unitLinesVerticalRef == PutAll(Empty(), st.pre.items)
    ensures PublishedIn(r, u, L)
  {
    PreValue(st, seen, L);
    forall L2 | Has(r.unitLinesVerticalRef, L2) && u in Deref(r.groups, UnitLineRef(L2)).line ensures L2 == L {
      assert Has(st.pre, L2);
      assert InLine(st, L2, u);
    }
  }

  /** The placements and memberships of the loop, read off the published registry. */
  lemma PublishMembers(ds: Dataset, items: seq<(int, UnitConnection)>, st: Pass, seen: set<int>, r: Registry)
    requires LinesWellFormed(st, seen)
    requires AllPlaced(ds, st, items) && MembersOpened(ds, st, items)
    requires r.groups == st.reg.groups && r.unitRef == st.reg.unitRef
    requires r.unitLinesVerticalRef == PutAll(Empty(), st.pre.items)
    ensures forall i :: 0 <= i < |items| && OpenedBy(ds, items, i) ==> PublishedIn(r, items[i].0, items[i].1.verticalLine)
    ensures forall L, x :: Has(r.unitLinesVerticalRef, L) && x in Deref(r.groups, UnitLineRef(L)).line ==>
      exists i :: 0 <= i < |items| && items[i].0 == x && items[i].1.verticalLine == L && OpenedBy(ds, items, i)
  {
    forall i | 0 <= i < |items| && OpenedBy(ds, items, i) ensures PublishedIn(r, items[i].0, items[i].1.verticalLine) {
      PublishPlaced(st, seen, r, items[i].0, items[i].1.verticalLine);
    }
    forall L, x | Has(r.unitLinesVerticalRef, L) && x in Deref(r.groups, UnitLineRef(L)).line
      ensures exists i :: 0 <= i < |items| && items[i].0 == x && items[i].1.verticalLine == L && OpenedBy(ds, items, i)
    {
      assert Get(r.unitLinesVerticalRef, L).Some?;
      assert Has(st.pre, L) && InLine(st, L, x);
    }
  }

  /**
   * After the pass, every line it created is published under its line id in
   * `unit_lines_vertical_ref` and under its head unit id in `unit_lines`, and
   * both entries are the same object.
   */
  lemma UnitLinesIndexed(ds: Dataset, reg: Registry)
    requires DistinctKeys(ds.unitConnections)
    requires reg.unitLinesVerticalRef == Empty()
    requires CreateUnitLines(ds, reg).Success?
    ensures LinesPublished(CreateUnitLines(ds, reg).value)
    ensures var items := ds.unitConnections.items;
      forall i :: 0 <= i < |items| && OpenedBy(ds, items, i) ==>
        PublishedIn(CreateUnitLines(ds, reg).value, items[i].0, items[i].1.verticalLine)
    ensures var items := ds.unitConnections.items; var r := CreateUnitLines(ds, reg).value;
      forall L, x :: Has(r.unitLinesVerticalRef, L) && x in Deref(r.groups, UnitLineRef(L)).line ==>
        exists i :: 0 <= i < |items| && items[i].0 == x && items[i].1.verticalLine == L && OpenedBy(ds, items, i)
    ensures var r := CreateUnitLines(ds, reg).value;
      forall L, x :: Has(r.unitLinesVerticalRef, L) && x in Deref(r.groups, UnitLineRef(L)).line ==>
        x in KeySet(ds.unitConnections.items)
  {
    var items := ds.unitConnections.items;
    var st := Fold(ds, items, Pass(Empty(), reg)).value;
    var reg' := IndexByHead(st.pre.items, st.reg).value;
    var r := reg'.(unitLinesVerticalRef := PutAll(reg'.unitLinesVerticalRef, st.pre.items));
    assert CreateUnitLines(ds, reg).value == r;
    PassPublishesLines(ds, reg, st, r);
    PassPlacesUnits(ds, reg, st, r);
  }

  lemma PassPublishesLines(ds: Dataset, reg: Registry, st: Pass, r: Registry)
    requires DistinctKeys(ds.unitConnections)
    requires Fold(ds, ds.unitConnections.items, Pass(Empty(), reg)) == Success(st)
    requires IndexByHead(st.pre.items, st.reg).Success?
    requires r == IndexByHead(st.pre.items, st.reg).value.(unitLinesVerticalRef := PutAll(Empty(), st.pre.items))
    ensures LinesPublished(r)
    ensures forall L, x :: Has(r.unitLinesVerticalRef, L) && x in Deref(r.groups, UnitLineRef(L)).line ==>
      x in KeySet(ds.unitConnections.items)
  {
    var items := ds.unitConnections.items;
    StartWellFormed(reg);
    FoldKeepsLines(ds, items, Pass(Empty(), reg), {});
    var seen := {} + KeySet(items);
    assert seen == KeySet(items);
    PublishPass(st, seen, r.unitLinesVerticalRef, r);
    forall L, x | Has(r.unitLinesVerticalRef, L) && x in Deref(r.groups, UnitLineRef(L)).line ensures x in seen {
      assert Get(r.unitLinesVerticalRef, L).Some?;
      assert Has(st.pre, L) && InLine(st, L, x);
    }
  }

  lemma PassPlacesUnits(ds: Dataset, reg: Registry, st: Pass, r: Registry)
    requires DistinctKeys(ds.unitConnections)
    requires Fold(ds, ds.unitConnections.items, Pass(Empty(), reg)) == Success(st)
    requires r.groups == st.reg.groups && r.unitRef == st.reg.unitRef
    requires r.unitLinesVerticalRef == PutAll(Empty(), st.pre.items)
    ensures var items := ds.unitConnections.items;
      forall i :: 0 <= i < |items| && OpenedBy(ds, items, i) ==> PublishedIn(r, items[i].0, items[i].1.verticalLine)
    ensures var items := ds.unitConnections.items;
      forall L, x :: Has(r.unitLinesVerticalRef, L) && x in Deref(r.groups, UnitLineRef(L)).line ==>
        exists i :: 0 <= i < |items| && items[i].0 == x && items[i].1.verticalLine == L && OpenedBy(ds, items, i)
  {
    var items := ds.unitConnections.items;
    var st0 := Pass(Empty(), reg);
    StartWellFormed(reg);
    StartPlaced(ds, st0);
    FoldKeepsLines(ds, items, st0, {});
    FoldPlaces(ds, items, st0, {}, []);
    assert [] + items == items;
    PublishMembers(ds, items, st, {} + KeySet(items), r);
  }


  lemma StartPlaced(ds: Dataset, st: Pass)
    requires st.pre == Empty()
    ensures AllPlaced(ds, st, []) && MembersOpened(ds, st, [])
  {
    forall L ensures !Has(st.pre, L) {
    }
  }

  lemma StartWellFormed(reg: Registry)
    ensures LinesWellFormed(Pass(Empty(), reg), {})
  {
    var st := Pass(Empty(), reg);
    forall L ensures !Has(st.pre, L) {
    }
  }
}
