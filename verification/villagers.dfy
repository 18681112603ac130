/**
 * `_create_villager_groups` (processor.py:844-894): units with a non-zero task
 * group are collected into one task group per id, and all task groups into
 * the villager group 118.
 */
module Villagers {
  import opened Wrappers
  import opened Dicts
  import opened Records
  import opened Groups
  import opened Registry

  const VillagerGroupId := 118
  const MaleTaskGroup := 1
  const FemaleTaskGroup := 2

  /** `task_group`, or 0 for a unit without the member. */
  function TaskGroupOf(u: Unit): int {
    if u.taskGroup.Some? then u.taskGroup.value else 0
  }

  /**
   * The loop's local state: the task group ids in order of first appearance
   * (the source's `task_group_ids` set), the unit ids collected, and the
   * current binding of the local `line_id`, which the source never resets.
   */
  datatype VPass = VPass(taskIds: seq<int>, unitIds: seq<int>, lineId: Option<int>, reg: Registry)

  /**
   * The line id a new task group gets: the male or female line id for task
   * groups 1 and 2; for any other id the value `line_id` still holds from an
   * earlier iteration, and an unbound-variable failure when it holds none.
   */
  function NewTaskLineId(t: Tables, taskGroupId: int, lineId: Option<int>): (r: Result<int, Error>)
    ensures taskGroupId == MaleTaskGroup ==> r == Success(t.maleLineId)
    ensures taskGroupId == FemaleTaskGroup ==> r == Success(t.femaleLineId)
    ensures taskGroupId != MaleTaskGroup && taskGroupId != FemaleTaskGroup ==>
      (r.Failure? <==> lineId.None?) && (r.Failure? ==> r.error == UnboundLineId(taskGroupId))
      && (r.Success? ==> r.value == lineId.value)
  {
    if taskGroupId == MaleTaskGroup then Success(t.maleLineId)
    else if taskGroupId == FemaleTaskGroup then Success(t.femaleLineId)
    else match lineId
      case None => Failure(UnboundLineId(taskGroupId))
      case Some(l) => Success(l)
  }

  function Step(t: Tables, unitId: int, u: Unit, st: VPass): (r: Result<VPass, Error>)
    ensures TaskGroupOf(u) == 0 ==> r == Success(st)
    ensures r.Success? ==> r.value.reg == st.reg.(groups := r.value.reg.groups, taskGroups := r.value.reg.taskGroups)
    ensures TaskGroupOf(u) != 0 && TaskGroupOf(u) !in st.taskIds ==>
      (r.Success? <==> NewTaskLineId(t, TaskGroupOf(u), st.lineId).Success?)
    ensures r.Success? && TaskGroupOf(u) != 0 ==>
      var tg := TaskGroupOf(u);
      && r.value.taskIds == (if tg in st.taskIds then st.taskIds else st.taskIds + [tg])
      && r.value.unitIds == st.unitIds + [unitId]
      && Has(r.value.reg.taskGroups, tg)
      && var ref := Get(r.value.reg.taskGroups, tg).value;
      && unitId in Deref(r.value.reg.groups, ref).line
      && (tg in st.taskIds ==> Get(st.reg.taskGroups, tg) == Some(ref))
      && (tg in st.taskIds ==> forall x :: x in Deref(st.reg.groups, ref).line ==> x in Deref(r.value.reg.groups, ref).line)
      && (tg !in st.taskIds ==>
            && ref == TaskGroupRef(tg)
            && Deref(r.value.reg.groups, ref) == NewGroup(TaskLine(tg), NewTaskLineId(t, tg, st.lineId).value).(line := [unitId]))
      && (forall g :: g != ref ==> Deref(r.value.reg.groups, g) == Deref(st.reg.groups, g))
      && (forall k :: k != tg ==> Get(r.value.reg.taskGroups, k) == Get(st.reg.taskGroups, k))
      && r.value.reg == st.reg.(groups := r.value.reg.groups, taskGroups := r.value.reg.taskGroups)
    ensures r.Success? && st.lineId.Some? ==> r.value.lineId.Some?
  {
    var tg := TaskGroupOf(u);
    if tg == 0 then Success(st)
    else if tg in st.taskIds then
      var ref :- Lookup(st.reg.taskGroups, tg, TaskGroupsTable);
      var g := Deref(st.reg.groups, ref);
      Success(st.(unitIds := st.unitIds + [unitId],
                  reg := st.reg.(groups := st.reg.groups[ref := g.(line := AddUnit(g.line, unitId, None))])))
    else
      var lineId :- NewTaskLineId(t, tg, st.lineId);
      var ref := TaskGroupRef(tg);
      var g := NewGroup(TaskLine(tg), lineId);
      Success(VPass(st.taskIds + [tg], st.unitIds + [unitId], Some(lineId),
                    st.reg.(groups := st.reg.groups[ref := g.(line := AddUnit(g.line, unitId, None))],
                            taskGroups := Put(st.reg.taskGroups, tg, ref))))
  }

  function Fold(t: Tables, items: seq<(int, Unit)>, st: VPass): (r: Result<VPass, Error>)
    ensures r.Success? ==> r.value.reg == st.reg.(groups := r.value.reg.groups, taskGroups := r.value.reg.taskGroups)
    decreases |items|
  {
    if |items| == 0 then Success(st)
    else
      var st' :- Step(t, items[0].0, items[0].1, st);
      Fold(t, items[1..], st')
  }

  function TaskRefs(taskIds: seq<int>): (refs: seq<GroupRef>)
    ensures |refs| == |taskIds|
    ensures forall i :: 0 <= i < |refs| ==> refs[i] == TaskGroupRef(taskIds[i])
  {
    seq(|taskIds|, i requires 0 <= i < |taskIds| => TaskGroupRef(taskIds[i]))
  }

  /**
   * `_create_villager_groups`: it raises exactly when the first unit with a
   * task group has one other than 1 or 2, and otherwise writes only groups,
   * `task_groups`, `unit_lines`, `villager_groups` and `unit_ref`.
   */
  function CreateVillagerGroups(t: Tables, ds: Dataset, reg: Registry): (r: Result<Registry, Error>)
    ensures var f := FirstTaskGroup(ds.units.items);
      r.Failure? <==> f.Some? && f.value != MaleTaskGroup && f.value != FemaleTaskGroup
    ensures r.Failure? ==> r.error == UnboundLineId(FirstTaskGroup(ds.units.items).value)
    ensures r.Success? ==> r.value == reg.(groups := r.value.groups, taskGroups := r.value.taskGroups,
      unitLines := r.value.unitLines, villagerGroups := r.value.villagerGroups, unitRef := r.value.unitRef)
  {
    FoldFailsIff(t, ds.units.items, reg);
    var st :- Fold(t, ds.units.items, VPass([], [], None, reg));
    Success(VillagerGroup(st))
  }

  /** Group 118 with the task groups as variants, published and mapped from every collected unit. */
  function VillagerGroup(st: VPass): Registry {
    var ref := VillagerRef(VillagerGroupId);
    var villager := NewGroup(VillagerLine(TaskRefs(st.taskIds)), VillagerGroupId);
    st.reg.(groups := st.reg.groups[ref := villager],
            unitLines := Put(st.reg.unitLines, VillagerGroupId, ref),
            villagerGroups := Put(st.reg.villagerGroups, VillagerGroupId, ref),
            unitRef := PutAll(st.reg.unitRef, MapAll(st.unitIds, ref)))
  }

  // ----- when the pass fails -----

  /** The task group of the first unit (in dict order) that has a non-zero one. */
  function FirstTaskGroup(items: seq<(int, Unit)>): (r: Option<int>)
    ensures r.None? <==> forall i :: 0 <= i < |items| ==> TaskGroupOf(items[i].1) == 0
    ensures r.Some? ==> exists i :: 0 <= i < |items| && TaskGroupOf(items[i].1) == r.value != 0
                                    && (forall j :: 0 <= j < i ==> TaskGroupOf(items[j].1) == 0)
    decreases |items|
  {
    if |items| == 0 then None
    else
      var rest := FirstTaskGroup(items[1..]);
      assert forall i :: 0 < i < |items| ==> items[i] == items[1..][i - 1];
      if TaskGroupOf(items[0].1) != 0 then Some(TaskGroupOf(items[0].1))
      else
        assert rest.Some? ==> exists i :: 1 <= i < |items| && TaskGroupOf(items[i].1) == rest.value != 0
                                             && (forall j :: 0 <= j < i ==> TaskGroupOf(items[j].1) == 0);
        rest
  }

  /** Every task group seen so far is published, and once one is, `line_id` is bound. */
  ghost predicate Bound(st: VPass) {
    && (forall i :: 0 <= i < |st.taskIds| ==> Has(st.reg.taskGroups, st.taskIds[i]))
    && (|st.taskIds| > 0 ==> st.lineId.Some?)
  }

  lemma StepKeepsBound(t: Tables, unitId: int, u: Unit, st: VPass)
    requires Bound(st)
    requires Step(t, unitId, u, st).Success?
    ensures Bound(Step(t, unitId, u, st).value)
  {
    var r := Step(t, unitId, u, st).value;
    var tg := TaskGroupOf(u);
    if tg != 0 {
      assert r.lineId.Some?;
      forall i | 0 <= i < |r.taskIds| ensures Has(r.reg.taskGroups, r.taskIds[i]) {
        if r.taskIds[i] != tg {
          assert i < |st.taskIds| && r.taskIds[i] == st.taskIds[i];
          assert Get(r.reg.taskGroups, r.taskIds[i]) == Get(st.reg.taskGroups, r.taskIds[i]);
          HasGet(r.reg.taskGroups, r.taskIds[i]);
          HasGet(st.reg.taskGroups, r.taskIds[i]);
        }
      }
    }
  }

  /** Once `line_id` is bound no unit can make the loop fail. */
  lemma {:induction false} BoundNeverFails(t: Tables, items: seq<(int, Unit)>, st: VPass)
    requires Bound(st)
    requires st.lineId.Some?
    ensures Fold(t, items, st).Success?
    decreases |items|
  {
    if |items| > 0 {
      var tg := TaskGroupOf(items[0].1);
      if tg != 0 && tg in st.taskIds {
        var i :| 0 <= i < |st.taskIds| && st.taskIds[i] == tg;
      }
      assert Step(t, items[0].0, items[0].1, st).Success?;
      StepKeepsBound(t, items[0].0, items[0].1, st);
      BoundNeverFails(t, items[1..], Step(t, items[0].0, items[0].1, st).value);
    }
  }

  /**
   * The loop fails exactly when the first unit with a task group has one
   * other than 1 or 2: that group would be created with a `line_id` no
   * earlier iteration bound.
   */
  lemma {:induction false} FoldFailsIff(t: Tables, items: seq<(int, Unit)>, reg: Registry)
    ensures var f := FirstTaskGroup(items);
      Fold(t, items, VPass([], [], None, reg)).Failure? <==> f.Some? && f.value != MaleTaskGroup && f.value != FemaleTaskGroup
    ensures var f := FirstTaskGroup(items);
      Fold(t, items, VPass([], [], None, reg)).Failure? ==> Fold(t, items, VPass([], [], None, reg)).error == UnboundLineId(f.value)
    decreases |items|
  {
    if |items| > 0 {
      var st := VPass([], [], None, reg);
      var tg := TaskGroupOf(items[0].1);
      if tg == 0 {
        FoldFailsIff(t, items[1..], reg);
      } else if tg == MaleTaskGroup || tg == FemaleTaskGroup {
        StepKeepsBound(t, items[0].0, items[0].1, st);
        BoundNeverFails(t, items[1..], Step(t, items[0].0, items[0].1, st).value);
      }
    }
  }

  // ----- where the units end up -----

  /**
   * Every task group seen is published under its id, and every processed
   * unit with a task group is recorded and sits in its task group's line.
   */
  ghost predicate Collected(st: VPass, done: seq<(int, Unit)>) {
    && (forall i :: 0 <= i < |st.taskIds| ==> Get(st.reg.taskGroups, st.taskIds[i]) == Some(TaskGroupRef(st.taskIds[i])))
    && (forall i :: 0 <= i < |done| && TaskGroupOf(done[i].1) != 0 ==>
          && TaskGroupOf(done[i].1) in st.taskIds
          && done[i].0 in st.unitIds
          && done[i].0 in Deref(st.reg.groups, TaskGroupRef(TaskGroupOf(done[i].1))).line)
  }

  lemma StepCollects(t: Tables, unitId: int, u: Unit, st: VPass, done: seq<(int, Unit)>)
    requires Collected(st, done)
    requires Step(t, unitId, u, st).Success?
    ensures Collected(Step(t, unitId, u, st).value, done + [(unitId, u)])
  {
    var r := Step(t, unitId, u, st).value;
    var tg := TaskGroupOf(u);
    if tg != 0 {
      if tg in st.taskIds {
        var j :| 0 <= j < |st.taskIds| && st.taskIds[j] == tg;
      }
      GrowCollected(st, r, done, unitId, u);
    } else {
      var done' := done + [(unitId, u)];
      forall i | 0 <= i < |done'| && TaskGroupOf(done'[i].1) != 0
        ensures done'[i].0 in Deref(r.reg.groups, TaskGroupRef(TaskGroupOf(done'[i].1))).line
      {
        assert i < |done| && done'[i] == done[i];
      }
    }
  }

  /** Adding a unit with a task group to that group's line keeps everything collected so far. */
  lemma GrowCollected(st: VPass, r: VPass, done: seq<(int, Unit)>, unitId: int, u: Unit)
    requires Collected(st, done)
    requires TaskGroupOf(u) != 0
    requires r.taskIds == (if TaskGroupOf(u) in st.taskIds then st.taskIds else st.taskIds + [TaskGroupOf(u)])
    requires r.unitIds == st.unitIds + [unitId]
    requires Get(r.reg.taskGroups, TaskGroupOf(u)) == Some(TaskGroupRef(TaskGroupOf(u)))
    requires unitId in Deref(r.reg.groups, TaskGroupRef(TaskGroupOf(u))).line
    requires TaskGroupOf(u) in st.taskIds ==> Grows(st.reg.groups, r.reg.groups, TaskGroupRef(TaskGroupOf(u)))
    requires forall g :: g != TaskGroupRef(TaskGroupOf(u)) ==> Deref(r.reg.groups, g) == Deref(st.reg.groups, g)
    requires forall k :: k != TaskGroupOf(u) ==> Get(r.reg.taskGroups, k) == Get(st.reg.taskGroups, k)
    ensures Collected(r, done + [(unitId, u)])
  {
    var tg := TaskGroupOf(u);
    var done' := done + [(unitId, u)];
    forall i | 0 <= i < |r.taskIds| ensures Get(r.reg.taskGroups, r.taskIds[i]) == Some(TaskGroupRef(r.taskIds[i])) {
      if r.taskIds[i] != tg {
        assert r.taskIds[i] == st.taskIds[i];
      }
    }
    forall i | 0 <= i < |done'| && TaskGroupOf(done'[i].1) != 0
      ensures && TaskGroupOf(done'[i].1) in r.taskIds
              && done'[i].0 in r.unitIds
              && done'[i].0 in Deref(r.reg.groups, TaskGroupRef(TaskGroupOf(done'[i].1))).line
    {
      if i < |done| {
        var ti := TaskGroupOf(done[i].1);
        assert done'[i] == done[i];
        var x := done[i].0;
        assert ti in st.taskIds && x in st.unitIds;
        assert x in Deref(st.reg.groups, TaskGroupRef(ti)).line;
        if ti != tg {
          assert TaskGroupRef(ti) != TaskGroupRef(tg);
        } else {
          assert tg in st.taskIds;
          GrowsHas(st.reg.groups, r.reg.groups, TaskGroupRef(tg), x);
        }
      } else {
        assert done'[i] == (unitId, u);
      }
    }
  }

  /** Every member of the line behind `ref` is still there afterwards. */
  ghost predicate Grows(before: map<GroupRef, Group>, after: map<GroupRef, Group>, ref: GroupRef) {
    forall x :: x in Deref(before, ref).line ==> x in Deref(after, ref).line
  }

  lemma GrowsHas(before: map<GroupRef, Group>, after: map<GroupRef, Group>, ref: GroupRef, x: int)
    requires Grows(before, after, ref) && x in Deref(before, ref).line
    ensures x in Deref(after, ref).line
  {
  }

  lemma {:induction false} FoldCollects(t: Tables, items: seq<(int, Unit)>, st: VPass, done: seq<(int, Unit)>)
    requires Collected(st, done)
    requires Fold(t, items, st).Success?
    ensures Collected(Fold(t, items, st).value, done + items)
    decreases |items|
  {
    if |items| > 0 {
      var st1 := Step(t, items[0].0, items[0].1, st).value;
      var done1 := done + [items[0]];
      assert Fold(t, items, st) == Fold(t, items[1..], st1);
      StepCollects(t, items[0].0, items[0].1, st, done);
      FoldCollects(t, items[1..], st1, done1);
      assert done1 + items[1..] == done + items;
    } else {
      assert done + items == done;
    }
  }

  /**
   * Each unit with a task group sits in the line of its task group, that task
   * group is a variant of villager group 118, and `unit_ref` maps the unit to
   * the villager group, which `unit_lines` and `villager_groups` publish
   * under 118.
   */
  ghost predicate VillagersPublished(r: Registry, items: seq<(int, Unit)>) {
    && Get(r.unitLines, VillagerGroupId) == Some(VillagerRef(VillagerGroupId))
    && Get(r.villagerGroups, VillagerGroupId) == Some(VillagerRef(VillagerGroupId))
    && Deref(r.groups, VillagerRef(VillagerGroupId)).kind.VillagerLine?
    && forall i :: 0 <= i < |items| && TaskGroupOf(items[i].1) != 0 ==>
         var tg := TaskGroupOf(items[i].1);
         && Get(r.taskGroups, tg) == Some(TaskGroupRef(tg))
         && items[i].0 in Deref(r.groups, TaskGroupRef(tg)).line
         && TaskGroupRef(tg) in Deref(r.groups, VillagerRef(VillagerGroupId)).kind.variants
         && Get(r.unitRef, items[i].0) == Some(VillagerRef(VillagerGroupId))
  }

  lemma PublishVillagers(st: VPass, items: seq<(int, Unit)>)
    requires Collected(st, items)
    ensures VillagersPublished(VillagerGroup(st), items)
  {
    var r := VillagerGroup(st);
    var ref := VillagerRef(VillagerGroupId);
    PutAllKeys(st.reg.unitRef, st.unitIds, ref);
    forall i | 0 <= i < |items| && TaskGroupOf(items[i].1) != 0
      ensures TaskGroupRef(TaskGroupOf(items[i].1)) in Deref(r.groups, ref).kind.variants
      ensures Get(r.unitRef, items[i].0) == Some(ref)
      ensures Get(r.taskGroups, TaskGroupOf(items[i].1)) == Some(TaskGroupRef(TaskGroupOf(items[i].1)))
      ensures items[i].0 in Deref(r.groups, TaskGroupRef(TaskGroupOf(items[i].1))).line
    {
      var tg := TaskGroupOf(items[i].1);
      var j :| 0 <= j < |st.taskIds| && st.taskIds[j] == tg;
      assert TaskRefs(st.taskIds)[j] == TaskGroupRef(tg);
      var k :| 0 <= k < |st.unitIds| && st.unitIds[k] == items[i].0;
      assert Deref(r.groups, TaskGroupRef(tg)) == Deref(st.reg.groups, TaskGroupRef(tg));
    }
  }

  /** From the empty start every processed unit is collected. */
  lemma FoldCollectsAll(t: Tables, items: seq<(int, Unit)>, reg: Registry)
    requires Fold(t, items, VPass([], [], None, reg)).Success?
    ensures Collected(Fold(t, items, VPass([], [], None, reg)).value, items)
  {
    FoldCollects(t, items, VPass([], [], None, reg), []);
    assert [] + items == items;
  }

  lemma VillagersCollected(t: Tables, ds: Dataset, reg: Registry)
    requires CreateVillagerGroups(t, ds, reg).Success?
    ensures VillagersPublished(CreateVillagerGroups(t, ds, reg).value, ds.units.items)
  {
    var items := ds.units.items;
    var st := Fold(t, items, VPass([], [], None, reg)).value;
    assert CreateVillagerGroups(t, ds, reg).value == VillagerGroup(st);
    FoldCollectsAll(t, items, reg);
    PublishVillagers(st, items);
  }

  /** A unit record that differs from the blank one only in its task group. */
  function TaskUnit(taskGroup: int): Unit {
    Unit(None, Some(taskGroup), None, None, None, None, 0, 0, -1, -1, [])
  }

  /**
   * A task group other than 1 and 2 that follows a female villager inherits
   * the female line id: the source's `line_id` leaks from the earlier
   * iteration.
   */
  lemma LeakedLineId(t: Tables, reg: Registry)
    ensures var r := Fold(t, [(10, TaskUnit(2)), (11, TaskUnit(5))], VPass([], [], None, reg));
      && r.Success?
      && Deref(r.value.reg.groups, TaskGroupRef(5)).kind == TaskLine(5)
      && Deref(r.value.reg.groups, TaskGroupRef(5)).id == t.femaleLineId
  {
    var st0 := VPass([], [], None, reg);
    FemaleFirst(t, reg);
    var st1 := Step(t, 10, TaskUnit(2), st0).value;
    LeakedStep(t, st1);
    FoldPair(t, (10, TaskUnit(2)), (11, TaskUnit(5)), st0);
  }

  /** Two units are processed by two steps. */
  lemma FoldPair(t: Tables, x: (int, Unit), y: (int, Unit), st: VPass)
    requires Step(t, x.0, x.1, st).Success?
    ensures Fold(t, [x, y], st) == Step(t, y.0, y.1, Step(t, x.0, x.1, st).value)
  {
    var items := [x, y];
    var st1 := Step(t, x.0, x.1, st).value;
    assert items[1..] == [y];
    assert [y][1..] == [];
    assert Fold(t, items, st) == Fold(t, [y], st1);
    if Step(t, y.0, y.1, st1).Success? {
      assert Fold(t, [y], st1) == Fold(t, [], Step(t, y.0, y.1, st1).value);
    }
  }

  /** A first female villager opens task group 2 under the female line id. */
  lemma FemaleFirst(t: Tables, reg: Registry)
    ensures var r := Step(t, 10, TaskUnit(2), VPass([], [], None, reg));
      r.Success? && r.value.lineId == Some(t.femaleLineId) && r.value.taskIds == [2]
  {
  }

  /** A new task group other than 1 and 2 takes over whatever line id the pass holds. */
  lemma LeakedStep(t: Tables, st: VPass)
    requires st.lineId == Some(t.femaleLineId) && st.taskIds == [2]
    ensures var r := Step(t, 11, TaskUnit(5), st);
      && r.Success?
      && Deref(r.value.reg.groups, TaskGroupRef(5)).kind == TaskLine(5)
      && Deref(r.value.reg.groups, TaskGroupRef(5)).id == t.femaleLineId
  {
    assert 5 !in st.taskIds;
    assert NewTaskLineId(t, 5, st.lineId) == Success(t.femaleLineId);
  }
}
