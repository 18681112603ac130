/**
 * `_create_building_lines` (processor.py:535-650): every building connection
 * opens or extends a building line. The line id is the building's own id
 * unless a connected tech upgrades some other building into this one; then
 * the line id is the upgraded building and the tech is recorded as a
 * `BuildingLineUpgrade`.
 */
module BuildingLines {
  import opened Wrappers
  import opened Seqs
  import opened Dicts
  import opened CrossRefs
  import opened Records
  import opened Groups
  import opened Registry

  /** Effect type 3: upgrade `attr_a` into `attr_b`. */
  const UpgradeEffect := 3

  predicate Upgrades(e: Effect, buildingId: int) {
    e.typeId == UpgradeEffect && e.attrB == buildingId
  }

  /** The `attr_a` of the first type-3 effect of the bundle whose `attr_b` is the building. */
  function UpgradeSource(b: Bundle, buildingId: int): (r: Option<int>)
    ensures r.None? <==> forall i :: 0 <= i < |b.effects| ==> !Upgrades(b.effects[i], buildingId)
    ensures r.Some? ==> exists i :: 0 <= i < |b.effects| && Upgrades(b.effects[i], buildingId) && b.effects[i].attrA == r.value
                                    && (forall j :: 0 <= j < i ==> !Upgrades(b.effects[j], buildingId))
  {
    var ups := EffectsOfType(b, UpgradeEffect);
    var k := FirstIndex(ups, (e: Effect) => e.attrB == buildingId);
    FirstInFilter(b.effects, (e: Effect) => e.typeId == UpgradeEffect, (e: Effect) => e.attrB == buildingId);
    if k.None? then None else Some(ups[k.value].attrA)
  }

  /**
   * The scan over the connected techs: the first tech (in cross-reference
   * order) whose bundle upgrades some building into this one, with the line
   * id it names. Looking up a tech or bundle that does not exist fails; techs
   * after the first match are not looked at.
   */
  function FindUpgrade(ds: Dataset, buildingId: int, techIds: seq<int>): Result<Option<(int, int)>, Error>
    decreases |techIds|
  {
    if |techIds| == 0 then Success(None)
    else
      var src :- TechUpgradeSource(ds, techIds[0], buildingId);
      match src
      case Some(lineId) => Success(Some((techIds[0], lineId)))
      case None => FindUpgrade(ds, buildingId, techIds[1..])
  }

  /**
   * The scan's answer characterised over the whole list: no line id when
   * every tech resolves and upgrades nothing into the building, else the
   * first tech that does (or the first failed lookup before it).
   */
  lemma FindUpgradeFirst(ds: Dataset, buildingId: int, techIds: seq<int>)
    ensures var r := FindUpgrade(ds, buildingId, techIds);
      r.Success? && r.value.None? ==>
        forall i :: 0 <= i < |techIds| ==> TechUpgradeSource(ds, techIds[i], buildingId) == Success(None)
    ensures var r := FindUpgrade(ds, buildingId, techIds);
      r.Success? && r.value.Some? ==>
        exists i :: 0 <= i < |techIds| && techIds[i] == r.value.value.0
          && TechUpgradeSource(ds, techIds[i], buildingId) == Success(Some(r.value.value.1))
          && forall j :: 0 <= j < i ==> TechUpgradeSource(ds, techIds[j], buildingId) == Success(None)
    ensures var r := FindUpgrade(ds, buildingId, techIds);
      r.Failure? ==>
        exists i :: 0 <= i < |techIds| && TechUpgradeSource(ds, techIds[i], buildingId).Failure?
          && r.error == TechUpgradeSource(ds, techIds[i], buildingId).error
          && forall j :: 0 <= j < i ==> TechUpgradeSource(ds, techIds[j], buildingId) == Success(None)
  {
    FindNoUpgrade(ds, buildingId, techIds);
    FindSomeUpgrade(ds, buildingId, techIds);
    FindUpgradeFails(ds, buildingId, techIds);
  }

  /** Techs up to `i` (exclusive) upgrade nothing and look up fine. */
  ghost predicate NoneBefore(ds: Dataset, buildingId: int, techIds: seq<int>, i: int)
    requires 0 <= i <= |techIds|
  {
    forall j :: 0 <= j < i ==> TechUpgradeSource(ds, techIds[j], buildingId) == Success(None)
  }

  lemma NoneBeforeCons(ds: Dataset, buildingId: int, techIds: seq<int>, i: int)
    requires 0 < |techIds| && 0 <= i <= |techIds| - 1
    requires TechUpgradeSource(ds, techIds[0], buildingId) == Success(None)
    requires NoneBefore(ds, buildingId, techIds[1..], i)
    ensures NoneBefore(ds, buildingId, techIds, i + 1)
  {
    forall j | 0 < j < i + 1 ensures TechUpgradeSource(ds, techIds[j], buildingId) == Success(None) {
      assert techIds[j] == techIds[1..][j - 1];
    }
  }

  lemma {:induction false} FindNoUpgrade(ds: Dataset, buildingId: int, techIds: seq<int>)
    ensures var r := FindUpgrade(ds, buildingId, techIds);
      r.Success? && r.value.None? ==> NoneBefore(ds, buildingId, techIds, |techIds|)
    decreases |techIds|
  {
    if |techIds| > 0 && TechUpgradeSource(ds, techIds[0], buildingId) == Success(None) {
      FindNoUpgrade(ds, buildingId, techIds[1..]);
      if FindUpgrade(ds, buildingId, techIds[1..]) == Success(None) {
        NoneBeforeCons(ds, buildingId, techIds, |techIds| - 1);
      }
    }
  }

  lemma {:induction false} FindSomeUpgrade(ds: Dataset, buildingId: int, techIds: seq<int>)
    ensures var r := FindUpgrade(ds, buildingId, techIds);
      r.Success? && r.value.Some? ==>
        exists i :: 0 <= i < |techIds| && techIds[i] == r.value.value.0
          && TechUpgradeSource(ds, techIds[i], buildingId) == Success(Some(r.value.value.1))
          && NoneBefore(ds, buildingId, techIds, i)
    decreases |techIds|
  {
    if |techIds| > 0 && TechUpgradeSource(ds, techIds[0], buildingId) == Success(None) {
      var rest := techIds[1..];
      FindSomeUpgrade(ds, buildingId, rest);
      var r := FindUpgrade(ds, buildingId, rest);
      if r.Success? && r.value.Some? {
        var i :| 0 <= i < |rest| && rest[i] == r.value.value.0
          && TechUpgradeSource(ds, rest[i], buildingId) == Success(Some(r.value.value.1))
          && NoneBefore(ds, buildingId, rest, i);
        NoneBeforeCons(ds, buildingId, techIds, i);
        assert techIds[i + 1] == rest[i];
      }
    } else if |techIds| > 0 && TechUpgradeSource(ds, techIds[0], buildingId).Success? {
      assert NoneBefore(ds, buildingId, techIds, 0);
    }
  }

  lemma {:induction false} FindUpgradeFails(ds: Dataset, buildingId: int, techIds: seq<int>)
    ensures var r := FindUpgrade(ds, buildingId, techIds);
      r.Failure? ==>
        exists i :: 0 <= i < |techIds| && TechUpgradeSource(ds, techIds[i], buildingId).Failure?
          && r.error == TechUpgradeSource(ds, techIds[i], buildingId).error
          && NoneBefore(ds, buildingId, techIds, i)
    decreases |techIds|
  {
    if |techIds| > 0 && TechUpgradeSource(ds, techIds[0], buildingId) == Success(None) {
      var rest := techIds[1..];
      FindUpgradeFails(ds, buildingId, rest);
      var r := FindUpgrade(ds, buildingId, rest);
      if r.Failure? {
        var i :| 0 <= i < |rest| && TechUpgradeSource(ds, rest[i], buildingId).Failure?
          && r.error == TechUpgradeSource(ds, rest[i], buildingId).error
          && NoneBefore(ds, buildingId, rest, i);
        NoneBeforeCons(ds, buildingId, techIds, i);
        assert techIds[i + 1] == rest[i];
      }
    } else if |techIds| > 0 && TechUpgradeSource(ds, techIds[0], buildingId).Failure? {
      assert NoneBefore(ds, buildingId, techIds, 0);
    }
  }

  /** One connected tech: `genie_techs[id]`, its bundle, and the bundle's upgrade source. */
  function TechUpgradeSource(ds: Dataset, techId: int, buildingId: int): (r: Result<Option<int>, Error>)
    ensures r.Success? <==> 0 <= techId < |ds.techs| && 0 <= ds.techs[techId].effectBundleId < |ds.bundles|
    ensures r.Success? ==> r.value == UpgradeSource(ds.bundles[ds.techs[techId].effectBundleId], buildingId)
  {
    var tech :- LookupTech(ds, techId);
    var bundle :- TechBundle(ds, tech);
    Success(UpgradeSource(bundle, buildingId))
  }

  /** The building a line-upgrading building follows: the first Building-tagged cross-reference. */
  function PreviousBuilding(buildingId: int, c: BuildingConnection): (r: Result<int, Error>)
    ensures r.Failure? <==> forall i :: 0 <= i < |c.refs| ==> c.refs[i].0 != BuildingTag
    ensures r.Failure? ==> r.error == NoPreviousBuilding(buildingId)
    ensures r.Success? ==> FirstOfKind(c.refs, BuildingTag) == Some(r.value)
  {
    match FirstOfKind(c.refs, BuildingTag)
    case None => Failure(NoPreviousBuilding(buildingId))
    case Some(p) => Success(p)
  }

  /** Stack heads are left to their stack unit. */
  predicate IsStackHead(u: Unit) {
    u.headUnitId.Some? && u.headUnitId.value > -1
  }

  /** The group kind a new line of this building gets. */
  function NewBuildingKind(u: Unit): GroupKind {
    if u.stackUnitId.Some? && u.stackUnitId.value > -1 then StackBuildingLine(u.stackUnitId.value) else BuildingLine
  }

  /**
   * What the tech scan decides for one building: its line id, its
   * predecessor, and the upgrade tech group to record, if any.
   */
  datatype Placement = Placement(lineId: int, after: Option<int>, upgrade: Option<TechGroup>)

  function Locate(ds: Dataset, buildingId: int, c: BuildingConnection): (r: Result<Placement, Error>)
    ensures r.Success? && r.value.upgrade.None? ==> r.value == Placement(buildingId, None, None)
    ensures r.Success? && r.value.upgrade.Some? ==>
      var g := r.value.upgrade.value;
      && g.BuildingLineUpgrade? && g.lineId == r.value.lineId && g.buildingId == buildingId
      && FindUpgrade(ds, buildingId, IdsOfKind(c.refs, TechTag)) == Success(Some((g.techId, g.lineId)))
      && r.value.after.Some? && PreviousBuilding(buildingId, c) == Success(r.value.after.value)
    ensures FindUpgrade(ds, buildingId, IdsOfKind(c.refs, TechTag)) == Success(None) ==> r.Success? && r.value.upgrade.None?
    ensures var f := FindUpgrade(ds, buildingId, IdsOfKind(c.refs, TechTag));
      f.Success? && f.value.Some? && PreviousBuilding(buildingId, c).Failure? ==> r == Failure(NoPreviousBuilding(buildingId))
  {
    var found :- FindUpgrade(ds, buildingId, IdsOfKind(c.refs, TechTag));
    match found
    case None => Success(Placement(buildingId, None, None))
    case Some((techId, lineId)) =>
      var prev :- PreviousBuilding(buildingId, c);
      Success(Placement(lineId, Some(prev), Some(BuildingLineUpgrade(techId, lineId, buildingId))))
  }

  /** Fields of the registry this pass writes. */
  predicate Unchanged(a: Registry, b: Registry) {
    b == a.(groups := b.groups, buildingLines := b.buildingLines, unitRef := b.unitRef,
            techGroups := b.techGroups, buildingUpgrades := b.buildingUpgrades)
  }

  /** `tech_groups.update(...)` and `building_upgrades.update(...)` for a found upgrade tech. */
  function Record(p: Placement, reg: Registry): (r: Registry)
    ensures p.upgrade.None? ==> r == reg
    ensures p.upgrade.Some? ==>
      && Get(r.techGroups, p.upgrade.value.techId) == p.upgrade
      && Get(r.buildingUpgrades, p.upgrade.value.techId) == p.upgrade
      && (forall t :: t != p.upgrade.value.techId ==>
            Get(r.techGroups, t) == Get(reg.techGroups, t) && Get(r.buildingUpgrades, t) == Get(reg.buildingUpgrades, t))
    ensures r == reg.(techGroups := r.techGroups, buildingUpgrades := r.buildingUpgrades)
  {
    match p.upgrade
    case None => reg
    case Some(g) => reg.(techGroups := Put(reg.techGroups, g.techId, g),
                         buildingUpgrades := Put(reg.buildingUpgrades, g.techId, g))
  }

  /**
   * Adds the building to the line `p.lineId`, opening the line (a stack
   * building line when the building has a stack unit) if the id has none.
   */
  function Attach(u: Unit, buildingId: int, p: Placement, reg: Registry): (r: Registry)
    ensures Has(r.buildingLines, p.lineId)
    ensures var ref := Get(r.buildingLines, p.lineId).value;
      && Get(r.unitRef, buildingId) == Some(ref)
      && buildingId in Deref(r.groups, ref).line
      && (Has(reg.buildingLines, p.lineId) ==> ref == Get(reg.buildingLines, p.lineId).value)
      && (!Has(reg.buildingLines, p.lineId) ==>
            ref == BuildingLineRef(p.lineId) && Deref(r.groups, ref) == NewGroup(NewBuildingKind(u), p.lineId).(line := [buildingId]))
    ensures forall k :: k != p.lineId ==> Get(r.buildingLines, k) == Get(reg.buildingLines, k)
    ensures r == reg.(groups := r.groups, buildingLines := r.buildingLines, unitRef := r.unitRef)
  {
    match Get(reg.buildingLines, p.lineId)
    case Some(ref) =>
      var g := Deref(reg.groups, ref);
      reg.(groups := reg.groups[ref := g.(line := AddUnit(g.line, buildingId, p.after))],
           unitRef := Put(reg.unitRef, buildingId, ref))
    case None =>
      var ref := BuildingLineRef(p.lineId);
      var g := NewGroup(NewBuildingKind(u), p.lineId);
      reg.(groups := reg.groups[ref := g.(line := AddUnit(g.line, buildingId, p.after))],
           buildingLines := Put(reg.buildingLines, p.lineId, ref),
           unitRef := Put(reg.unitRef, buildingId, ref))
  }

  /** One iteration of the building-connection loop. */
  function Step(ds: Dataset, buildingId: int, c: BuildingConnection, reg: Registry): (r: Result<Registry, Error>)
    ensures r.Success? ==> Unchanged(reg, r.value)
    ensures !Has(ds.units, buildingId) ==> r == Failure(MissingKey(UnitsTable, buildingId))
    ensures Has(ds.units, buildingId) && IsStackHead(Get(ds.units, buildingId).value) ==> r == Success(reg)
    ensures Has(ds.units, buildingId) && !IsStackHead(Get(ds.units, buildingId).value) ==>
      && (r.Success? <==> Locate(ds, buildingId, c).Success?)
      && (r.Success? ==> var p := Locate(ds, buildingId, c).value;
            r.value == Attach(Get(ds.units, buildingId).value, buildingId, p, Record(p, reg)))
  {
    var u :- LookupUnit(ds, buildingId);
    if IsStackHead(u) then Success(reg)
    else
      var p :- Locate(ds, buildingId, c);
      Success(Attach(u, buildingId, p, Record(p, reg)))
  }

  function Fold(ds: Dataset, items: seq<(int, BuildingConnection)>, reg: Registry): (r: Result<Registry, Error>)
    ensures r.Success? ==> Unchanged(reg, r.value)
    decreases |items|
  {
    if |items| == 0 then Success(reg)
    else
      var reg' :- Step(ds, items[0].0, items[0].1, reg);
      Fold(ds, items[1..], reg')
  }

  /** `_create_building_lines`: it writes only groups, `building_lines`, `unit_ref` and the upgrade techs. */
  function CreateBuildingLines(ds: Dataset, reg: Registry): (r: Result<Registry, Error>)
    ensures r.Success? ==> Unchanged(reg, r.value)
  {
    Fold(ds, ds.buildingConnections.items, reg)
  }

  // ----- every placed building sits in a published line -----

  /**
   * `building_lines` maps each line id to the building line of that id, every
   * building line object is published there, and each building in `placed` is
   * mapped by `unit_ref` to a published building line that holds it.
   */
  ghost predicate Placed(reg: Registry, placed: set<int>) {
    && (forall i :: 0 <= i < |reg.buildingLines.items| ==>
          reg.buildingLines.items[i].1 == BuildingLineRef(reg.buildingLines.items[i].0))
    && (forall L :: BuildingLineRef(L) in reg.groups ==> Has(reg.buildingLines, L))
    && (forall b :: b in placed ==> InPublishedLine(reg, b))
  }

  predicate InPublishedLine(reg: Registry, b: int) {
    && Get(reg.unitRef, b).Some?
    && Get(reg.unitRef, b).value.BuildingLineRef?
    && Has(reg.buildingLines, Get(reg.unitRef, b).value.lineId)
    && b in Deref(reg.groups, Get(reg.unitRef, b).value).line
  }

  lemma LineRefNamed(d: Dict<GroupRef>, L: int)
    requires forall i :: 0 <= i < |d.items| ==> d.items[i].1 == BuildingLineRef(d.items[i].0)
    ensures Has(d, L) ==> Get(d, L) == Some(BuildingLineRef(L))
  {
  }

  lemma AttachKeepsPlaced(u: Unit, b: int, p: Placement, reg: Registry, placed: set<int>)
    requires Placed(reg, placed)
    ensures Placed(Attach(u, b, p, reg), placed + {b})
  {
    if Has(reg.buildingLines, p.lineId) {
      JoinKeepsPlaced(u, b, p, reg, placed);
    } else {
      OpenKeepsPlaced(u, b, p, reg, placed);
    }
  }

  lemma JoinKeepsPlaced(u: Unit, b: int, p: Placement, reg: Registry, placed: set<int>)
    requires Placed(reg, placed) && Has(reg.buildingLines, p.lineId)
    ensures Placed(Attach(u, b, p, reg), placed + {b})
  {
    var r := Attach(u, b, p, reg);
    var ref := BuildingLineRef(p.lineId);
    LineRefNamed(reg.buildingLines, p.lineId);
    assert r.buildingLines == reg.buildingLines;
    forall k | k in placed + {b} ensures InPublishedLine(r, k) {
      if k != b {
        assert InPublishedLine(reg, k);
        var rk := Get(reg.unitRef, k).value;
        assert Get(r.unitRef, k) == Some(rk);
        if rk == ref {
          assert k in Deref(reg.groups, ref).line;
        }
      }
    }
  }

  lemma PutKeepsNamed(d: Dict<GroupRef>, L: int)
    requires forall i :: 0 <= i < |d.items| ==> d.items[i].1 == BuildingLineRef(d.items[i].0)
    ensures var p := Put(d, L, BuildingLineRef(L));
      forall i :: 0 <= i < |p.items| ==> p.items[i].1 == BuildingLineRef(p.items[i].0)
  {
  }

  lemma OpenKeepsPlaced(u: Unit, b: int, p: Placement, reg: Registry, placed: set<int>)
    requires Placed(reg, placed) && !Has(reg.buildingLines, p.lineId)
    ensures Placed(Attach(u, b, p, reg), placed + {b})
  {
    var ref := BuildingLineRef(p.lineId);
    var g := NewGroup(NewBuildingKind(u), p.lineId);
    HasGet(reg.buildingLines, p.lineId);
    OpenedPlaced(reg, placed, p.lineId, b, g.(line := AddUnit(g.line, b, p.after)));
  }

  /** A new line published under a fresh id and holding `b` keeps the placement invariant. */
  lemma OpenedPlaced(reg: Registry, placed: set<int>, L: int, b: int, g: Group)
    requires Placed(reg, placed) && !Has(reg.buildingLines, L) && b in g.line
    ensures var ref := BuildingLineRef(L);
      Placed(reg.(groups := reg.groups[ref := g], buildingLines := Put(reg.buildingLines, L, ref),
                  unitRef := Put(reg.unitRef, b, ref)), placed + {b})
  {
    var ref := BuildingLineRef(L);
    var r := reg.(groups := reg.groups[ref := g], buildingLines := Put(reg.buildingLines, L, ref),
                  unitRef := Put(reg.unitRef, b, ref));
    assert ref !in reg.groups;
    PutKeepsNamed(reg.buildingLines, L);
    forall L2 ensures Has(r.buildingLines, L2) <==> Has(reg.buildingLines, L2) || L2 == L {
      HasGet(r.buildingLines, L2);
      HasGet(reg.buildingLines, L2);
    }
    forall L2 | BuildingLineRef(L2) in r.groups ensures Has(r.buildingLines, L2) {
      if L2 != L {
        assert BuildingLineRef(L2) in reg.groups;
      }
    }
    OpenedHolds(reg, r, placed, L, b, g);
    assert forall i :: 0 <= i < |r.buildingLines.items| ==> r.buildingLines.items[i].1 == BuildingLineRef(r.buildingLines.items[i].0);
    assert Placed(r, placed + {b});
  }

  /** Every placed unit, and `b` itself, sits in a published line once the new line is added. */
  lemma OpenedHolds(reg: Registry, r: Registry, placed: set<int>, L: int, b: int, g: Group)
    requires forall k :: k in placed ==> InPublishedLine(reg, k)
    requires BuildingLineRef(L) !in reg.groups && b in g.line
    requires r.groups == reg.groups[BuildingLineRef(L) := g] && r.unitRef == Put(reg.unitRef, b, BuildingLineRef(L))
    requires forall L2 :: Has(reg.buildingLines, L2) ==> Has(r.buildingLines, L2)
    requires Has(r.buildingLines, L)
    ensures forall k :: k in placed + {b} ==> InPublishedLine(r, k)
  {
    forall k | k in placed + {b} ensures InPublishedLine(r, k) {
      if k != b {
        OpenedKeeps(reg, r, L, b, g, k);
      } else {
        assert Get(r.unitRef, b) == Some(BuildingLineRef(L));
      }
    }
  }

  lemma OpenedKeeps(reg: Registry, r: Registry, L: int, b: int, g: Group, k: int)
    requires InPublishedLine(reg, k) && k != b && BuildingLineRef(L) !in reg.groups
    requires r.groups == reg.groups[BuildingLineRef(L) := g] && r.unitRef == Put(reg.unitRef, b, BuildingLineRef(L))
    requires forall L2 :: Has(reg.buildingLines, L2) ==> Has(r.buildingLines, L2)
    ensures InPublishedLine(r, k)
  {
    var rk := Get(reg.unitRef, k).value;
    assert rk in reg.groups;
    assert Deref(r.groups, rk) == Deref(reg.groups, rk);
  }

  lemma StepKeepsPlaced(ds: Dataset, b: int, c: BuildingConnection, reg: Registry, placed: set<int>)
    requires Placed(reg, placed)
    requires Step(ds, b, c, reg).Success?
    ensures Has(ds.units, b)
    ensures var r := Step(ds, b, c, reg).value;
      Placed(r, if IsStackHead(Get(ds.units, b).value) then placed else placed + {b})
  {
    var u := Get(ds.units, b).value;
    if !IsStackHead(u) {
      var p := Locate(ds, b, c).value;
      var reg1 := Record(p, reg);
      assert Placed(reg1, placed) by {
        forall k | k in placed ensures InPublishedLine(reg1, k) {
          assert InPublishedLine(reg, k);
        }
      }
      AttachKeepsPlaced(u, b, p, reg1, placed);
    }
  }

  /** The buildings of the connections the loop places: those that are not stack heads. */
  ghost function PlacedIds(ds: Dataset, items: seq<(int, BuildingConnection)>): (ids: set<int>)
    ensures forall i :: 0 <= i < |items| && Has(ds.units, items[i].0) && !IsStackHead(Get(ds.units, items[i].0).value) ==>
      items[i].0 in ids
    ensures forall b :: b in ids ==> Has(ds.units, b) && !IsStackHead(Get(ds.units, b).value)
    decreases |items|
  {
    assert forall i :: 0 < i < |items| ==> items[i] == items[1..][i - 1];
    if |items| == 0 then {}
    else if Has(ds.units, items[0].0) && !IsStackHead(Get(ds.units, items[0].0).value) then {items[0].0} + PlacedIds(ds, items[1..])
    else PlacedIds(ds, items[1..])
  }

  lemma {:induction false} FoldKeepsPlaced(ds: Dataset, items: seq<(int, BuildingConnection)>, reg: Registry, placed: set<int>)
    requires Placed(reg, placed)
    requires Fold(ds, items, reg).Success?
    ensures Placed(Fold(ds, items, reg).value, placed + PlacedIds(ds, items))
    decreases |items|
  {
    if |items| > 0 {
      StepKeepsPlaced(ds, items[0].0, items[0].1, reg, placed);
      var reg1 := Step(ds, items[0].0, items[0].1, reg).value;
      var placed1 := if IsStackHead(Get(ds.units, items[0].0).value) then placed else placed + {items[0].0};
      FoldKeepsPlaced(ds, items[1..], reg1, placed1);
      PlacedIdsCons(ds, items);
      assert Fold(ds, items, reg) == Fold(ds, items[1..], reg1);
    }
  }

  lemma PlacedIdsCons(ds: Dataset, items: seq<(int, BuildingConnection)>)
    requires |items| > 0 && Has(ds.units, items[0].0)
    ensures PlacedIds(ds, items) == (if IsStackHead(Get(ds.units, items[0].0).value) then {} else {items[0].0}) + PlacedIds(ds, items[1..])
  {
  }

  /**
   * After the pass every building of a connection that is not a stack head is
   * mapped by `unit_ref` to a building line, published in `building_lines`,
   * that contains it.
   */
  lemma BuildingsPlaced(ds: Dataset, reg: Registry)
    requires reg.buildingLines == Empty()
    requires forall L :: BuildingLineRef(L) !in reg.groups
    requires CreateBuildingLines(ds, reg).Success?
    ensures var r := CreateBuildingLines(ds, reg).value;
      forall b :: b in PlacedIds(ds, ds.buildingConnections.items) ==> InPublishedLine(r, b)
  {
    FoldKeepsPlaced(ds, ds.buildingConnections.items, reg, {});
  }
}
