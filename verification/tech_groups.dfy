/**
 * `_create_tech_groups`: four passes that turn techs, tech connections, unit
 * connections and research-initiating buildings into tech groups. Every
 * group is published under its tech id in `tech_groups` and in the index of
 * its kind; a later group with the same tech id overwrites an earlier one.
 */
module TechGroups {
  import opened Wrappers
  import opened Seqs
  import opened Dicts
  import opened CrossRefs
  import opened Records
  import opened Groups
  import opened Registry

  /** `tech_type` of an age-up tech. */
  const AgeTechType := 2
  /** Effect type that enables a unit or building. */
  const UnlockEffect := 2

  // ----- publishing a sequence of groups -----

  /** Publishes the present groups in order; the shape every pass of this module has. */
  function PublishAll(gs: seq<Option<TechGroup>>, reg: Registry): (r: Registry)
    ensures TechFrame(reg, r)
    decreases |gs|
  {
    if |gs| == 0 then reg
    else
      var reg' := match gs[0] case None => reg case Some(g) => Publish(g, reg);
      PublishAll(gs[1..], reg')
  }

  /** `gs[i]` is a group for tech `t`. */
  predicate ForTech(gs: seq<Option<TechGroup>>, i: int, t: int)
    requires 0 <= i < |gs|
  {
    gs[i].Some? && gs[i].value.techId == t
  }

  /** A tech id no group carries keeps its old entries. */
  lemma {:induction false} PublishAllUntouched(gs: seq<Option<TechGroup>>, reg: Registry, t: int)
    requires forall i :: 0 <= i < |gs| ==> !ForTech(gs, i, t)
    ensures Get(PublishAll(gs, reg).techGroups, t) == Get(reg.techGroups, t)
    ensures forall h :: Get(KindIndex(PublishAll(gs, reg), h), t) == Get(KindIndex(reg, h), t)
    decreases |gs|
  {
    if |gs| > 0 {
      var reg' := match gs[0] case None => reg case Some(g) => Publish(g, reg);
      forall i | 0 <= i < |gs[1..]| ensures !ForTech(gs[1..], i, t) {
        assert !ForTech(gs, i + 1, t);
      }
      PublishAllUntouched(gs[1..], reg', t);
      assert !ForTech(gs, 0, t);
    }
  }

  /** In `tech_groups` the last group published for a tech id is the one that stays. */
  lemma {:induction false} PublishAllLatest(gs: seq<Option<TechGroup>>, reg: Registry, i: nat)
    requires i < |gs| && gs[i].Some?
    requires forall j :: i < j < |gs| ==> !ForTech(gs, j, gs[i].value.techId)
    ensures Get(PublishAll(gs, reg).techGroups, gs[i].value.techId) == gs[i]
    decreases |gs|
  {
    var reg' := match gs[0] case None => reg case Some(g) => Publish(g, reg);
    var t := gs[i].value.techId;
    if i == 0 {
      forall j | 0 <= j < |gs[1..]| ensures !ForTech(gs[1..], j, t) {
        assert !ForTech(gs, j + 1, t);
      }
      PublishAllUntouched(gs[1..], reg', t);
    } else {
      forall j | i - 1 < j < |gs[1..]| ensures !ForTech(gs[1..], j, t) {
        assert !ForTech(gs, j + 1, t);
      }
      assert gs[1..][i - 1] == gs[i];
      PublishAllLatest(gs[1..], reg', i - 1);
    }
  }

  /** A later group with the same tech id but of another kind does not disturb the kind index. */
  lemma {:induction false} PublishAllLatestOfKind(gs: seq<Option<TechGroup>>, reg: Registry, i: nat)
    requires i < |gs| && gs[i].Some?
    requires forall j :: i < j < |gs| && ForTech(gs, j, gs[i].value.techId) ==> !SameKind(gs[j].value, gs[i].value)
    ensures Get(KindIndex(PublishAll(gs, reg), gs[i].value), gs[i].value.techId) == gs[i]
    decreases |gs|
  {
    var reg' := match gs[0] case None => reg case Some(g) => Publish(g, reg);
    var g := gs[i].value;
    if i == 0 {
      KindIndexStays(gs[1..], reg', g);
    } else {
      forall j | i - 1 < j < |gs[1..]| && ForTech(gs[1..], j, g.techId) ensures !SameKind(gs[1..][j].value, g) {
        assert ForTech(gs, j + 1, g.techId);
      }
      assert gs[1..][i - 1] == gs[i];
      PublishAllLatestOfKind(gs[1..], reg', i - 1);
    }
  }

  lemma {:induction false} KindIndexStays(gs: seq<Option<TechGroup>>, reg: Registry, g: TechGroup)
    requires forall j :: 0 <= j < |gs| && ForTech(gs, j, g.techId) ==> !SameKind(gs[j].value, g)
    ensures Get(KindIndex(PublishAll(gs, reg), g), g.techId) == Get(KindIndex(reg, g), g.techId)
    decreases |gs|
  {
    if |gs| > 0 {
      var reg' := match gs[0] case None => reg case Some(h) => Publish(h, reg);
      forall j | 0 <= j < |gs[1..]| && ForTech(gs[1..], j, g.techId) ensures !SameKind(gs[1..][j].value, g) {
        assert ForTech(gs, j + 1, g.techId);
      }
      KindIndexStays(gs[1..], reg', g);
      if gs[0].Some? {
        var h := gs[0].value;
        if h.techId == g.techId {
          assert ForTech(gs, 0, g.techId);
          assert !SameKind(h, g);
        }
      }
    }
  }

  /** Some group of `gs` carries tech `t` and is of `h`'s kind. */
  ghost predicate Carries(gs: seq<Option<TechGroup>>, h: TechGroup, t: int) {
    exists i :: 0 <= i < |gs| && ForTech(gs, i, t) && SameKind(gs[i].value, h)
  }

  lemma CarriesCons(gs: seq<Option<TechGroup>>, h: TechGroup, t: int)
    requires |gs| > 0
    ensures Carries(gs, h, t) <==> (ForTech(gs, 0, t) && SameKind(gs[0].value, h)) || Carries(gs[1..], h, t)
  {
    if Carries(gs, h, t) {
      var i :| 0 <= i < |gs| && ForTech(gs, i, t) && SameKind(gs[i].value, h);
      if i > 0 {
        assert ForTech(gs[1..], i - 1, t) && SameKind(gs[1..][i - 1].value, h);
      }
    }
    if Carries(gs[1..], h, t) {
      var i :| 0 <= i < |gs[1..]| && ForTech(gs[1..], i, t) && SameKind(gs[1..][i].value, h);
      assert ForTech(gs, i + 1, t) && SameKind(gs[i + 1].value, h);
    }
  }

  /** A kind index holds a tech id exactly when it held it before or some group of that kind carries it. */
  lemma {:induction false} PublishAllHas(gs: seq<Option<TechGroup>>, reg: Registry, h: TechGroup, t: int)
    ensures Has(KindIndex(PublishAll(gs, reg), h), t) <==> Has(KindIndex(reg, h), t) || Carries(gs, h, t)
    decreases |gs|
  {
    if |gs| > 0 {
      var reg' := match gs[0] case None => reg case Some(g) => Publish(g, reg);
      assert PublishAll(gs, reg) == PublishAll(gs[1..], reg');
      PublishAllHas(gs[1..], reg', h, t);
      CarriesCons(gs, h, t);
      if gs[0].Some? {
        PublishHas(gs[0].value, reg, h, t);
      }
    }
  }

  lemma PublishHas(g: TechGroup, reg: Registry, h: TechGroup, t: int)
    ensures Has(KindIndex(Publish(g, reg), h), t) <==> Has(KindIndex(reg, h), t) || (g.techId == t && SameKind(g, h))
  {
    HasGet(KindIndex(Publish(g, reg), h), t);
    HasGet(KindIndex(reg, h), t);
  }

  // ----- tech connections -----

  /** The loop over the unlock effects leaves the `attr_a` of the last one it read. */
  function LastAttrA(effects: seq<Effect>, current: int): (r: int)
    ensures |effects| > 0 ==> r == effects[|effects| - 1].attrA
    ensures |effects| == 0 ==> r == current
    decreases |effects|
  {
    if |effects| == 0 then current else LastAttrA(effects[1..], effects[0].attrA)
  }

  /** Shown in the age progress bar: an age-up tech or a connection in line mode 0. */
  predicate IsAgeUp(tech: Tech, conn: TechConnection) {
    tech.techType == Some(AgeTechType) || conn.lineMode == 0
  }

  /** The type-2 effects of a tech's bundle. */
  function Unlocks(ds: Dataset, tech: Tech): seq<Effect>
    requires 0 <= tech.effectBundleId < |ds.bundles|
  {
    EffectsOfType(ds.bundles[tech.effectBundleId], UnlockEffect)
  }

  /**
   * One iteration of the tech-connection loop: the group it publishes, if any.
   * `upgrades` is `building_upgrades`, filled by the building pass.
   */
  function Classify(ds: Dataset, techId: int, conn: TechConnection, upgrades: Dict<TechGroup>): (r: Result<Option<TechGroup>, Error>)
    ensures !(0 <= techId < |ds.techs|) ==> r == Failure(MissingKey(TechsTable, techId))
    ensures 0 <= techId < |ds.techs| ==> var tech := ds.techs[techId];
      && (IsAgeUp(tech, conn) ==>
            match FirstOfKind(conn.refs, AgeTag)
            case None => r == Failure(NoAgeId(techId))
            case Some(age) => r == Success(Some(AgeUpgrade(techId, age))))
      && (!IsAgeUp(tech, conn) && |conn.buildings| == 0 ==> r == Success(Some(StatUpgrade(techId))))
      && (!IsAgeUp(tech, conn) && |conn.buildings| > 0 && Has(upgrades, techId) ==> r == Success(None))
      && (!IsAgeUp(tech, conn) && |conn.buildings| > 0 && !Has(upgrades, techId) ==>
            if !(0 <= tech.effectBundleId < |ds.bundles|) then r == Failure(MissingKey(BundlesTable, tech.effectBundleId))
            else if |Unlocks(ds, tech)| == 0 then r == Success(None)
            else r == Success(Some(BuildingUnlock(techId, Unlocks(ds, tech)[|Unlocks(ds, tech)| - 1].attrA))))
    ensures r.Success? && r.value.Some? ==> r.value.value.techId == techId && !r.value.value.BuildingLineUpgrade?
  {
    var tech :- LookupTech(ds, techId);
    if IsAgeUp(tech, conn) then
      match FirstOfKind(conn.refs, AgeTag)
      case None => Failure(NoAgeId(techId))
      case Some(age) => Success(Some(AgeUpgrade(techId, age)))
    else if |conn.buildings| > 0 then
      if Has(upgrades, techId) then Success(None)
      else
        var bundle :- TechBundle(ds, tech);
        var unlocks := EffectsOfType(bundle, UnlockEffect);
        if |unlocks| > 0 then Success(Some(BuildingUnlock(techId, LastAttrA(unlocks[1..], unlocks[0].attrA))))
        else Success(None)
    else Success(Some(StatUpgrade(techId)))
  }

  /** The tech-connection loop, publishing as it goes and stopping at the first error. */
  function TechConnFold(ds: Dataset, items: seq<(int, TechConnection)>, reg: Registry): (r: Result<Registry, Error>)
    ensures r.Success? ==> TechFrame(reg, r.value)
    decreases |items|
  {
    if |items| == 0 then Success(reg)
    else
      var g :- Classify(ds, items[0].0, items[0].1, reg.buildingUpgrades);
      var reg' := match g case None => reg case Some(x) => Publish(x, reg);
      TechConnFold(ds, items[1..], reg')
  }

  /** Every connection classified against a fixed `building_upgrades`, stopping at the first error. */
  function ClassifyAll(ds: Dataset, items: seq<(int, TechConnection)>, upgrades: Dict<TechGroup>): (r: Result<seq<Option<TechGroup>>, Error>)
    ensures r.Success? ==> |r.value| == |items|
    ensures r.Success? ==> forall i :: 0 <= i < |items| ==> Classify(ds, items[i].0, items[i].1, upgrades) == Success(r.value[i])
    ensures r.Success? <==> forall i :: 0 <= i < |items| ==> Classify(ds, items[i].0, items[i].1, upgrades).Success?
    decreases |items|
  {
    if |items| == 0 then Success([])
    else
      var g :- Classify(ds, items[0].0, items[0].1, upgrades);
      var gs :- ClassifyAll(ds, items[1..], upgrades);
      assert forall i :: 0 < i < |items| ==> items[i] == items[1..][i - 1];
      Success([g] + gs)
  }

  /**
   * The loop never writes `building_upgrades`, so it is the same as classifying
   * every connection first and then publishing the groups in order.
   */
  lemma {:induction false} TechConnFoldIs(ds: Dataset, items: seq<(int, TechConnection)>, reg: Registry)
    ensures var c := ClassifyAll(ds, items, reg.buildingUpgrades);
      TechConnFold(ds, items, reg) == if c.Success? then Success(PublishAll(c.value, reg)) else Failure(c.error)
    decreases |items|
  {
    if |items| > 0 {
      var g := Classify(ds, items[0].0, items[0].1, reg.buildingUpgrades);
      if g.Success? {
        var reg' := match g.value case None => reg case Some(x) => Publish(x, reg);
        assert reg'.buildingUpgrades == reg.buildingUpgrades;
        TechConnFoldIs(ds, items[1..], reg');
        var c := ClassifyAll(ds, items[1..], reg.buildingUpgrades);
        if c.Success? {
          assert ([g.value] + c.value)[1..] == c.value;
        }
      }
    }
  }

  // ----- unit connections, initiated techs, civ bonuses -----

  /** The group a unit connection yields: an unlock for the first unit of a line, a line upgrade for later ones. */
  function UnitConnGroup(unitId: int, c: UnitConnection): Option<TechGroup> {
    if c.requiredResearch == -1 && c.enablingResearch == -1 then None
    else if c.lineMode == 2 then Some(UnitUnlock(c.enablingResearch, c.verticalLine))
    else if c.lineMode == 3 then Some(UnitLineUpgrade(c.requiredResearch, c.verticalLine, unitId))
    else None
  }

  function UnitConnGroups(items: seq<(int, UnitConnection)>): (gs: seq<Option<TechGroup>>)
    ensures |gs| == |items|
    ensures forall i :: 0 <= i < |items| ==> gs[i] == UnitConnGroup(items[i].0, items[i].1)
  {
    seq(|items|, i requires 0 <= i < |items| => UnitConnGroup(items[i].0, items[i].1))
  }

  /** The tech a building starts researching when it is created. */
  function InitiatedGroup(unitId: int, u: Unit): Option<TechGroup> {
    match u.researchId
    case None => None
    case Some(rid) => if rid == -1 then None else Some(InitiatedTech(rid, unitId))
  }

  function InitiatedGroups(items: seq<(int, Unit)>): (gs: seq<Option<TechGroup>>)
    ensures |gs| == |items|
    ensures forall i :: 0 <= i < |items| ==> gs[i] == InitiatedGroup(items[i].0, items[i].1)
  {
    seq(|items|, i requires 0 <= i < |items| => InitiatedGroup(items[i].0, items[i].1))
  }

  /** A passive civ bonus: owned by a civ, researched nowhere, absent in full tech mode. */
  function CivBonusGroup(index: int, tech: Tech): Option<TechGroup> {
    if tech.civilizationId <= 0 then None
    else if tech.researchLocationId > 0 then None
    else if tech.fullTechMode != 0 then None
    else Some(CivBonus(index, tech.civilizationId))
  }

  function CivBonusGroups(techs: seq<Tech>): (gs: seq<Option<TechGroup>>)
    ensures |gs| == |techs|
    ensures forall i :: 0 <= i < |techs| ==> gs[i] == CivBonusGroup(i, techs[i])
  {
    seq(|techs|, i requires 0 <= i < |techs| => CivBonusGroup(i, techs[i]))
  }

  /** The whole of `_create_tech_groups`. */
  function CreateTechGroups(ds: Dataset, reg: Registry): (r: Result<Registry, Error>)
    ensures r.Success? ==> TechFrame(reg, r.value)
  {
    var reg1 :- TechConnFold(ds, ds.techConnections.items, reg);
    var reg2 := PublishAll(UnitConnGroups(ds.unitConnections.items), reg1);
    var reg3 := PublishAll(InitiatedGroups(ds.units.items), reg2);
    Success(PublishAll(CivBonusGroups(ds.techs), reg3))
  }

  // ----- what the passes publish -----

  /** A unit unlock is published for a research exactly when a first-of-line connection with some research names it. */
  lemma UnitUnlocksFrom(items: seq<(int, UnitConnection)>, reg: Registry, t: int)
    ensures var r := PublishAll(UnitConnGroups(items), reg);
      Has(r.unitUnlocks, t) <==> (Has(reg.unitUnlocks, t) ||
        exists i :: 0 <= i < |items| && items[i].1.lineMode == 2 && items[i].1.enablingResearch == t
          && !(items[i].1.requiredResearch == -1 && t == -1))
  {
    var gs := UnitConnGroups(items);
    KindIndexOf(PublishAll(gs, reg));
    KindIndexOf(reg);
    PublishAllHas(gs, reg, UnitUnlock(0, 0), t);
    UnlocksCarried(items, t);
  }

  lemma UnlocksCarried(items: seq<(int, UnitConnection)>, t: int)
    ensures Carries(UnitConnGroups(items), UnitUnlock(0, 0), t) <==>
      exists i :: 0 <= i < |items| && items[i].1.lineMode == 2 && items[i].1.enablingResearch == t
        && !(items[i].1.requiredResearch == -1 && t == -1)
  {
    var gs := UnitConnGroups(items);
    if Carries(gs, UnitUnlock(0, 0), t) {
      var i :| 0 <= i < |gs| && ForTech(gs, i, t) && SameKind(gs[i].value, UnitUnlock(0, 0));
      ConnKindAt(items, i, t);
    }
    if exists i :: 0 <= i < |items| && items[i].1.lineMode == 2 && items[i].1.enablingResearch == t && !(items[i].1.requiredResearch == -1 && t == -1) {
      var i :| 0 <= i < |items| && items[i].1.lineMode == 2 && items[i].1.enablingResearch == t
        && !(items[i].1.requiredResearch == -1 && t == -1);
      ConnKindAt(items, i, t);
    }
  }


  /** The kind indexes the unit-connection, unit, tech and civ-bonus passes publish in. */
  lemma KindIndexOf(reg: Registry)
    ensures KindIndex(reg, UnitUnlock(0, 0)) == reg.unitUnlocks
    ensures KindIndex(reg, UnitLineUpgrade(0, 0, 0)) == reg.unitUpgrades
    ensures KindIndex(reg, InitiatedTech(0, 0)) == reg.initiatedTechs
    ensures KindIndex(reg, CivBonus(0, 0)) == reg.civBoni
    ensures KindIndex(reg, AgeUpgrade(7, 1)) == reg.ageUpgrades
  {
  }

  /** Which kind of group, for which tech, one unit connection yields. */
  lemma ConnKindAt(items: seq<(int, UnitConnection)>, i: int, t: int)
    requires 0 <= i < |items|
    ensures var gs := UnitConnGroups(items);
      ForTech(gs, i, t) && SameKind(gs[i].value, UnitUnlock(0, 0)) <==>
        items[i].1.lineMode == 2 && items[i].1.enablingResearch == t && !(items[i].1.requiredResearch == -1 && t == -1)
    ensures var gs := UnitConnGroups(items);
      ForTech(gs, i, t) && SameKind(gs[i].value, UnitLineUpgrade(0, 0, 0)) <==>
        items[i].1.lineMode == 3 && items[i].1.requiredResearch == t && !(items[i].1.enablingResearch == -1 && t == -1)
  {
    assert UnitConnGroups(items)[i] == UnitConnGroup(items[i].0, items[i].1);
  }

  /** A line upgrade is published for a research exactly when a later-in-line connection with some research requires it. */
  lemma UnitUpgradesFrom(items: seq<(int, UnitConnection)>, reg: Registry, t: int)
    ensures var r := PublishAll(UnitConnGroups(items), reg);
      Has(r.unitUpgrades, t) <==> (Has(reg.unitUpgrades, t) ||
        exists i :: 0 <= i < |items| && items[i].1.lineMode == 3 && items[i].1.requiredResearch == t
          && !(items[i].1.enablingResearch == -1 && t == -1))
  {
    var gs := UnitConnGroups(items);
    KindIndexOf(PublishAll(gs, reg));
    KindIndexOf(reg);
    PublishAllHas(gs, reg, UnitLineUpgrade(0, 0, 0), t);
    UpgradesCarried(items, t);
  }

  lemma UpgradesCarried(items: seq<(int, UnitConnection)>, t: int)
    ensures Carries(UnitConnGroups(items), UnitLineUpgrade(0, 0, 0), t) <==>
      exists i :: 0 <= i < |items| && items[i].1.lineMode == 3 && items[i].1.requiredResearch == t
        && !(items[i].1.enablingResearch == -1 && t == -1)
  {
    var gs := UnitConnGroups(items);
    if Carries(gs, UnitLineUpgrade(0, 0, 0), t) {
      var i :| 0 <= i < |gs| && ForTech(gs, i, t) && SameKind(gs[i].value, UnitLineUpgrade(0, 0, 0));
      ConnKindAt(items, i, t);
    }
    if exists i :: 0 <= i < |items| && items[i].1.lineMode == 3 && items[i].1.requiredResearch == t && !(items[i].1.enablingResearch == -1 && t == -1) {
      var i :| 0 <= i < |items| && items[i].1.lineMode == 3 && items[i].1.requiredResearch == t
        && !(items[i].1.enablingResearch == -1 && t == -1);
      ConnKindAt(items, i, t);
    }
  }

  /** An initiated tech is published exactly for the research ids some unit names other than -1. */
  lemma InitiatedFrom(items: seq<(int, Unit)>, reg: Registry, t: int)
    ensures var r := PublishAll(InitiatedGroups(items), reg);
      Has(r.initiatedTechs, t) <==> (Has(reg.initiatedTechs, t) ||
        (t != -1 && exists i :: 0 <= i < |items| && items[i].1.researchId == Some(t)))
  {
    var gs := InitiatedGroups(items);
    KindIndexOf(PublishAll(gs, reg));
    KindIndexOf(reg);
    PublishAllHas(gs, reg, InitiatedTech(0, 0), t);
    InitiatedCarried(items, t);
  }

  lemma InitiatedCarried(items: seq<(int, Unit)>, t: int)
    ensures Carries(InitiatedGroups(items), InitiatedTech(0, 0), t) <==>
      t != -1 && exists i :: 0 <= i < |items| && items[i].1.researchId == Some(t)
  {
    var gs := InitiatedGroups(items);
    if Carries(gs, InitiatedTech(0, 0), t) {
      var i :| 0 <= i < |gs| && ForTech(gs, i, t) && SameKind(gs[i].value, InitiatedTech(0, 0));
      assert gs[i] == InitiatedGroup(items[i].0, items[i].1);
    }
    if t != -1 && exists i :: 0 <= i < |items| && items[i].1.researchId == Some(t) {
      var i :| 0 <= i < |items| && items[i].1.researchId == Some(t);
      assert ForTech(gs, i, t) && SameKind(gs[i].value, InitiatedTech(0, 0));
    }
  }

  /**
   * The unlock stored under a research is `UnitUnlock(research, line)` of the
   * last first-of-line connection that is enabled by it.
   */
  lemma UnitUnlockStored(items: seq<(int, UnitConnection)>, reg: Registry, i: int)
    requires 0 <= i < |items|
    requires items[i].1.lineMode == 2 && !(items[i].1.requiredResearch == -1 && items[i].1.enablingResearch == -1)
    requires forall j :: i < j < |items| && items[j].1.lineMode == 2 && items[j].1.enablingResearch == items[i].1.enablingResearch ==>
      items[j].1.requiredResearch == -1 && items[j].1.enablingResearch == -1
    ensures var c := items[i].1;
      Get(PublishAll(UnitConnGroups(items), reg).unitUnlocks, c.enablingResearch) == Some(UnitUnlock(c.enablingResearch, c.verticalLine))
  {
    var gs := UnitConnGroups(items);
    var t := items[i].1.enablingResearch;
    assert gs[i] == Some(UnitUnlock(t, items[i].1.verticalLine));
    forall j | i < j < |gs| && ForTech(gs, j, t) ensures !SameKind(gs[j].value, gs[i].value) {
      ConnKindAt(items, j, t);
    }
    PublishAllLatestOfKind(gs, reg, i);
    KindIndexOf(PublishAll(gs, reg));
  }

  /**
   * The upgrade stored under a research is `UnitLineUpgrade(research, line,
   * unit)` of the last later-in-line connection that requires it.
   */
  lemma UnitUpgradeStored(items: seq<(int, UnitConnection)>, reg: Registry, i: int)
    requires 0 <= i < |items|
    requires items[i].1.lineMode == 3 && !(items[i].1.requiredResearch == -1 && items[i].1.enablingResearch == -1)
    requires forall j :: i < j < |items| && items[j].1.lineMode == 3 && items[j].1.requiredResearch == items[i].1.requiredResearch ==>
      items[j].1.requiredResearch == -1 && items[j].1.enablingResearch == -1
    ensures var c := items[i].1;
      Get(PublishAll(UnitConnGroups(items), reg).unitUpgrades, c.requiredResearch)
        == Some(UnitLineUpgrade(c.requiredResearch, c.verticalLine, items[i].0))
  {
    var gs := UnitConnGroups(items);
    var t := items[i].1.requiredResearch;
    assert gs[i] == Some(UnitLineUpgrade(t, items[i].1.verticalLine, items[i].0));
    forall j | i < j < |gs| && ForTech(gs, j, t) ensures !SameKind(gs[j].value, gs[i].value) {
      ConnKindAt(items, j, t);
    }
    PublishAllLatestOfKind(gs, reg, i);
    KindIndexOf(PublishAll(gs, reg));
  }

  /** The initiated tech stored under a research is `InitiatedTech(research, unit)` of the last unit naming it. */
  lemma InitiatedStored(items: seq<(int, Unit)>, reg: Registry, i: int, t: int)
    requires 0 <= i < |items|
    requires t != -1 && items[i].1.researchId == Some(t)
    requires forall j :: i < j < |items| ==> items[j].1.researchId != Some(t)
    ensures Get(PublishAll(InitiatedGroups(items), reg).initiatedTechs, t) == Some(InitiatedTech(t, items[i].0))
  {
    var gs := InitiatedGroups(items);
    assert gs[i] == Some(InitiatedTech(t, items[i].0));
    forall j | i < j < |gs| ensures !ForTech(gs, j, t) {
      assert gs[j] == InitiatedGroup(items[j].0, items[j].1);
    }
    PublishAllLatestOfKind(gs, reg, i);
    KindIndexOf(PublishAll(gs, reg));
  }

  /** The civ bonus groups carry their own index as tech id, and are all civ bonuses. */
  lemma CivBonusIndexed(techs: seq<Tech>, i: int, t: int)
    requires 0 <= i < |techs|
    ensures ForTech(CivBonusGroups(techs), i, t) <==> i == t && CivBonusGroup(i, techs[i]).Some?
    ensures CivBonusGroups(techs)[i].Some? ==> CivBonusGroups(techs)[i].value.CivBonus?
  {
  }

  /** Civ bonuses are keyed by tech index, so each passive bonus tech is published, and only those. */
  lemma CivBoniExact(techs: seq<Tech>, reg: Registry, t: int)
    requires reg.civBoni == Empty()
    ensures var r := PublishAll(CivBonusGroups(techs), reg);
      Has(r.civBoni, t) <==> (0 <= t < |techs| && techs[t].civilizationId > 0
        && techs[t].researchLocationId <= 0 && techs[t].fullTechMode == 0)
    ensures var r := PublishAll(CivBonusGroups(techs), reg);
      0 <= t < |techs| && Has(r.civBoni, t) ==> Get(r.civBoni, t) == Some(CivBonus(t, techs[t].civilizationId))
  {
    var gs := CivBonusGroups(techs);
    var h := CivBonus(0, 0);
    var r := PublishAll(gs, reg);
    PublishAllHas(gs, reg, h, t);
    KindIndexOf(reg);
    KindIndexOf(r);
    assert !Has(Empty<TechGroup>(), t);
    var published := 0 <= t < |techs| && CivBonusGroup(t, techs[t]).Some?;
    if published {
      CivBonusIndexed(techs, t, t);
      assert ForTech(gs, t, t) && SameKind(gs[t].value, h);
      forall j | t < j < |gs| ensures !ForTech(gs, j, t) {
        CivBonusIndexed(techs, j, t);
      }
      PublishAllLatestOfKind(gs, reg, t);
    } else {
      forall i | 0 <= i < |gs| ensures !ForTech(gs, i, t) {
        CivBonusIndexed(techs, i, t);
      }
    }
  }

  /**
   * With one connection per tech, each tech-connection group reaches its kind
   * index, and `tech_groups` unless a later group of the same tech replaces it.
   */
  lemma TechConnPublished(ds: Dataset, reg: Registry, i: nat)
    requires DistinctKeys(ds.techConnections)
    requires i < |ds.techConnections.items|
    requires TechConnFold(ds, ds.techConnections.items, reg).Success?
    ensures var items := ds.techConnections.items;
      var c := Classify(ds, items[i].0, items[i].1, reg.buildingUpgrades);
      var r := TechConnFold(ds, items, reg).value;
      c.Success? && (c.value.Some? ==> Get(KindIndex(r, c.value.value), items[i].0) == c.value && Get(r.techGroups, items[i].0) == c.value)
  {
    var items := ds.techConnections.items;
    TechConnFoldIs(ds, items, reg);
    var gs := ClassifyAll(ds, items, reg.buildingUpgrades).value;
    if gs[i].Some? {
      forall j | i < j < |gs| ensures !ForTech(gs, j, gs[i].value.techId) {
        assert items[j].0 != items[i].0;
      }
      PublishAllLatest(gs, reg, i);
      PublishAllLatestOfKind(gs, reg, i);
    }
  }

  // ----- the quirks, on concrete inputs -----

  /** An age-up tech whose research also unlocks a unit loses its `tech_groups` entry to the unit unlock. */
  lemma AgeUpOverwritten(reg: Registry)
    ensures var r := PublishAll([Some(AgeUpgrade(7, 1)), Some(UnitUnlock(7, 4))], reg);
      Get(r.techGroups, 7) == Some(UnitUnlock(7, 4)) && Get(r.ageUpgrades, 7) == Some(AgeUpgrade(7, 1))
  {
    var gs := [Some(AgeUpgrade(7, 1)), Some(UnitUnlock(7, 4))];
    PublishAllLatest(gs, reg, 1);
    PublishAllLatestOfKind(gs, reg, 0);
    KindIndexOf(PublishAll(gs, reg));
  }

  /** A building tech without unlock effects that is no building upgrade yields no group at all. */
  lemma BuildingTechWithoutGroup()
    ensures var ds := Dataset(Empty(), [Tech(None, 0, 0, 0, 0)], [Bundle([Effect(3, 1, 2, 0)], true)], 0, [],
                              Empty(), Empty(), Empty());
      Classify(ds, 0, TechConnection(1, [5], []), Empty()) == Success(None)
  {
  }

  /** Line mode 0 wins over connected buildings: the tech becomes an age upgrade, never a building unlock. */
  lemma AgeUpFirst()
    ensures var ds := Dataset(Empty(), [Tech(None, 0, 0, 0, 0)], [Bundle([Effect(2, 9, 0, 0)], true)], 0, [],
                              Empty(), Empty(), Empty());
      Classify(ds, 0, TechConnection(0, [5], [(AgeTag, 3)]), Empty()) == Success(Some(AgeUpgrade(0, 3)))
  {
  }
}
