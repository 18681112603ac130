/**
 * The cross-linkers that run after all groups exist: building upgrades found
 * in age-up techs, creatables, researchables, civ uniques, drop sites and
 * trade posts. (The garrison linker has a module of its own.)
 *
 * Apart from `_link_building_upgrades`, every linker decides each link from
 * indices and lines it never writes, so it is modelled as the sequence of its
 * links, computed in the source's loop order and stopping at the first
 * lookup that raises, followed by applying them in that order.
 */
module Linkers {
  import opened Wrappers
  import opened Seqs
  import opened Dicts
  import opened Records
  import opened Groups
  import opened Registry
  import opened Links
  import BuildingLines

  // ----- _link_building_upgrades -----

  /** An effect that moves a building of an existing building line up: `attr_a` is the line, `attr_b` the new building. */
  predicate Relinks(e: Effect, reg: Registry) {
    e.typeId == BuildingLines.UpgradeEffect && Has(reg.buildingLines, e.attrA)
  }

  /** Every group keeps its members and gains nothing but line members at the end. */
  ghost predicate LinesGrow(a: map<GroupRef, Group>, b: map<GroupRef, Group>) {
    forall ref :: Deref(a, ref).line <= Deref(b, ref).line
  }

  /** One iteration of the effect loop: append the upgrade target to the line of the upgrade source. */
  function UpgradeLink(ds: Dataset, e: Effect, reg: Registry): (r: Result<Registry, Error>)
    ensures r.Failure? <==> Relinks(e, reg) && !Has(ds.units, e.attrB)
    ensures r.Failure? ==> r.error == MissingKey(UnitsTable, e.attrB)
    ensures r.Success? && !Relinks(e, reg) ==> r.value == reg
    ensures r.Success? && Relinks(e, reg) ==>
      var ref := Get(reg.buildingLines, e.attrA).value;
      var g := Deref(reg.groups, ref);
      && r.value == reg.(groups := r.value.groups, unitRef := r.value.unitRef)
      && Deref(r.value.groups, ref) == g.(line := g.line + [e.attrB])
      && (forall other :: other != ref ==> Deref(r.value.groups, other) == Deref(reg.groups, other))
      && Get(r.value.unitRef, e.attrB) == Some(ref)
  {
    if e.typeId != BuildingLines.UpgradeEffect then Success(reg)
    else if !Has(reg.buildingLines, e.attrA) then Success(reg)
    else
      var ref := Get(reg.buildingLines, e.attrA).value;
      var _ :- LookupUnit(ds, e.attrB);
      var g := Deref(reg.groups, ref);
      Success(reg.(groups := reg.groups[ref := g.(line := AddUnit(g.line, e.attrB, None))],
                   unitRef := Put(reg.unitRef, e.attrB, ref)))
  }

  function UpgradeEffectsFold(ds: Dataset, effects: seq<Effect>, reg: Registry): (r: Result<Registry, Error>)
    ensures r.Success? ==> r.value == reg.(groups := r.value.groups, unitRef := r.value.unitRef)
    ensures r.Success? ==> LinesGrow(reg.groups, r.value.groups)
    decreases |effects|
  {
    if |effects| == 0 then Success(reg)
    else
      var reg' :- UpgradeLink(ds, effects[0], reg);
      UpgradeEffectsFold(ds, effects[1..], reg')
  }

  /** The loop over `age_upgrades`; an age-up group's effects are those of its tech's bundle. */
  function AgeUpFold(ds: Dataset, ageUps: seq<(int, TechGroup)>, reg: Registry): (r: Result<Registry, Error>)
    ensures r.Success? ==> r.value == reg.(groups := r.value.groups, unitRef := r.value.unitRef)
    ensures r.Success? ==> LinesGrow(reg.groups, r.value.groups)
    decreases |ageUps|
  {
    if |ageUps| == 0 then Success(reg)
    else
      var tech :- LookupTech(ds, ageUps[0].1.techId);
      var bundle :- TechBundle(ds, tech);
      var reg' :- UpgradeEffectsFold(ds, bundle.effects, reg);
      AgeUpFold(ds, ageUps[1..], reg')
  }

  /**
   * `_link_building_upgrades`: it moves only units between lines and into
   * `unit_ref`; no line loses a member.
   */
  function LinkBuildingUpgrades(ds: Dataset, reg: Registry): (r: Result<Registry, Error>)
    ensures r.Success? ==> r.value == reg.(groups := r.value.groups, unitRef := r.value.unitRef)
    ensures r.Success? ==> LinesGrow(reg.groups, r.value.groups)
  {
    AgeUpFold(ds, reg.ageUpgrades.items, reg)
  }

  /** Every relinking effect among `effects` names an existing unit. */
  ghost predicate TargetsExist(ds: Dataset, effects: seq<Effect>, reg: Registry) {
    forall i :: 0 <= i < |effects| && Relinks(effects[i], reg) ==> Has(ds.units, effects[i].attrB)
  }

  lemma TargetsExistCons(ds: Dataset, effects: seq<Effect>, reg: Registry, reg': Registry)
    requires |effects| > 0 && reg'.buildingLines == reg.buildingLines
    ensures TargetsExist(ds, effects, reg) <==>
      (Relinks(effects[0], reg) ==> Has(ds.units, effects[0].attrB)) && TargetsExist(ds, effects[1..], reg')
  {
    assert forall i :: 0 < i < |effects| ==> effects[i] == effects[1..][i - 1];
  }

  /** The effect loop succeeds exactly when every relinking effect names an existing unit. */
  lemma {:induction false} UpgradeEffectsSucceed(ds: Dataset, effects: seq<Effect>, reg: Registry)
    ensures UpgradeEffectsFold(ds, effects, reg).Success? <==> TargetsExist(ds, effects, reg)
    decreases |effects|
  {
    if |effects| > 0 {
      var r := UpgradeLink(ds, effects[0], reg);
      if r.Success? {
        assert UpgradeEffectsFold(ds, effects, reg) == UpgradeEffectsFold(ds, effects[1..], r.value);
        TargetsExistCons(ds, effects, reg, r.value);
        UpgradeEffectsSucceed(ds, effects[1..], r.value);
      } else {
        TargetsExistCons(ds, effects, reg, reg);
      }
    }
  }

  /** After the effect loop, every relinking effect's target is a member of the upgraded line. */
  lemma {:induction false} UpgradeTargetsJoin(ds: Dataset, effects: seq<Effect>, reg: Registry)
    requires UpgradeEffectsFold(ds, effects, reg).Success?
    ensures var r := UpgradeEffectsFold(ds, effects, reg).value;
      forall i :: 0 <= i < |effects| && Relinks(effects[i], reg) ==>
        effects[i].attrB in Deref(r.groups, Get(reg.buildingLines, effects[i].attrA).value).line
    decreases |effects|
  {
    if |effects| > 0 {
      var reg' := UpgradeLink(ds, effects[0], reg).value;
      var r := UpgradeEffectsFold(ds, effects[1..], reg').value;
      UpgradeTargetsJoin(ds, effects[1..], reg');
      assert reg'.buildingLines == reg.buildingLines;
      forall i | 0 <= i < |effects| && Relinks(effects[i], reg)
        ensures effects[i].attrB in Deref(r.groups, Get(reg.buildingLines, effects[i].attrA).value).line
      {
        var ref := Get(reg.buildingLines, effects[i].attrA).value;
        if i == 0 {
          assert effects[0].attrB in Deref(reg'.groups, ref).line;
          assert Deref(reg'.groups, ref).line <= Deref(r.groups, ref).line;
        } else {
          assert effects[i] == effects[1..][i - 1];
        }
      }
    }
  }

  /** The effects of an age-up group's tech bundle, or none when the tech or its bundle is missing. */
  function AgeUpEffects(ds: Dataset, g: TechGroup): seq<Effect> {
    match LookupTech(ds, g.techId)
    case Failure(_) => []
    case Success(tech) =>
      match TechBundle(ds, tech)
      case Failure(_) => []
      case Success(bundle) => bundle.effects
  }

  /**
   * After the age-up loop, every age-up's tech and bundle exist, and every
   * relinking effect of every age-up has its target in the upgraded line.
   */
  lemma {:induction false} AgeUpTargetsJoin(ds: Dataset, ageUps: seq<(int, TechGroup)>, reg: Registry)
    requires AgeUpFold(ds, ageUps, reg).Success?
    ensures forall k :: 0 <= k < |ageUps| ==>
      LookupTech(ds, ageUps[k].1.techId).Success? && TechBundle(ds, LookupTech(ds, ageUps[k].1.techId).value).Success?
    ensures var r := AgeUpFold(ds, ageUps, reg).value;
      forall k, e :: 0 <= k < |ageUps| && e in AgeUpEffects(ds, ageUps[k].1) && Relinks(e, reg) ==>
        e.attrB in Deref(r.groups, Get(reg.buildingLines, e.attrA).value).line
    decreases |ageUps|
  {
    if |ageUps| > 0 {
      var tech := LookupTech(ds, ageUps[0].1.techId).value;
      var effects := TechBundle(ds, tech).value.effects;
      var reg' := UpgradeEffectsFold(ds, effects, reg).value;
      var rest := ageUps[1..];
      var r := AgeUpFold(ds, rest, reg').value;
      assert AgeUpFold(ds, ageUps, reg).value == r;
      AgeUpTargetsJoin(ds, rest, reg');
      UpgradeTargetsJoin(ds, effects, reg);
      forall k | 0 < k < |ageUps| ensures ageUps[k] == rest[k - 1] {
      }
      forall k, e | 0 <= k < |ageUps| && e in AgeUpEffects(ds, ageUps[k].1) && Relinks(e, reg)
        ensures e.attrB in Deref(r.groups, Get(reg.buildingLines, e.attrA).value).line
      {
        if k == 0 {
          var i :| 0 <= i < |effects| && effects[i] == e;
          var ref := Get(reg.buildingLines, e.attrA).value;
          assert Deref(reg'.groups, ref).line <= Deref(r.groups, ref).line;
        } else {
          assert ageUps[k] == rest[k - 1];
        }
      }
    }
  }

  /** `_link_building_upgrades` at pass level: each relinking effect of each age-up joins its target to the line. */
  lemma BuildingUpgradesJoin(ds: Dataset, reg: Registry)
    requires LinkBuildingUpgrades(ds, reg).Success?
    ensures var ageUps := reg.ageUpgrades.items; var r := LinkBuildingUpgrades(ds, reg).value;
      forall k, e :: 0 <= k < |ageUps| && e in AgeUpEffects(ds, ageUps[k].1) && Relinks(e, reg) ==>
        e.attrB in Deref(r.groups, Get(reg.buildingLines, e.attrA).value).line
  {
    AgeUpTargetsJoin(ds, reg.ageUpgrades.items, reg);
  }

  // ----- _link_creatables -----

  /** A creatable unit line goes to the building line it is trained in. */
  function UnitCreatableLink(o: Oracle, reg: Registry, ref: GroupRef): Result<seq<(GroupRef, GroupRef)>, Error> {
    if o.isCreatable(ref) then
      var b :- Lookup(reg.buildingLines, o.trainLocationOf(ref), BuildingLinesTable);
      Success([(b, ref)])
    else Success([])
  }

  /** A creatable building line goes to the villager group that builds it, else to the unit line. */
  function BuildingCreatableLink(o: Oracle, reg: Registry, ref: GroupRef): Result<seq<(GroupRef, GroupRef)>, Error> {
    if !o.isCreatable(ref) then Success([])
    else
      var loc := o.trainLocationOf(ref);
      if Has(reg.villagerGroups, loc) then Success([(Get(reg.villagerGroups, loc).value, ref)])
      else
        var u :- Lookup(reg.unitLines, loc, UnitLinesTable);
        Success([(u, ref)])
  }

  function CreatableLinks(o: Oracle, reg: Registry): Result<seq<(GroupRef, GroupRef)>, Error> {
    var a :- ConcatMap(Values(reg.unitLines), ref => UnitCreatableLink(o, reg, ref));
    var b :- ConcatMap(Values(reg.buildingLines), ref => BuildingCreatableLink(o, reg, ref));
    Success(a + b)
  }

  function LinkCreatables(o: Oracle, reg: Registry): (r: Result<Registry, Error>)
    ensures r.Success? ==> r.value == reg.(groups := r.value.groups)
  {
    var links :- CreatableLinks(o, reg);
    Success(reg.(groups := Attach(reg.groups, links, AppendTo(Creates))))
  }

  /** The linker fails exactly when a creatable line's train location has no line to go to. */
  lemma CreatablesSucceed(o: Oracle, reg: Registry)
    ensures LinkCreatables(o, reg).Success? <==>
      (forall i :: 0 <= i < |reg.unitLines.items| && o.isCreatable(reg.unitLines.items[i].1) ==>
         Has(reg.buildingLines, o.trainLocationOf(reg.unitLines.items[i].1)))
      && (forall i :: 0 <= i < |reg.buildingLines.items| && o.isCreatable(reg.buildingLines.items[i].1) ==>
         Has(reg.villagerGroups, o.trainLocationOf(reg.buildingLines.items[i].1))
         || Has(reg.unitLines, o.trainLocationOf(reg.buildingLines.items[i].1)))
  {
    UnitCreatablesSucceed(o, reg);
    BuildingCreatablesSucceed(o, reg);
  }

  lemma UnitCreatablesSucceed(o: Oracle, reg: Registry)
    ensures ConcatMap(Values(reg.unitLines), ref => UnitCreatableLink(o, reg, ref)).Success? <==>
      forall i :: 0 <= i < |reg.unitLines.items| && o.isCreatable(reg.unitLines.items[i].1) ==>
        Has(reg.buildingLines, o.trainLocationOf(reg.unitLines.items[i].1))
  {
    var vs := Values(reg.unitLines);
    forall i | 0 <= i < |vs|
      ensures UnitCreatableLink(o, reg, vs[i]).Success? <==> (o.isCreatable(vs[i]) ==> Has(reg.buildingLines, o.trainLocationOf(vs[i])))
    {
      HasGet(reg.buildingLines, o.trainLocationOf(vs[i]));
    }
  }

  lemma BuildingCreatablesSucceed(o: Oracle, reg: Registry)
    ensures ConcatMap(Values(reg.buildingLines), ref => BuildingCreatableLink(o, reg, ref)).Success? <==>
      forall i :: 0 <= i < |reg.buildingLines.items| && o.isCreatable(reg.buildingLines.items[i].1) ==>
        Has(reg.villagerGroups, o.trainLocationOf(reg.buildingLines.items[i].1))
        || Has(reg.unitLines, o.trainLocationOf(reg.buildingLines.items[i].1))
  {
    var vs := Values(reg.buildingLines);
    forall i | 0 <= i < |vs|
      ensures BuildingCreatableLink(o, reg, vs[i]).Success? <==>
        (o.isCreatable(vs[i]) ==> Has(reg.villagerGroups, o.trainLocationOf(vs[i])) || Has(reg.unitLines, o.trainLocationOf(vs[i])))
    {
      HasGet(reg.unitLines, o.trainLocationOf(vs[i]));
    }
  }

  /** Every creatable line is afterwards among the creatables of the line at its train location. */
  lemma CreatablesLinked(o: Oracle, reg: Registry)
    requires LinkCreatables(o, reg).Success?
    ensures var r := LinkCreatables(o, reg).value;
      forall i :: 0 <= i < |reg.unitLines.items| && o.isCreatable(reg.unitLines.items[i].1) ==>
        var ref := reg.unitLines.items[i].1;
        ref in Deref(r.groups, Get(reg.buildingLines, o.trainLocationOf(ref)).value).creates
    ensures var r := LinkCreatables(o, reg).value;
      forall i :: 0 <= i < |reg.buildingLines.items| && o.isCreatable(reg.buildingLines.items[i].1) ==>
        var ref := reg.buildingLines.items[i].1;
        var loc := o.trainLocationOf(ref);
        var target := if Has(reg.villagerGroups, loc) then Get(reg.villagerGroups, loc) else Get(reg.unitLines, loc);
        target.Some? && ref in Deref(r.groups, target.value).creates
  {
    var links := CreatableLinks(o, reg).value;
    var r := LinkCreatables(o, reg).value;
    var a := ConcatMap(Values(reg.unitLines), ref => UnitCreatableLink(o, reg, ref)).value;
    var b := ConcatMap(Values(reg.buildingLines), ref => BuildingCreatableLink(o, reg, ref)).value;
    assert links == a + b;
    forall i | 0 <= i < |reg.unitLines.items| && o.isCreatable(reg.unitLines.items[i].1)
      ensures var ref := reg.unitLines.items[i].1;
        ref in Deref(r.groups, Get(reg.buildingLines, o.trainLocationOf(ref)).value).creates
    {
      var ref := reg.unitLines.items[i].1;
      var t := Get(reg.buildingLines, o.trainLocationOf(ref)).value;
      assert (t, ref) in UnitCreatableLink(o, reg, Values(reg.unitLines)[i]).value;
      LinkedInSlot(reg.groups, links, Creates, t, ref);
    }
    forall i | 0 <= i < |reg.buildingLines.items| && o.isCreatable(reg.buildingLines.items[i].1)
      ensures var ref := reg.buildingLines.items[i].1;
        var loc := o.trainLocationOf(ref);
        var target := if Has(reg.villagerGroups, loc) then Get(reg.villagerGroups, loc) else Get(reg.unitLines, loc);
        target.Some? && ref in Deref(r.groups, target.value).creates
    {
      var ref := reg.buildingLines.items[i].1;
      var loc := o.trainLocationOf(ref);
      var target := if Has(reg.villagerGroups, loc) then Get(reg.villagerGroups, loc) else Get(reg.unitLines, loc);
      assert (target.value, ref) in BuildingCreatableLink(o, reg, Values(reg.buildingLines)[i]).value;
      LinkedInSlot(reg.groups, links, Creates, target.value, ref);
    }
  }

  /** Where a creatable building line goes: the villager group at its train location, else the unit line there. */
  function BuildingCreatableTarget(reg: Registry, loc: int): Option<GroupRef> {
    if Has(reg.villagerGroups, loc) then Get(reg.villagerGroups, loc) else Get(reg.unitLines, loc)
  }

  /** A creatable unit line is linked to the building line at its train location, and to nothing else. */
  lemma UnitCreatableLinkSound(o: Oracle, reg: Registry, ref: GroupRef, p: (GroupRef, GroupRef))
    requires UnitCreatableLink(o, reg, ref).Success? && p in UnitCreatableLink(o, reg, ref).value
    ensures p.1 == ref && o.isCreatable(ref) && Get(reg.buildingLines, o.trainLocationOf(ref)) == Some(p.0)
  {
  }

  /** A creatable building line is linked to its villager group or unit line, and to nothing else. */
  lemma BuildingCreatableLinkSound(o: Oracle, reg: Registry, ref: GroupRef, p: (GroupRef, GroupRef))
    requires BuildingCreatableLink(o, reg, ref).Success? && p in BuildingCreatableLink(o, reg, ref).value
    ensures p.1 == ref && o.isCreatable(ref) && BuildingCreatableTarget(reg, o.trainLocationOf(ref)) == Some(p.0)
  {
  }

  /**
   * A group gains a creatable only from the two loops: a creatable unit line
   * trained at that building line, or a creatable building line built by
   * that villager group or unit line.
   */
  lemma CreatablesSound(o: Oracle, reg: Registry, a: GroupRef, x: GroupRef)
    requires LinkCreatables(o, reg).Success?
    ensures var r := LinkCreatables(o, reg).value;
      x in Deref(r.groups, a).creates && x !in Deref(reg.groups, a).creates ==>
        && o.isCreatable(x)
        && ((Get(reg.buildingLines, o.trainLocationOf(x)) == Some(a)
             && exists i :: 0 <= i < |reg.unitLines.items| && reg.unitLines.items[i].1 == x)
            || (BuildingCreatableTarget(reg, o.trainLocationOf(x)) == Some(a)
             && exists i :: 0 <= i < |reg.buildingLines.items| && reg.buildingLines.items[i].1 == x))
  {
    var links := CreatableLinks(o, reg).value;
    var r := LinkCreatables(o, reg).value;
    var us := Values(reg.unitLines);
    var bs := Values(reg.buildingLines);
    var la := ConcatMap(us, ref => UnitCreatableLink(o, reg, ref)).value;
    var lb := ConcatMap(bs, ref => BuildingCreatableLink(o, reg, ref)).value;
    assert links == la + lb;
    assert r.groups == Attach(reg.groups, links, AppendTo(Creates));
    AttachSlot(reg.groups, links, Creates, a);
    TargetsIff(links, a, x);
    if x in Deref(r.groups, a).creates && x !in Deref(reg.groups, a).creates {
      assert (a, x) in links;
      if (a, x) in la {
        var i :| 0 <= i < |us| && UnitCreatableLink(o, reg, us[i]).Success? && (a, x) in UnitCreatableLink(o, reg, us[i]).value;
        UnitCreatableLinkSound(o, reg, us[i], (a, x));
        assert reg.unitLines.items[i].1 == x;
      } else {
        assert (a, x) in lb;
        var i :| 0 <= i < |bs| && BuildingCreatableLink(o, reg, bs[i]).Success? && (a, x) in BuildingCreatableLink(o, reg, bs[i]).value;
        BuildingCreatableLinkSound(o, reg, bs[i], (a, x));
        assert reg.buildingLines.items[i].1 == x;
      }
    }
  }

  // ----- _link_researchables -----

  function ResearchLink(o: Oracle, reg: Registry, t: TechGroup): Result<seq<(GroupRef, TechGroup)>, Error> {
    if o.isResearchable(t) then
      var b :- Lookup(reg.buildingLines, o.researchLocationOf(t), BuildingLinesTable);
      Success([(b, t)])
    else Success([])
  }

  function LinkResearchables(o: Oracle, reg: Registry): (r: Result<Registry, Error>)
    ensures r.Success? ==> r.value == reg.(groups := r.value.groups)
  {
    var links :- ConcatMap(Values(reg.techGroups), t => ResearchLink(o, reg, t));
    Success(reg.(groups := Attach(reg.groups, links, AddResearch)))
  }

  /** Every researchable tech group ends up among the researchables of the building line that researches it. */
  lemma ResearchablesLinked(o: Oracle, reg: Registry)
    ensures LinkResearchables(o, reg).Success? <==>
      forall i :: 0 <= i < |reg.techGroups.items| && o.isResearchable(reg.techGroups.items[i].1) ==>
        Has(reg.buildingLines, o.researchLocationOf(reg.techGroups.items[i].1))
    ensures LinkResearchables(o, reg).Success? ==> var r := LinkResearchables(o, reg).value;
      forall i :: 0 <= i < |reg.techGroups.items| && o.isResearchable(reg.techGroups.items[i].1) ==>
        var t := reg.techGroups.items[i].1;
        t in Deref(r.groups, Get(reg.buildingLines, o.researchLocationOf(t)).value).researches
  {
    var c := ConcatMap(Values(reg.techGroups), t => ResearchLink(o, reg, t));
    if c.Success? {
      var links := c.value;
      var r := LinkResearchables(o, reg).value;
      forall i | 0 <= i < |reg.techGroups.items| && o.isResearchable(reg.techGroups.items[i].1)
        ensures var t := reg.techGroups.items[i].1;
          t in Deref(r.groups, Get(reg.buildingLines, o.researchLocationOf(t)).value).researches
      {
        var t := reg.techGroups.items[i].1;
        var b := Get(reg.buildingLines, o.researchLocationOf(t)).value;
        assert (b, t) in ResearchLink(o, reg, Values(reg.techGroups)[i]).value;
        assert (b, t) in links;
        AttachResearches(reg.groups, links, b);
        TargetsIff(links, b, t);
      }
    }
  }

  /** A research link names the tech group it was computed for and the building line that researches it. */
  lemma ResearchLinkSound(o: Oracle, reg: Registry, t: TechGroup, p: (GroupRef, TechGroup))
    requires ResearchLink(o, reg, t).Success? && p in ResearchLink(o, reg, t).value
    ensures p.1 == t && o.isResearchable(t) && Get(reg.buildingLines, o.researchLocationOf(t)) == Some(p.0)
  {
  }

  /** A group gains a researchable only as the building line that researches a researchable tech group. */
  lemma ResearchablesSound(o: Oracle, reg: Registry, a: GroupRef, t: TechGroup)
    requires LinkResearchables(o, reg).Success?
    ensures var r := LinkResearchables(o, reg).value;
      t in Deref(r.groups, a).researches && t !in Deref(reg.groups, a).researches ==>
        && o.isResearchable(t)
        && Get(reg.buildingLines, o.researchLocationOf(t)) == Some(a)
        && exists i :: 0 <= i < |reg.techGroups.items| && reg.techGroups.items[i].1 == t
  {
    var ts := Values(reg.techGroups);
    var links := ConcatMap(ts, t => ResearchLink(o, reg, t)).value;
    var r := LinkResearchables(o, reg).value;
    assert r.groups == Attach(reg.groups, links, AddResearch);
    AttachResearches(reg.groups, links, a);
    TargetsIff(links, a, t);
    if t in Deref(r.groups, a).researches && t !in Deref(reg.groups, a).researches {
      assert (a, t) in links;
      var i :| 0 <= i < |ts| && ResearchLink(o, reg, ts[i]).Success? && (a, t) in ResearchLink(o, reg, ts[i]).value;
      ResearchLinkSound(o, reg, ts[i], (a, t));
      assert reg.techGroups.items[i].1 == t;
    }
  }

  // ----- _link_civ_uniques -----

  /** The civ of a line: that of the research enabling its head unit, found through `conns`. */
  function UnitLineCiv(ds: Dataset, reg: Registry, ref: GroupRef): Result<int, Error> {
    var head :- HeadUnitId(reg.groups, ref);
    var conn :- Lookup(ds.unitConnections, head, UnitConnectionsTable);
    var tech :- LookupTech(ds, conn.enablingResearch);
    Success(tech.civilizationId)
  }

  function BuildingLineCiv(ds: Dataset, reg: Registry, ref: GroupRef): Result<int, Error> {
    var head :- HeadUnitId(reg.groups, ref);
    var conn :- Lookup(ds.buildingConnections, head, BuildingConnectionsTable);
    var tech :- LookupTech(ds, conn.enablingResearch);
    Success(tech.civilizationId)
  }

  /** `civ_groups[civ]` must exist for each link. */
  function CivLink<T>(reg: Registry, civ: int, x: T): Result<seq<(int, T)>, Error> {
    var _ :- Lookup(reg.civGroups, civ, CivGroupsTable);
    Success([(civ, x)])
  }

  function BonusLink(o: Oracle, reg: Registry, t: TechGroup): Result<seq<(int, TechGroup)>, Error> {
    CivLink(reg, o.civilizationOf(t), t)
  }

  function UniqueUnitLink(ds: Dataset, o: Oracle, reg: Registry, ref: GroupRef): Result<seq<(int, GroupRef)>, Error> {
    if o.isUniqueLine(ref) then
      var civ :- UnitLineCiv(ds, reg, ref);
      CivLink(reg, civ, ref)
    else Success([])
  }

  function UniqueBuildingLink(ds: Dataset, o: Oracle, reg: Registry, ref: GroupRef): Result<seq<(int, GroupRef)>, Error> {
    if o.isUniqueLine(ref) then
      var civ :- BuildingLineCiv(ds, reg, ref);
      CivLink(reg, civ, ref)
    else Success([])
  }

  function UniqueTechLink(o: Oracle, reg: Registry, t: TechGroup): Result<seq<(int, TechGroup)>, Error> {
    if o.isUniqueTech(t) && o.isResearchable(t) then CivLink(reg, o.civilizationOf(t), t)
    else Success([])
  }

  function BonusLinks(o: Oracle, reg: Registry): Result<seq<(int, TechGroup)>, Error> {
    ConcatMap(Values(reg.civBoni), t => BonusLink(o, reg, t))
  }

  /** The unique unit lines, then the unique building lines. */
  function UniqueLineLinks(ds: Dataset, o: Oracle, reg: Registry): Result<seq<(int, GroupRef)>, Error> {
    var units :- ConcatMap(Values(reg.unitLines), ref => UniqueUnitLink(ds, o, reg, ref));
    var buildings :- ConcatMap(Values(reg.buildingLines), ref => UniqueBuildingLink(ds, o, reg, ref));
    Success(units + buildings)
  }

  function UniqueTechLinks(o: Oracle, reg: Registry): Result<seq<(int, TechGroup)>, Error> {
    ConcatMap(Values(reg.techGroups), t => UniqueTechLink(o, reg, t))
  }

  /** The four loops of `_link_civ_uniques`: bonuses, unique unit lines, unique building lines, unique techs. */
  function LinkCivUniques(ds: Dataset, o: Oracle, reg: Registry): (r: Result<Registry, Error>)
    ensures r.Success? ==> r.value == reg.(civGroups := r.value.civGroups)
  {
    var bonuses :- BonusLinks(o, reg);
    var lines :- UniqueLineLinks(ds, o, reg);
    var techs :- UniqueTechLinks(o, reg);
    var civs := UpdateEach(reg.civGroups, bonuses, AddBonus);
    var civs' := UpdateEach(civs, lines, AddUniqueLine);
    Success(reg.(civGroups := UpdateEach(civs', techs, AddUniqueTech)))
  }

  /** Each civ group gains exactly the items linked to it, appended in loop order; no civ group appears or vanishes. */
  lemma CivGroupsAfter(ds: Dataset, o: Oracle, reg: Registry, k: int)
    requires LinkCivUniques(ds, o, reg).Success?
    ensures var r := LinkCivUniques(ds, o, reg).value;
      Get(r.civGroups, k) ==
        match Get(reg.civGroups, k)
        case None => None
        case Some(c) => Some(c.(bonuses := c.bonuses + Targets(BonusLinks(o, reg).value, k),
                                uniqueLines := c.uniqueLines + Targets(UniqueLineLinks(ds, o, reg).value, k),
                                uniqueTechs := c.uniqueTechs + Targets(UniqueTechLinks(o, reg).value, k)))
  {
    var bonuses := BonusLinks(o, reg).value;
    var lines := UniqueLineLinks(ds, o, reg).value;
    var techs := UniqueTechLinks(o, reg).value;
    var civs := UpdateEach(reg.civGroups, bonuses, AddBonus);
    var civs' := UpdateEach(civs, lines, AddUniqueLine);
    UpdateBonuses(reg.civGroups, bonuses, k);
    UpdateUniqueLines(civs, lines, k);
    UpdateUniqueTechs(civs', techs, k);
  }

  /** Every civ bonus ends up in the bonus list of its civ. */
  lemma CivBonusesLinked(ds: Dataset, o: Oracle, reg: Registry, i: nat)
    requires LinkCivUniques(ds, o, reg).Success?
    requires i < |reg.civBoni.items|
    ensures var r := LinkCivUniques(ds, o, reg).value;
      var t := reg.civBoni.items[i].1;
      Get(r.civGroups, o.civilizationOf(t)).Some? && t in Get(r.civGroups, o.civilizationOf(t)).value.bonuses
  {
    var t := reg.civBoni.items[i].1;
    var civ := o.civilizationOf(t);
    var bonuses := BonusLinks(o, reg).value;
    assert (civ, t) in BonusLink(o, reg, Values(reg.civBoni)[i]).value;
    assert (civ, t) in bonuses;
    TargetsIff(bonuses, civ, t);
    CivGroupsAfter(ds, o, reg, civ);
  }

  /** Every unique unit line ends up among the unique lines of the civ of the research enabling its head. */
  lemma UniqueUnitLinesLinked(ds: Dataset, o: Oracle, reg: Registry, i: nat)
    requires LinkCivUniques(ds, o, reg).Success?
    requires i < |reg.unitLines.items| && o.isUniqueLine(reg.unitLines.items[i].1)
    ensures var r := LinkCivUniques(ds, o, reg).value;
      var ref := reg.unitLines.items[i].1;
      var civ := UnitLineCiv(ds, reg, ref);
      civ.Success? && Get(r.civGroups, civ.value).Some? && ref in Get(r.civGroups, civ.value).value.uniqueLines
  {
    var ref := reg.unitLines.items[i].1;
    var units := ConcatMap(Values(reg.unitLines), ref => UniqueUnitLink(ds, o, reg, ref)).value;
    var lines := UniqueLineLinks(ds, o, reg).value;
    assert UniqueUnitLink(ds, o, reg, Values(reg.unitLines)[i]).Success?;
    var civ := UnitLineCiv(ds, reg, ref).value;
    assert (civ, ref) in UniqueUnitLink(ds, o, reg, Values(reg.unitLines)[i]).value;
    assert (civ, ref) in units;
    assert (civ, ref) in lines;
    TargetsIff(lines, civ, ref);
    CivGroupsAfter(ds, o, reg, civ);
  }

  // ----- _link_resources_to_dropsites -----

  /** Gather commands: types 5 and 110. */
  predicate IsGather(c: Command) {
    c.typeId == 5 || c.typeId == 110
  }

  /** The resource a gather command carries: `resource_out`, or `resource_in` when that is -1. */
  function Resource(c: Command): int {
    if c.resourceOut == -1 then c.resourceIn else c.resourceOut
  }

  /** `building_lines[id]` for a drop site id above -1; no drop site otherwise. */
  function DropSite(reg: Registry, id: int): (r: Result<Option<GroupRef>, Error>)
    ensures id <= -1 ==> r == Success(None)
    ensures id > -1 ==> r.Success? == Has(reg.buildingLines, id)
    ensures id > -1 && r.Success? ==> r.value == Get(reg.buildingLines, id)
  {
    if id > -1 then
      var b :- Lookup(reg.buildingLines, id, BuildingLinesTable);
      Success(Some(b))
    else Success(None)
  }

  /** The command loop: each gather command's resource goes to drop site 0, then to drop site 1. */
  function GatherLinks(commands: seq<Command>, d0: Option<GroupRef>, d1: Option<GroupRef>): seq<(GroupRef, int)>
    decreases |commands|
  {
    if |commands| == 0 then []
    else
      var c := commands[0];
      var here := if !IsGather(c) then []
        else (if d0.Some? then [(d0.value, Resource(c))] else []) + (if d1.Some? then [(d1.value, Resource(c))] else []);
      here + GatherLinks(commands[1..], d0, d1)
  }

  /** A drop site accepts exactly the resources of the unit's gather commands. */
  lemma {:induction false} GatherLinksIff(commands: seq<Command>, d0: Option<GroupRef>, d1: Option<GroupRef>, b: GroupRef, res: int)
    ensures (b, res) in GatherLinks(commands, d0, d1) <==>
      (d0 == Some(b) || d1 == Some(b)) && exists i :: 0 <= i < |commands| && IsGather(commands[i]) && Resource(commands[i]) == res
    decreases |commands|
  {
    if |commands| > 0 {
      GatherLinksIff(commands[1..], d0, d1, b, res);
      assert forall i :: 0 < i < |commands| ==> commands[i] == commands[1..][i - 1];
    }
  }

  function UnitDropLinks(ds: Dataset, reg: Registry, unitId: int): Result<seq<(GroupRef, int)>, Error> {
    var u :- LookupUnit(ds, unitId);
    var d0 :- DropSite(reg, u.dropSite0);
    var d1 :- DropSite(reg, u.dropSite1);
    Success(GatherLinks(u.commands, d0, d1))
  }

  /** The variants of a villager group. */
  function Variants(g: Group): seq<GroupRef> {
    if g.kind.VillagerLine? then g.kind.variants else []
  }

  function VariantDropLinks(ds: Dataset, reg: Registry, variant: GroupRef): Result<seq<(GroupRef, int)>, Error> {
    ConcatMap(Deref(reg.groups, variant).line, u => UnitDropLinks(ds, reg, u))
  }

  function VillagerDropLinks(ds: Dataset, reg: Registry, villager: GroupRef): Result<seq<(GroupRef, int)>, Error> {
    ConcatMap(Variants(Deref(reg.groups, villager)), v => VariantDropLinks(ds, reg, v))
  }

  function LinkDropsites(ds: Dataset, reg: Registry): (r: Result<Registry, Error>)
    ensures r.Success? ==> r.value == reg.(groups := r.value.groups)
  {
    var links :- ConcatMap(Values(reg.villagerGroups), v => VillagerDropLinks(ds, reg, v));
    Success(reg.(groups := Attach(reg.groups, links, AddAccept)))
  }

  /**
   * For every unit of every variant of every villager group and every gather
   * command of that unit, each of the unit's drop sites accepts the command's
   * resource afterwards.
   */
  lemma DropsitesComplete(ds: Dataset, reg: Registry, i: nat, j: nat, k: nat, c: nat, b: GroupRef)
    requires LinkDropsites(ds, reg).Success?
    requires i < |reg.villagerGroups.items|
    requires var vg := Deref(reg.groups, reg.villagerGroups.items[i].1);
      j < |Variants(vg)| && k < |Deref(reg.groups, Variants(vg)[j]).line|
    requires var vg := Deref(reg.groups, reg.villagerGroups.items[i].1);
      var uid := Deref(reg.groups, Variants(vg)[j]).line[k];
      uid in Keys(ds.units) && c < |Get(ds.units, uid).value.commands|
    requires var vg := Deref(reg.groups, reg.villagerGroups.items[i].1);
      var u := Get(ds.units, Deref(reg.groups, Variants(vg)[j]).line[k]).value;
      IsGather(u.commands[c]) && (DropSite(reg, u.dropSite0) == Success(Some(b)) || DropSite(reg, u.dropSite1) == Success(Some(b)))
    ensures var vg := Deref(reg.groups, reg.villagerGroups.items[i].1);
      var u := Get(ds.units, Deref(reg.groups, Variants(vg)[j]).line[k]).value;
      Resource(u.commands[c]) in Deref(LinkDropsites(ds, reg).value.groups, b).accepts
  {
    var v := reg.villagerGroups.items[i].1;
    var vg := Deref(reg.groups, v);
    var t := Variants(vg)[j];
    var uid := Deref(reg.groups, t).line[k];
    var u := Get(ds.units, uid).value;
    var res := Resource(u.commands[c]);
    var links := ConcatMap(Values(reg.villagerGroups), v => VillagerDropLinks(ds, reg, v)).value;
    assert Values(reg.villagerGroups)[i] == v;
    var vl := VillagerDropLinks(ds, reg, v).value;
    var tl := VariantDropLinks(ds, reg, t).value;
    var ul := UnitDropLinks(ds, reg, uid);
    assert ul.Success?;
    GatherLinksIff(u.commands, DropSite(reg, u.dropSite0).value, DropSite(reg, u.dropSite1).value, b, res);
    assert (b, res) in ul.value;
    assert (b, res) in tl;
    assert (b, res) in vl;
    assert (b, res) in links;
    AttachAccepts(reg.groups, links, b, res);
  }

  /** `uid` is a unit of some variant of villager group `v`. */
  ghost predicate InVariants(reg: Registry, v: GroupRef, uid: int) {
    var vs := Variants(Deref(reg.groups, v));
    exists j :: 0 <= j < |vs| && uid in Deref(reg.groups, vs[j]).line
  }

  /** `uid` is a unit of some variant of some villager group: a unit the drop-site loop visits. */
  ghost predicate VillagerUnit(reg: Registry, uid: int) {
    exists i :: 0 <= i < |reg.villagerGroups.items| && InVariants(reg, reg.villagerGroups.items[i].1, uid)
  }

  /** The unit exists and neither of its drop site ids raises. */
  predicate DropSitesResolve(ds: Dataset, reg: Registry, uid: int) {
    && Has(ds.units, uid)
    && DropSite(reg, Get(ds.units, uid).value.dropSite0).Success?
    && DropSite(reg, Get(ds.units, uid).value.dropSite1).Success?
  }

  /** The unit exists, `b` is one of its drop sites, and one of its gather commands yields `res`. */
  ghost predicate GathersTo(ds: Dataset, reg: Registry, uid: int, b: GroupRef, res: int) {
    && Has(ds.units, uid)
    && var u := Get(ds.units, uid).value;
    && (DropSite(reg, u.dropSite0) == Success(Some(b)) || DropSite(reg, u.dropSite1) == Success(Some(b)))
    && exists c :: 0 <= c < |u.commands| && IsGather(u.commands[c]) && Resource(u.commands[c]) == res
  }

  lemma UnitDropLinksSucceed(ds: Dataset, reg: Registry, uid: int)
    ensures UnitDropLinks(ds, reg, uid).Success? <==> DropSitesResolve(ds, reg, uid)
  {
  }

  lemma VariantDropLinksSucceed(ds: Dataset, reg: Registry, v: GroupRef)
    ensures VariantDropLinks(ds, reg, v).Success? <==>
      forall uid :: uid in Deref(reg.groups, v).line ==> DropSitesResolve(ds, reg, uid)
  {
    var line := Deref(reg.groups, v).line;
    forall k | 0 <= k < |line| ensures UnitDropLinks(ds, reg, line[k]).Success? <==> DropSitesResolve(ds, reg, line[k]) {
      UnitDropLinksSucceed(ds, reg, line[k]);
    }
  }

  lemma VillagerDropLinksSucceed(ds: Dataset, reg: Registry, v: GroupRef)
    ensures VillagerDropLinks(ds, reg, v).Success? <==>
      forall uid :: InVariants(reg, v, uid) ==> DropSitesResolve(ds, reg, uid)
  {
    var vs := Variants(Deref(reg.groups, v));
    forall j | 0 <= j < |vs|
      ensures VariantDropLinks(ds, reg, vs[j]).Success? <==>
        forall uid :: uid in Deref(reg.groups, vs[j]).line ==> DropSitesResolve(ds, reg, uid)
    {
      VariantDropLinksSucceed(ds, reg, vs[j]);
    }
  }

  /** The drop-site pass raises exactly when a unit it visits is missing or names a drop site that is not a building line. */
  lemma DropsitesSucceed(ds: Dataset, reg: Registry)
    ensures LinkDropsites(ds, reg).Success? <==>
      forall uid :: VillagerUnit(reg, uid) ==> DropSitesResolve(ds, reg, uid)
  {
    var vgs := Values(reg.villagerGroups);
    forall i | 0 <= i < |vgs|
      ensures VillagerDropLinks(ds, reg, vgs[i]).Success? <==>
        forall uid :: InVariants(reg, vgs[i], uid) ==> DropSitesResolve(ds, reg, uid)
    {
      VillagerDropLinksSucceed(ds, reg, vgs[i]);
    }
  }

  lemma UnitDropSound(ds: Dataset, reg: Registry, uid: int, b: GroupRef, res: int)
    requires UnitDropLinks(ds, reg, uid).Success? && (b, res) in UnitDropLinks(ds, reg, uid).value
    ensures GathersTo(ds, reg, uid, b, res)
  {
    var u := Get(ds.units, uid).value;
    GatherLinksIff(u.commands, DropSite(reg, u.dropSite0).value, DropSite(reg, u.dropSite1).value, b, res);
  }

  lemma VariantDropSound(ds: Dataset, reg: Registry, v: GroupRef, b: GroupRef, res: int)
    requires VariantDropLinks(ds, reg, v).Success? && (b, res) in VariantDropLinks(ds, reg, v).value
    ensures exists uid :: uid in Deref(reg.groups, v).line && GathersTo(ds, reg, uid, b, res)
  {
    var line := Deref(reg.groups, v).line;
    var k :| 0 <= k < |line| && UnitDropLinks(ds, reg, line[k]).Success? && (b, res) in UnitDropLinks(ds, reg, line[k]).value;
    UnitDropSound(ds, reg, line[k], b, res);
  }

  lemma VillagerDropSound(ds: Dataset, reg: Registry, v: GroupRef, b: GroupRef, res: int)
    requires VillagerDropLinks(ds, reg, v).Success? && (b, res) in VillagerDropLinks(ds, reg, v).value
    ensures exists uid :: InVariants(reg, v, uid) && GathersTo(ds, reg, uid, b, res)
  {
    var vs := Variants(Deref(reg.groups, v));
    var j :| 0 <= j < |vs| && VariantDropLinks(ds, reg, vs[j]).Success? && (b, res) in VariantDropLinks(ds, reg, vs[j]).value;
    VariantDropSound(ds, reg, vs[j], b, res);
    var uid :| uid in Deref(reg.groups, vs[j]).line && GathersTo(ds, reg, uid, b, res);
    assert InVariants(reg, v, uid);
  }

  /**
   * A building line gains an accepted resource only as a drop site of a unit
   * the loop visits, for a resource one of that unit's gather commands yields.
   */
  lemma DropsitesSound(ds: Dataset, reg: Registry, b: GroupRef, res: int)
    requires LinkDropsites(ds, reg).Success?
    ensures var r := LinkDropsites(ds, reg).value;
      res in Deref(r.groups, b).accepts && res !in Deref(reg.groups, b).accepts ==>
        exists uid :: VillagerUnit(reg, uid) && GathersTo(ds, reg, uid, b, res)
  {
    var vgs := Values(reg.villagerGroups);
    var links := ConcatMap(vgs, v => VillagerDropLinks(ds, reg, v)).value;
    var r := LinkDropsites(ds, reg).value;
    assert r.groups == Attach(reg.groups, links, AddAccept);
    AttachAccepts(reg.groups, links, b, res);
    if res in Deref(r.groups, b).accepts && res !in Deref(reg.groups, b).accepts {
      assert (b, res) in links;
      var i :| 0 <= i < |vgs| && VillagerDropLinks(ds, reg, vgs[i]).Success? && (b, res) in VillagerDropLinks(ds, reg, vgs[i]).value;
      VillagerDropSound(ds, reg, vgs[i], b, res);
      var uid :| InVariants(reg, vgs[i], uid) && GathersTo(ds, reg, uid, b, res);
      assert VillagerUnit(reg, uid);
    }
  }

  // ----- _link_trade_posts -----

  /** The command type of trading. */
  const TradeCommand := 111

  /** The `unit_id` of the first trade command, or -1 when there is none. */
  function TradePostId(commands: seq<Command>): (r: int)
    ensures (forall i :: 0 <= i < |commands| ==> commands[i].typeId != TradeCommand) ==> r == -1
    ensures (exists i :: 0 <= i < |commands| && commands[i].typeId == TradeCommand) ==>
      exists i :: (0 <= i < |commands| && commands[i].typeId == TradeCommand && r == commands[i].unitId
        && forall j :: 0 <= j < i ==> commands[j].typeId != TradeCommand)
  {
    match FirstIndex(commands, (c: Command) => c.typeId == TradeCommand)
    case None => -1
    case Some(i) => commands[i].unitId
  }

  /** The trade post of a trading line: looked up from its head unit's commands. */
  function TradePostOf(ds: Dataset, reg: Registry, ref: GroupRef): Result<GroupRef, Error> {
    var head :- HeadUnitId(reg.groups, ref);
    var u :- LookupUnit(ds, head);
    Lookup(reg.buildingLines, TradePostId(u.commands), BuildingLinesTable)
  }

  function TradeLink(ds: Dataset, o: Oracle, reg: Registry, ref: GroupRef): Result<seq<(GroupRef, GroupRef)>, Error> {
    if o.hasCommand(ref, TradeCommand) then
      var b :- TradePostOf(ds, reg, ref);
      Success([(b, ref)])
    else Success([])
  }

  function LinkTradePosts(ds: Dataset, o: Oracle, reg: Registry): (r: Result<Registry, Error>)
    ensures r.Success? ==> r.value == reg.(groups := r.value.groups)
  {
    var links :- ConcatMap(Values(reg.unitLines), ref => TradeLink(ds, o, reg, ref));
    Success(reg.(groups := Attach(reg.groups, links, AppendTo(TradingLines))))
  }

  /** Every trading unit line ends up among the trading lines of its trade post, and only trading lines are added. */
  lemma TradePostsLinked(ds: Dataset, o: Oracle, reg: Registry, b: GroupRef, x: GroupRef)
    requires LinkTradePosts(ds, o, reg).Success?
    ensures var r := LinkTradePosts(ds, o, reg).value;
      forall i :: 0 <= i < |reg.unitLines.items| && o.hasCommand(reg.unitLines.items[i].1, TradeCommand) ==>
        var ref := reg.unitLines.items[i].1;
        TradePostOf(ds, reg, ref).Success? && ref in Deref(r.groups, TradePostOf(ds, reg, ref).value).tradingLines
    ensures var r := LinkTradePosts(ds, o, reg).value;
      x in Deref(r.groups, b).tradingLines && x !in Deref(reg.groups, b).tradingLines ==>
        o.hasCommand(x, TradeCommand) && TradePostOf(ds, reg, x) == Success(b)
        && exists i :: 0 <= i < |reg.unitLines.items| && reg.unitLines.items[i].1 == x
  {
    TradePostsComplete(ds, o, reg);
    TradePostsSound(ds, o, reg, b, x);
  }

  lemma TradePostsComplete(ds: Dataset, o: Oracle, reg: Registry)
    requires LinkTradePosts(ds, o, reg).Success?
    ensures var r := LinkTradePosts(ds, o, reg).value;
      forall i :: 0 <= i < |reg.unitLines.items| && o.hasCommand(reg.unitLines.items[i].1, TradeCommand) ==>
        var ref := reg.unitLines.items[i].1;
        TradePostOf(ds, reg, ref).Success? && ref in Deref(r.groups, TradePostOf(ds, reg, ref).value).tradingLines
  {
    var links := ConcatMap(Values(reg.unitLines), ref => TradeLink(ds, o, reg, ref)).value;
    var r := LinkTradePosts(ds, o, reg).value;
    assert r.groups == Attach(reg.groups, links, AppendTo(TradingLines));
    forall i | 0 <= i < |reg.unitLines.items| && o.hasCommand(reg.unitLines.items[i].1, TradeCommand)
      ensures var ref := reg.unitLines.items[i].1;
        TradePostOf(ds, reg, ref).Success? && ref in Deref(r.groups, TradePostOf(ds, reg, ref).value).tradingLines
    {
      var ref := reg.unitLines.items[i].1;
      assert TradeLink(ds, o, reg, Values(reg.unitLines)[i]).Success?;
      var t := TradePostOf(ds, reg, ref).value;
      assert (t, ref) in TradeLink(ds, o, reg, Values(reg.unitLines)[i]).value;
      LinkedInSlot(reg.groups, links, TradingLines, t, ref);
    }
  }

  lemma TradePostsSound(ds: Dataset, o: Oracle, reg: Registry, b: GroupRef, x: GroupRef)
    requires LinkTradePosts(ds, o, reg).Success?
    ensures var r := LinkTradePosts(ds, o, reg).value;
      x in Deref(r.groups, b).tradingLines && x !in Deref(reg.groups, b).tradingLines ==>
        o.hasCommand(x, TradeCommand) && TradePostOf(ds, reg, x) == Success(b)
        && exists i :: 0 <= i < |reg.unitLines.items| && reg.unitLines.items[i].1 == x
  {
    var links := ConcatMap(Values(reg.unitLines), ref => TradeLink(ds, o, reg, ref)).value;
    var r := LinkTradePosts(ds, o, reg).value;
    assert r.groups == Attach(reg.groups, links, AppendTo(TradingLines));
    AttachSlot(reg.groups, links, TradingLines, b);
    TargetsIff(links, b, x);
    if x in Deref(r.groups, b).tradingLines && x !in Deref(reg.groups, b).tradingLines {
      assert (b, x) in links;
      var i :| 0 <= i < |Values(reg.unitLines)| && TradeLink(ds, o, reg, Values(reg.unitLines)[i]).Success?
        && (b, x) in TradeLink(ds, o, reg, Values(reg.unitLines)[i]).value;
      TradeLinkSound(ds, o, reg, Values(reg.unitLines)[i], (b, x));
      assert reg.unitLines.items[i].1 == x;
    }
  }

  /** A trade link names the line it was computed for and that line's trade post. */
  lemma TradeLinkSound(ds: Dataset, o: Oracle, reg: Registry, ref: GroupRef, p: (GroupRef, GroupRef))
    requires TradeLink(ds, o, reg, ref).Success? && p in TradeLink(ds, o, reg, ref).value
    ensures p.1 == ref && o.hasCommand(ref, TradeCommand) && TradePostOf(ds, reg, ref) == Success(p.0)
  {
  }
}
