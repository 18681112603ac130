/**
 * `_link_garrison`: every unit or building line that is a garrison is linked
 * both ways with the unit lines its garrison mode admits, and a monk garrison
 * also with the ambient groups whose head unit is a relic (creatable type 4).
 */
module Garrison {
  import opened Wrappers
  import opened Seqs
  import opened Dicts
  import opened Records
  import opened Groups
  import opened Registry
  import opened Links

  /** Unit classes 13, 51, 54 and 55: siege weapons and trebuchets. */
  const SiegeClasses: set<int> := {13, 51, 54, 55}

  /** Creatable type of a relic. */
  const RelicType := 4

  /** Trait bit 0x02: a ship. */
  predicate IsShip(traitBits: int) {
    HasBit(traitBits, 2)
  }

  /** The `NATURAL` refusals, in the order of the elif chain. */
  predicate NaturalRefuses(ct: int, garrisonType: int, classId: int) {
    if ct == 1 && !HasBit(garrisonType, 1) then true
    else if ct == 2 && !HasBit(garrisonType, 2) then true
    else if ct == 2 && classId in SiegeClasses then true
    else if ct == 3 && !HasBit(garrisonType, 4) then true
    else if ct == 6 && !HasBit(garrisonType, 8) then true
    else false
  }

  /**
   * The chain of `continue`s for one candidate line: `types` is the garrison
   * mode's creatable types, `ct`, `traitBits` and `classId` describe the line's
   * head unit, `created` says whether the garrison creates the line.
   */
  predicate Admits(types: set<int>, mode: GarrisonMode, garrisonType: int, ct: int, traitBits: int, classId: int, created: bool) {
    if ct !in types && !IsShip(traitBits) then false
    else if mode == Natural && NaturalRefuses(ct, garrisonType, classId) then false
    else if mode == UnitGarrison && classId in SiegeClasses then false
    else if mode == SelfProduced && !created then false
    else if IsShip(traitBits) && mode != SelfProduced then false
    else true
  }

  /** What a natural garrison of type `garrisonType` takes, one creatable type at a time. */
  predicate NaturalTakes(ct: int, garrisonType: int, classId: int) {
    && (ct == 1 ==> HasBit(garrisonType, 1))
    && (ct == 2 ==> HasBit(garrisonType, 2) && classId !in SiegeClasses)
    && (ct == 3 ==> HasBit(garrisonType, 4))
    && (ct == 6 ==> HasBit(garrisonType, 8))
  }

  /** The admission rule stated per case: ships only for production, everything else by mode. */
  predicate AdmitsRule(types: set<int>, mode: GarrisonMode, garrisonType: int, ct: int, traitBits: int, classId: int, created: bool) {
    if IsShip(traitBits) then mode == SelfProduced && created
    else
      && ct in types
      && (mode == Natural ==> NaturalTakes(ct, garrisonType, classId))
      && (mode == UnitGarrison ==> classId !in SiegeClasses)
      && (mode == SelfProduced ==> created)
  }

  /** The chain of `continue`s decides exactly as the per-case rule. */
  lemma AdmitsIff(types: set<int>, mode: GarrisonMode, garrisonType: int, ct: int, traitBits: int, classId: int, created: bool)
    ensures Admits(types, mode, garrisonType, ct, traitBits, classId, created) <==>
      AdmitsRule(types, mode, garrisonType, ct, traitBits, classId, created)
  {
    if mode == Natural && !IsShip(traitBits) {
      assert NaturalRefuses(ct, garrisonType, classId) <==> !NaturalTakes(ct, garrisonType, classId);
    }
  }

  /** A ship line is only ever admitted by a self-produced garrison that creates it. */
  lemma ShipsOnlySelfProduced(types: set<int>, mode: GarrisonMode, garrisonType: int, ct: int, traitBits: int, classId: int, created: bool)
    requires IsShip(traitBits)
    ensures Admits(types, mode, garrisonType, ct, traitBits, classId, created) <==> mode == SelfProduced && created
  {
    AdmitsIff(types, mode, garrisonType, ct, traitBits, classId, created);
  }

  /** Siege weapons and trebuchets never go into a unit garrison. */
  lemma SiegeNeverInUnitGarrison(types: set<int>, garrisonType: int, ct: int, traitBits: int, classId: int, created: bool)
    requires classId in SiegeClasses
    ensures !Admits(types, UnitGarrison, garrisonType, ct, traitBits, classId, created)
  {
  }

  // ----- the pass -----

  /** `get_head_unit()`: the unit record of the group's head. */
  function HeadUnit(ds: Dataset, reg: Registry, ref: GroupRef): Result<Unit, Error> {
    var head :- HeadUnitId(reg.groups, ref);
    LookupUnit(ds, head)
  }

  /** `garrison_type` of the garrison's head unit, read only in natural mode. */
  function GarrisonType(mode: GarrisonMode, head: Unit): int {
    if mode == Natural then head.garrisonType else 0
  }

  /** Whether unit line `line` goes into `garrison`; a head unit without a creatable type raises. */
  function LineLink(t: Tables, o: Oracle, ds: Dataset, reg: Registry, garrison: GroupRef, garrisonType: int, line: GroupRef)
    : Result<seq<(GroupRef, GroupRef)>, Error>
  {
    var head :- HeadUnitId(reg.groups, line);
    var u :- LookupUnit(ds, head);
    if u.creatableType.None? then Failure(MissingMember(head, "creatable_type"))
    else
      var mode := o.garrisonModeOf(garrison);
      var created := line in Deref(reg.groups, garrison).creates;
      if Admits(ModeTypes(t, mode), mode, garrisonType, u.creatableType.value, u.traits, o.classIdOf(line), created)
      then Success([(garrison, line)])
      else Success([])
  }

  /** Whether ambient group `ambient` is a relic for a monk garrison. */
  function RelicLink(ds: Dataset, reg: Registry, garrison: GroupRef, ambient: GroupRef): Result<seq<(GroupRef, GroupRef)>, Error> {
    var u :- HeadUnit(ds, reg, ambient);
    if u.creatableType == Some(RelicType) then Success([(garrison, ambient)]) else Success([])
  }

  /** The links one candidate makes: none unless it is a garrison. */
  function GarrisonLinksOf(t: Tables, o: Oracle, ds: Dataset, reg: Registry, garrison: GroupRef): Result<seq<(GroupRef, GroupRef)>, Error> {
    if !o.isGarrison(garrison) then Success([])
    else
      var mode := o.garrisonModeOf(garrison);
      var head :- HeadUnit(ds, reg, garrison);
      var gt := GarrisonType(mode, head);
      var lines :- ConcatMap(Values(reg.unitLines), l => LineLink(t, o, ds, reg, garrison, gt, l));
      var relics :- if mode == Monk then ConcatMap(Values(reg.ambientGroups), a => RelicLink(ds, reg, garrison, a)) else Success([]);
      Success(lines + relics)
  }

  /** `garrison_lines`: the unit lines updated with the building lines. */
  function Candidates(reg: Registry): seq<GroupRef> {
    Values(PutAll(reg.unitLines, reg.buildingLines.items))
  }

  /** The links of every candidate in order; the pass raises exactly when some candidate does, with the first error. */
  function GarrisonLinks(t: Tables, o: Oracle, ds: Dataset, reg: Registry): (r: Result<seq<(GroupRef, GroupRef)>, Error>)
    ensures var cs := Candidates(reg);
      r.Success? <==> forall i :: 0 <= i < |cs| ==> GarrisonLinksOf(t, o, ds, reg, cs[i]).Success?
    ensures var cs := Candidates(reg);
      r.Failure? ==> exists i :: (0 <= i < |cs| && GarrisonLinksOf(t, o, ds, reg, cs[i]) == Failure(r.error)
        && forall j :: 0 <= j < i ==> GarrisonLinksOf(t, o, ds, reg, cs[j]).Success?)
  {
    ConcatMap(Candidates(reg), g => GarrisonLinksOf(t, o, ds, reg, g))
  }

  /** Each link `(garrison, line)` turned around. */
  function Swap(links: seq<(GroupRef, GroupRef)>): (r: seq<(GroupRef, GroupRef)>)
    ensures |r| == |links|
    ensures forall i :: 0 <= i < |links| ==> r[i] == (links[i].1, links[i].0)
  {
    seq(|links|, i requires 0 <= i < |links| => (links[i].1, links[i].0))
  }

  /**
   * Each link appends the garrison to the line's `garrison_locations` and the
   * line to the garrison's `garrison_entities`; the two lists are distinct, so
   * the appends of all links to one list may be done before those to the other.
   */
  function LinkGarrison(t: Tables, o: Oracle, ds: Dataset, reg: Registry): (r: Result<Registry, Error>)
    ensures r.Success? ==> r.value == reg.(groups := r.value.groups)
  {
    var links :- GarrisonLinks(t, o, ds, reg);
    var located := Attach(reg.groups, Swap(links), AppendTo(GarrisonLocations));
    Success(reg.(groups := Attach(located, links, AppendTo(GarrisonEntities))))
  }

  /** Links are made in pairs: a line becomes an entity of a garrison exactly when the garrison becomes its location. */
  lemma GarrisonBothWays(t: Tables, o: Oracle, ds: Dataset, reg: Registry, a: GroupRef, x: GroupRef)
    requires LinkGarrison(t, o, ds, reg).Success?
    ensures var links := GarrisonLinks(t, o, ds, reg).value; var r := LinkGarrison(t, o, ds, reg).value;
      && (x in Deref(r.groups, a).garrisonEntities <==> x in Deref(reg.groups, a).garrisonEntities || (a, x) in links)
      && (a in Deref(r.groups, x).garrisonLocations <==> a in Deref(reg.groups, x).garrisonLocations || (a, x) in links)
    ensures var links := GarrisonLinks(t, o, ds, reg).value; var r := LinkGarrison(t, o, ds, reg).value;
      && |Deref(r.groups, a).garrisonEntities| == |Deref(reg.groups, a).garrisonEntities| + |Targets(links, a)|
      && |Deref(r.groups, x).garrisonLocations| == |Deref(reg.groups, x).garrisonLocations| + |Targets(Swap(links), x)|
  {
    var links := GarrisonLinks(t, o, ds, reg).value;
    EntitiesSide(reg.groups, links, a, x);
    LocationsSide(reg.groups, links, a, x);
  }

  /** The garrison's entities after both batches: the old ones, then the lines linked to it. */
  lemma EntitiesSide(groups: map<GroupRef, Group>, links: seq<(GroupRef, GroupRef)>, a: GroupRef, x: GroupRef)
    ensures var r := Attach(Attach(groups, Swap(links), AppendTo(GarrisonLocations)), links, AppendTo(GarrisonEntities));
      && (x in Deref(r, a).garrisonEntities <==> x in Deref(groups, a).garrisonEntities || (a, x) in links)
      && |Deref(r, a).garrisonEntities| == |Deref(groups, a).garrisonEntities| + |Targets(links, a)|
  {
    var located := Attach(groups, Swap(links), AppendTo(GarrisonLocations));
    AttachSlot(groups, Swap(links), GarrisonLocations, a);
    AttachSlot(located, links, GarrisonEntities, a);
    assert Slot(Deref(located, a), GarrisonEntities) == Slot(Deref(groups, a), GarrisonEntities);
    TargetsIff(links, a, x);
  }

  /** The line's locations after both batches: the old ones, then the garrisons linked with it. */
  lemma LocationsSide(groups: map<GroupRef, Group>, links: seq<(GroupRef, GroupRef)>, a: GroupRef, x: GroupRef)
    ensures var r := Attach(Attach(groups, Swap(links), AppendTo(GarrisonLocations)), links, AppendTo(GarrisonEntities));
      && (a in Deref(r, x).garrisonLocations <==> a in Deref(groups, x).garrisonLocations || (a, x) in links)
      && |Deref(r, x).garrisonLocations| == |Deref(groups, x).garrisonLocations| + |Targets(Swap(links), x)|
  {
    var located := Attach(groups, Swap(links), AppendTo(GarrisonLocations));
    AttachSlot(groups, Swap(links), GarrisonLocations, x);
    AttachSlot(located, links, GarrisonEntities, x);
    assert Slot(Deref(located, x), GarrisonLocations) == Slot(Deref(groups, x), GarrisonLocations) + Targets(Swap(links), x);
    TargetsIff(Swap(links), x, a);
    assert (x, a) in Swap(links) <==> (a, x) in links by {
      if (a, x) in links {
        var i :| 0 <= i < |links| && links[i] == (a, x);
        assert Swap(links)[i] == (x, a);
      }
    }
  }

  /** What justifies a link from a line to a garrison: the mode admits the line's head unit. */
  ghost predicate AdmittedLine(t: Tables, o: Oracle, ds: Dataset, reg: Registry, garrison: GroupRef, line: GroupRef) {
    var mode := o.garrisonModeOf(garrison);
    && HeadUnit(ds, reg, garrison).Success?
    && HeadUnit(ds, reg, line).Success?
    && HeadUnit(ds, reg, line).value.creatableType.Some?
    && AdmitsRule(ModeTypes(t, mode), mode, GarrisonType(mode, HeadUnit(ds, reg, garrison).value),
                  HeadUnit(ds, reg, line).value.creatableType.value, HeadUnit(ds, reg, line).value.traits,
                  o.classIdOf(line), line in Deref(reg.groups, garrison).creates)
  }

  /** What justifies a link from an ambient group to a monk garrison: its head unit is a relic. */
  ghost predicate RelicFor(o: Oracle, ds: Dataset, reg: Registry, garrison: GroupRef, ambient: GroupRef) {
    && o.garrisonModeOf(garrison) == Monk
    && HeadUnit(ds, reg, ambient).Success?
    && HeadUnit(ds, reg, ambient).value.creatableType == Some(RelicType)
  }

  /** A link from one unit line of a garrison's lines pass is an admitted line. */
  lemma LineLinksSound(t: Tables, o: Oracle, ds: Dataset, reg: Registry, g: GroupRef, gt: int, p: (GroupRef, GroupRef))
    requires o.isGarrison(g) && HeadUnit(ds, reg, g).Success?
    requires gt == GarrisonType(o.garrisonModeOf(g), HeadUnit(ds, reg, g).value)
    requires ConcatMap(Values(reg.unitLines), l => LineLink(t, o, ds, reg, g, gt, l)).Success?
    requires p in ConcatMap(Values(reg.unitLines), l => LineLink(t, o, ds, reg, g, gt, l)).value
    ensures p.0 == g && p.1 in Values(reg.unitLines) && AdmittedLine(t, o, ds, reg, g, p.1)
  {
    var ls := Values(reg.unitLines);
    var j :| 0 <= j < |ls| && LineLink(t, o, ds, reg, g, gt, ls[j]).Success?
      && p in LineLink(t, o, ds, reg, g, gt, ls[j]).value;
    LineLinkSound(t, o, ds, reg, g, gt, ls[j], p);
  }

  /** The link one unit line yields, if any, joins the garrison with that admitted line. */
  lemma LineLinkSound(t: Tables, o: Oracle, ds: Dataset, reg: Registry, g: GroupRef, gt: int, x: GroupRef, p: (GroupRef, GroupRef))
    requires HeadUnit(ds, reg, g).Success?
    requires gt == GarrisonType(o.garrisonModeOf(g), HeadUnit(ds, reg, g).value)
    requires LineLink(t, o, ds, reg, g, gt, x).Success? && p in LineLink(t, o, ds, reg, g, gt, x).value
    ensures p == (g, x) && AdmittedLine(t, o, ds, reg, g, x)
  {
    var mode := o.garrisonModeOf(g);
    var u := HeadUnit(ds, reg, x).value;
    AdmitsIff(ModeTypes(t, mode), mode, gt, u.creatableType.value, u.traits, o.classIdOf(x), x in Deref(reg.groups, g).creates);
  }

  /** A link from a monk garrison's relic pass is a relic. */
  lemma RelicLinksSound(o: Oracle, ds: Dataset, reg: Registry, g: GroupRef, p: (GroupRef, GroupRef))
    requires o.garrisonModeOf(g) == Monk
    requires ConcatMap(Values(reg.ambientGroups), a => RelicLink(ds, reg, g, a)).Success?
    requires p in ConcatMap(Values(reg.ambientGroups), a => RelicLink(ds, reg, g, a)).value
    ensures p.0 == g && p.1 in Values(reg.ambientGroups) && RelicFor(o, ds, reg, g, p.1)
  {
    var ambients := Values(reg.ambientGroups);
    var j :| 0 <= j < |ambients| && RelicLink(ds, reg, g, ambients[j]).Success?
      && p in RelicLink(ds, reg, g, ambients[j]).value;
    RelicLinkSound(o, ds, reg, g, ambients[j], p);
  }

  /** The link one ambient group yields, if any, joins the monk garrison with that relic. */
  lemma RelicLinkSound(o: Oracle, ds: Dataset, reg: Registry, g: GroupRef, a: GroupRef, p: (GroupRef, GroupRef))
    requires o.garrisonModeOf(g) == Monk
    requires RelicLink(ds, reg, g, a).Success? && p in RelicLink(ds, reg, g, a).value
    ensures p == (g, a) && RelicFor(o, ds, reg, g, a)
  {
  }

  /** The links one candidate makes all start at that candidate, which is a garrison. */
  lemma LinksOfSound(t: Tables, o: Oracle, ds: Dataset, reg: Registry, g: GroupRef, p: (GroupRef, GroupRef))
    requires GarrisonLinksOf(t, o, ds, reg, g).Success?
    requires p in GarrisonLinksOf(t, o, ds, reg, g).value
    ensures p.0 == g && o.isGarrison(g)
    ensures (p.1 in Values(reg.unitLines) && AdmittedLine(t, o, ds, reg, g, p.1))
      || (p.1 in Values(reg.ambientGroups) && RelicFor(o, ds, reg, g, p.1))
  {
    var mode := o.garrisonModeOf(g);
    var gt := GarrisonType(mode, HeadUnit(ds, reg, g).value);
    var lines := ConcatMap(Values(reg.unitLines), l => LineLink(t, o, ds, reg, g, gt, l));
    if p in lines.value {
      LineLinksSound(t, o, ds, reg, g, gt, p);
    } else {
      RelicLinksSound(o, ds, reg, g, p);
    }
  }

  /** Every link joins a garrison with a unit line its mode admits or, for monks, with a relic. */
  lemma GarrisonLinksSound(t: Tables, o: Oracle, ds: Dataset, reg: Registry, g: GroupRef, x: GroupRef)
    requires GarrisonLinks(t, o, ds, reg).Success?
    requires (g, x) in GarrisonLinks(t, o, ds, reg).value
    ensures g in Candidates(reg) && o.isGarrison(g)
    ensures (x in Values(reg.unitLines) && AdmittedLine(t, o, ds, reg, g, x))
      || (x in Values(reg.ambientGroups) && RelicFor(o, ds, reg, g, x))
  {
    var cs := Candidates(reg);
    var i :| 0 <= i < |cs| && GarrisonLinksOf(t, o, ds, reg, cs[i]).Success?
      && (g, x) in GarrisonLinksOf(t, o, ds, reg, cs[i]).value;
    LinksOfSound(t, o, ds, reg, cs[i], (g, x));
  }

  /** Every garrison is linked with every unit line its mode admits and, in monk mode, with every relic. */
  lemma GarrisonLinksComplete(t: Tables, o: Oracle, ds: Dataset, reg: Registry, g: GroupRef, x: GroupRef)
    requires GarrisonLinks(t, o, ds, reg).Success?
    requires g in Candidates(reg) && o.isGarrison(g)
    requires (x in Values(reg.unitLines) && AdmittedLine(t, o, ds, reg, g, x))
      || (x in Values(reg.ambientGroups) && RelicFor(o, ds, reg, g, x))
    ensures (g, x) in GarrisonLinks(t, o, ds, reg).value
  {
    var cs := Candidates(reg);
    var i :| 0 <= i < |cs| && cs[i] == g;
    assert GarrisonLinksOf(t, o, ds, reg, cs[i]).Success?;
    LinksOfComplete(t, o, ds, reg, g, x);
  }

  /** A candidate garrison's own links include every admitted line and, for a monk garrison, every relic. */
  lemma LinksOfComplete(t: Tables, o: Oracle, ds: Dataset, reg: Registry, g: GroupRef, x: GroupRef)
    requires GarrisonLinksOf(t, o, ds, reg, g).Success? && o.isGarrison(g)
    requires (x in Values(reg.unitLines) && AdmittedLine(t, o, ds, reg, g, x))
      || (x in Values(reg.ambientGroups) && RelicFor(o, ds, reg, g, x))
    ensures (g, x) in GarrisonLinksOf(t, o, ds, reg, g).value
  {
    var mode := o.garrisonModeOf(g);
    var gt := GarrisonType(mode, HeadUnit(ds, reg, g).value);
    var lines := ConcatMap(Values(reg.unitLines), l => LineLink(t, o, ds, reg, g, gt, l));
    if x in Values(reg.unitLines) && AdmittedLine(t, o, ds, reg, g, x) {
      var j :| 0 <= j < |Values(reg.unitLines)| && Values(reg.unitLines)[j] == x;
      assert LineLink(t, o, ds, reg, g, gt, Values(reg.unitLines)[j]).Success?;
      LineLinkComplete(t, o, ds, reg, g, gt, x);
      assert (g, x) in lines.value;
    } else {
      var j :| 0 <= j < |Values(reg.ambientGroups)| && Values(reg.ambientGroups)[j] == x;
      var relics := ConcatMap(Values(reg.ambientGroups), a => RelicLink(ds, reg, g, a));
      assert (g, x) in RelicLink(ds, reg, g, Values(reg.ambientGroups)[j]).value;
      assert (g, x) in relics.value;
    }
  }

  /** An admitted line yields its link. */
  lemma LineLinkComplete(t: Tables, o: Oracle, ds: Dataset, reg: Registry, g: GroupRef, gt: int, x: GroupRef)
    requires AdmittedLine(t, o, ds, reg, g, x)
    requires gt == GarrisonType(o.garrisonModeOf(g), HeadUnit(ds, reg, g).value)
    requires LineLink(t, o, ds, reg, g, gt, x).Success?
    ensures (g, x) in LineLink(t, o, ds, reg, g, gt, x).value
  {
    var mode := o.garrisonModeOf(g);
    var u := HeadUnit(ds, reg, x).value;
    AdmitsIff(ModeTypes(t, mode), mode, gt, u.creatableType.value, u.traits, o.classIdOf(x), x in Deref(reg.groups, g).creates);
  }

  /** In the linked pass, a ship line sits only in a self-produced garrison that creates it. */
  lemma ShipLinksSelfProduced(t: Tables, o: Oracle, ds: Dataset, reg: Registry, g: GroupRef, x: GroupRef)
    requires GarrisonLinks(t, o, ds, reg).Success?
    requires (g, x) in GarrisonLinks(t, o, ds, reg).value
    requires HeadUnit(ds, reg, x).Success? && IsShip(HeadUnit(ds, reg, x).value.traits)
    requires !RelicFor(o, ds, reg, g, x)
    ensures o.garrisonModeOf(g) == SelfProduced && x in Deref(reg.groups, g).creates
  {
    GarrisonLinksSound(t, o, ds, reg, g, x);
  }

  /** In the linked pass, no unit garrison holds a siege line. */
  lemma SiegeLinksNotUnitGarrison(t: Tables, o: Oracle, ds: Dataset, reg: Registry, g: GroupRef, x: GroupRef)
    requires GarrisonLinks(t, o, ds, reg).Success?
    requires (g, x) in GarrisonLinks(t, o, ds, reg).value
    requires o.classIdOf(x) in SiegeClasses
    ensures o.garrisonModeOf(g) != UnitGarrison
  {
    GarrisonLinksSound(t, o, ds, reg, g, x);
  }
}
