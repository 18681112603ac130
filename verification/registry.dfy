/**
 * The conversion container (`GenieObjectContainer`): every index the passes
 * fill, the store of group objects those indices point into, the errors a
 * pass can raise, and the collaborators whose definitions are outside this
 * model (`Tables` for imported constants, `Oracle` for group methods).
 */
module Registry {
  import opened Wrappers
  import opened Dicts
  import opened Records
  import opened Groups

  /** `GenieGarrisonMode`. */
  datatype GarrisonMode = Natural | UnitGarrison | SelfProduced | Monk

  /**
   * Constants imported from modules outside this model: the task group line ids,
   * `AMBIENT_GROUP_LOOKUPS` (its keys), `VARIANT_GROUP_LOOKUPS` (group id to the
   * unit ids of its third component) and the creatable-type sets that are the
   * values of the garrison modes.
   */
  datatype Tables = Tables(
    maleLineId: int,
    femaleLineId: int,
    ambientIds: seq<int>,
    variantLookups: Dict<seq<int>>,
    naturalTypes: set<int>,
    unitGarrisonTypes: set<int>,
    selfProducedTypes: set<int>,
    monkTypes: set<int>)

  function ModeTypes(t: Tables, mode: GarrisonMode): set<int> {
    match mode
    case Natural => t.naturalTypes
    case UnitGarrison => t.unitGarrisonTypes
    case SelfProduced => t.selfProducedTypes
    case Monk => t.monkTypes
  }

  /**
   * Methods of the group classes whose bodies are outside this model, as
   * uninterpreted functions of the group's identity (or of the tech group).
   */
  datatype Oracle = Oracle(
    isCreatable: GroupRef -> bool,
    trainLocationOf: GroupRef -> int,
    isUniqueLine: GroupRef -> bool,
    isGarrison: GroupRef -> bool,
    garrisonModeOf: GroupRef -> GarrisonMode,
    classIdOf: GroupRef -> int,
    hasCommand: (GroupRef, int) -> bool,
    isResearchable: TechGroup -> bool,
    researchLocationOf: TechGroup -> int,
    isUniqueTech: TechGroup -> bool,
    civilizationOf: TechGroup -> int)

  /** The dict a failed lookup was made in. */
  datatype Table =
    | UnitsTable | TechsTable | BundlesTable | UnitConnectionsTable | BuildingConnectionsTable
    | UnitLinesTable | BuildingLinesTable | TaskGroupsTable | CivGroupsTable

  /** Everything that aborts a conversion run. */
  datatype Error =
    | NoPreviousUnit(unitId: int)             // processor.py raises
    | NoPreviousBuilding(buildingId: int)     // processor.py raises
    | NoAgeId(techId: int)                    // processor.py raises
    | MissingKey(table: Table, key: int)      // KeyError of a dict lookup
    | MissingMember(unitId: int, member: string)
    | EmptyLine(ref: GroupRef)                // IndexError of a head lookup
    | UnboundLineId(taskGroupId: int)         // UnboundLocalError in the villager builder

  datatype Registry = Registry(
    groups: map<GroupRef, Group>,
    unitLines: Dict<GroupRef>,
    unitLinesVerticalRef: Dict<GroupRef>,
    buildingLines: Dict<GroupRef>,
    unitRef: Dict<GroupRef>,
    transformGroups: Dict<GroupRef>,
    monkGroups: Dict<GroupRef>,
    taskGroups: Dict<GroupRef>,
    villagerGroups: Dict<GroupRef>,
    ambientGroups: Dict<GroupRef>,
    variantGroups: Dict<GroupRef>,
    terrainGroups: Dict<TerrainGroup>,
    techGroups: Dict<TechGroup>,
    ageUpgrades: Dict<TechGroup>,
    buildingUpgrades: Dict<TechGroup>,
    buildingUnlocks: Dict<TechGroup>,
    statUpgrades: Dict<TechGroup>,
    unitUnlocks: Dict<TechGroup>,
    unitUpgrades: Dict<TechGroup>,
    initiatedTechs: Dict<TechGroup>,
    civBoni: Dict<TechGroup>,
    civGroups: Dict<CivGroup>)

  function EmptyRegistry(): Registry {
    Registry(map[], Empty(), Empty(), Empty(), Empty(), Empty(), Empty(), Empty(), Empty(), Empty(), Empty(),
             Empty(), Empty(), Empty(), Empty(), Empty(), Empty(), Empty(), Empty(), Empty(), Empty(), Empty())
  }

  /** The object behind a reference; a blank group for a reference no builder created. */
  function Deref(groups: map<GroupRef, Group>, ref: GroupRef): Group {
    if ref in groups then groups[ref] else NewGroup(UnitLine, 0)
  }

  /** Storing two objects under one reference leaves only the second. */
  lemma Overwrite(groups: map<GroupRef, Group>, ref: GroupRef, a: Group, b: Group)
    ensures groups[ref := a][ref := b] == groups[ref := b]
  {
  }

  /** `get_head_unit_id()` of a plain line: its first member. */
  function HeadOfLine(groups: map<GroupRef, Group>, ref: GroupRef): (r: Result<int, Error>)
    ensures r.Success? <==> |Deref(groups, ref).line| > 0
    ensures r.Success? ==> r.value == Deref(groups, ref).line[0]
  {
    var g := Deref(groups, ref);
    if |g.line| == 0 then Failure(EmptyLine(ref)) else Success(g.line[0])
  }

  /** `get_head_unit_id()`; a villager group answers with the head of its first variant. */
  function HeadUnitId(groups: map<GroupRef, Group>, ref: GroupRef): Result<int, Error> {
    var g := Deref(groups, ref);
    if g.kind.VillagerLine? then
      if |g.kind.variants| == 0 then Failure(EmptyLine(ref)) else HeadOfLine(groups, g.kind.variants[0])
    else HeadOfLine(groups, ref)
  }

  function Lookup<V>(d: Dict<V>, k: int, table: Table): (r: Result<V, Error>)
    ensures r.Success? <==> Has(d, k)
    ensures r.Success? ==> Get(d, k) == Some(r.value)
    ensures r.Failure? ==> r.error == MissingKey(table, k)
  {
    match Get(d, k)
    case None => Failure(MissingKey(table, k))
    case Some(v) => Success(v)
  }

  /** `genie_units[id]` */
  function LookupUnit(ds: Dataset, id: int): Result<Unit, Error> {
    Lookup(ds.units, id, UnitsTable)
  }

  /** Every one of `ids` is a unit. */
  ghost predicate AllUnits(ds: Dataset, ids: seq<int>) {
    forall i :: 0 <= i < |ids| ==> Has(ds.units, ids[i])
  }

  lemma AllUnitsCons(ds: Dataset, ids: seq<int>)
    requires |ids| > 0
    ensures AllUnits(ds, ids) <==> Has(ds.units, ids[0]) && AllUnits(ds, ids[1..])
  {
    if Has(ds.units, ids[0]) && AllUnits(ds, ids[1..]) {
      forall i | 0 < i < |ids| ensures Has(ds.units, ids[i]) {
        assert ids[i] == ids[1..][i - 1];
      }
    }
  }

  /** `genie_techs[id]`: techs are keyed 0 .. n-1. */
  function LookupTech(ds: Dataset, id: int): (r: Result<Tech, Error>)
    ensures r.Success? <==> 0 <= id < |ds.techs|
    ensures r.Success? ==> r.value == ds.techs[id]
    ensures r.Failure? ==> r.error == MissingKey(TechsTable, id)
  {
    if 0 <= id < |ds.techs| then Success(ds.techs[id]) else Failure(MissingKey(TechsTable, id))
  }

  /** `genie_effect_bundles[tech_effect_id]` of a tech. */
  function TechBundle(ds: Dataset, tech: Tech): (r: Result<Bundle, Error>)
    ensures r.Success? <==> 0 <= tech.effectBundleId < |ds.bundles|
    ensures r.Success? ==> r.value == ds.bundles[tech.effectBundleId]
    ensures r.Failure? ==> r.error == MissingKey(BundlesTable, tech.effectBundleId)
  {
    var id := tech.effectBundleId;
    if 0 <= id < |ds.bundles| then Success(ds.bundles[id]) else Failure(MissingKey(BundlesTable, id))
  }

  /** The index each kind of tech group is published in next to `tech_groups`. */
  function KindIndex(reg: Registry, g: TechGroup): Dict<TechGroup> {
    match g
    case AgeUpgrade(_, _) => reg.ageUpgrades
    case BuildingLineUpgrade(_, _, _) => reg.buildingUpgrades
    case BuildingUnlock(_, _) => reg.buildingUnlocks
    case StatUpgrade(_) => reg.statUpgrades
    case UnitUnlock(_, _) => reg.unitUnlocks
    case UnitLineUpgrade(_, _, _) => reg.unitUpgrades
    case InitiatedTech(_, _) => reg.initiatedTechs
    case CivBonus(_, _) => reg.civBoni
  }

  /** Two groups of the same constructor share their kind index. */
  predicate SameKind(g: TechGroup, h: TechGroup) {
    (g.AgeUpgrade? && h.AgeUpgrade?) || (g.BuildingLineUpgrade? && h.BuildingLineUpgrade?)
    || (g.BuildingUnlock? && h.BuildingUnlock?) || (g.StatUpgrade? && h.StatUpgrade?)
    || (g.UnitUnlock? && h.UnitUnlock?) || (g.UnitLineUpgrade? && h.UnitLineUpgrade?)
    || (g.InitiatedTech? && h.InitiatedTech?) || (g.CivBonus? && h.CivBonus?)
  }

  /** Only `tech_groups` and the kind indexes may differ between the two registries. */
  predicate TechFrame(a: Registry, b: Registry) {
    b == a.(techGroups := b.techGroups, ageUpgrades := b.ageUpgrades, buildingUpgrades := b.buildingUpgrades,
            buildingUnlocks := b.buildingUnlocks, statUpgrades := b.statUpgrades, unitUnlocks := b.unitUnlocks,
            unitUpgrades := b.unitUpgrades, initiatedTechs := b.initiatedTechs, civBoni := b.civBoni)
  }

  lemma SameKindIndex(reg: Registry, g: TechGroup, h: TechGroup)
    requires SameKind(g, h)
    ensures KindIndex(reg, g) == KindIndex(reg, h)
  {
  }

  /** `reg` with the kind index of `g` replaced by `d`. */
  function WithKindIndex(reg: Registry, g: TechGroup, d: Dict<TechGroup>): (r: Registry)
    ensures KindIndex(r, g) == d
    ensures forall h :: !SameKind(g, h) ==> KindIndex(r, h) == KindIndex(reg, h)
    ensures r.techGroups == reg.techGroups && TechFrame(reg, r)
  {
    match g
    case AgeUpgrade(_, _) => reg.(ageUpgrades := d)
    case BuildingLineUpgrade(_, _, _) => reg.(buildingUpgrades := d)
    case BuildingUnlock(_, _) => reg.(buildingUnlocks := d)
    case StatUpgrade(_) => reg.(statUpgrades := d)
    case UnitUnlock(_, _) => reg.(unitUnlocks := d)
    case UnitLineUpgrade(_, _, _) => reg.(unitUpgrades := d)
    case InitiatedTech(_, _) => reg.(initiatedTechs := d)
    case CivBonus(_, _) => reg.(civBoni := d)
  }

  /**
   * `tech_groups.update({g.get_id(): g})` followed by the same update of the
   * group's own kind index; the key is the tech id.
   */
  function Publish(g: TechGroup, reg: Registry): (r: Registry)
    ensures Get(r.techGroups, g.techId) == Some(g)
    ensures forall t :: t != g.techId ==> Get(r.techGroups, t) == Get(reg.techGroups, t)
    ensures forall h :: SameKind(g, h) ==> Get(KindIndex(r, h), g.techId) == Some(g)
    ensures forall h, t :: t != g.techId ==> Get(KindIndex(r, h), t) == Get(KindIndex(reg, h), t)
    ensures forall h :: !SameKind(g, h) ==> KindIndex(r, h) == KindIndex(reg, h)
    ensures TechFrame(reg, r)
  {
    var reg1 := reg.(techGroups := Put(reg.techGroups, g.techId, g));
    var d := Put(KindIndex(reg, g), g.techId, g);
    var r := WithKindIndex(reg1, g, d);
    KindIndexIgnoresTechGroups(reg, reg1.techGroups);
    PublishKinds(g, reg, reg1, d, r);
    r
  }

  lemma KindIndexIgnoresTechGroups(reg: Registry, tg: Dict<TechGroup>)
    ensures forall h :: KindIndex(reg.(techGroups := tg), h) == KindIndex(reg, h)
  {
    forall h ensures KindIndex(reg.(techGroups := tg), h) == KindIndex(reg, h) {
      match h
      case AgeUpgrade(_, _) =>
      case BuildingLineUpgrade(_, _, _) =>
      case BuildingUnlock(_, _) =>
      case StatUpgrade(_) =>
      case UnitUnlock(_, _) =>
      case UnitLineUpgrade(_, _, _) =>
      case InitiatedTech(_, _) =>
      case CivBonus(_, _) =>
    }
  }

  /** The kind indexes after publishing: `g`'s own index gains `g`, the others stay. */
  lemma PublishKinds(g: TechGroup, reg: Registry, reg1: Registry, d: Dict<TechGroup>, r: Registry)
    requires TechFrame(reg, reg1) && d == Put(KindIndex(reg, g), g.techId, g)
    requires KindIndex(r, g) == d
    requires forall h :: !SameKind(g, h) ==> KindIndex(r, h) == KindIndex(reg1, h)
    requires forall h :: KindIndex(reg1, h) == KindIndex(reg, h)
    ensures forall h :: SameKind(g, h) ==> Get(KindIndex(r, h), g.techId) == Some(g)
    ensures forall h, t :: t != g.techId ==> Get(KindIndex(r, h), t) == Get(KindIndex(reg, h), t)
  {
    forall h | SameKind(g, h) ensures KindIndex(reg, h) == KindIndex(reg, g) && KindIndex(r, h) == d {
      SameKindIndex(reg, g, h);
      SameKindIndex(r, g, h);
    }
  }
}
