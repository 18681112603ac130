/**
 * The objects the builders create: line groups of units and buildings, tech
 * groups, civilization groups and terrain groups.
 */
module Groups {
  import opened Wrappers
  import opened Seqs

  /**
   * The identity of a line-like group object. Each builder creates at most one
   * object per key, so the constructor and key name the Python object.
   */
  datatype GroupRef =
    | UnitLineRef(lineId: int)       // _create_unit_lines, keyed by vertical line id
    | ExtraLineRef(unitId: int)      // _create_extra_unit_lines
    | BuildingLineRef(lineId: int)   // _create_building_lines
    | VillagerRef(villagerId: int)   // _create_villager_groups (id 118)
    | TaskGroupRef(taskGroupId: int) // task groups of the villager builder
    | AmbientRef(ambientId: int)
    | VariantRef(variantId: int)

  datatype GroupKind =
    | UnitLine
    | TransformLine(headUnitId: int)
    | MonkLine(headUnitId: int, relicUnitId: int)
    | VillagerLine(variants: seq<GroupRef>)
    | TaskLine(taskGroupId: int)
    | BuildingLine
    | StackBuildingLine(stackUnitId: int)
    | AmbientLine
    | VariantLine

  /** The semantic kind a raw tech is classified into; every kind is keyed by `techId`. */
  datatype TechGroup =
    | AgeUpgrade(techId: int, ageId: int)
    | BuildingLineUpgrade(techId: int, lineId: int, buildingId: int)
    | BuildingUnlock(techId: int, buildingId: int)
    | StatUpgrade(techId: int)
    | UnitUnlock(techId: int, lineId: int)
    | UnitLineUpgrade(techId: int, lineId: int, unitId: int)
    | InitiatedTech(techId: int, buildingId: int)
    | CivBonus(techId: int, civId: int)

  /**
   * A line-like group: its ordered member unit ids (`line`) and the links the
   * cross-linkers attach to it.
   */
  datatype Group = Group(
    kind: GroupKind,
    id: int,
    line: seq<int>,
    creates: seq<GroupRef>,
    researches: seq<TechGroup>,
    accepts: set<int>,
    tradingLines: seq<GroupRef>,
    garrisonEntities: seq<GroupRef>,
    garrisonLocations: seq<GroupRef>)

  function NewGroup(kind: GroupKind, id: int): Group {
    Group(kind, id, [], [], [], {}, [], [], [])
  }

  datatype CivGroup = CivGroup(civId: int, bonuses: seq<TechGroup>, uniqueLines: seq<GroupRef>, uniqueTechs: seq<TechGroup>)

  datatype TerrainGroup = TerrainGroup(terrainId: int)

  /** Position of unit `u` in a line. */
  function PositionIn(line: seq<int>, u: int): Option<nat> {
    FirstIndex(line, (x: int) => x == u)
  }

  /**
   * `add_unit(unit, after=...)`, whose body is not part of this model. Assumed
   * behaviour: with a predecessor that is in the line, the unit goes right after
   * the predecessor's (first) position; otherwise it is appended.
   */
  function AddUnit(line: seq<int>, u: int, after: Option<int>): (r: seq<int>)
    ensures multiset(r) == multiset(line) + multiset{u}
    ensures forall x :: x in r <==> x == u || x in line
    ensures |line| > 0 ==> r[0] == line[0]
    ensures after.None? || PositionIn(line, after.value).None? ==> r == line + [u]
    ensures after.Some? && PositionIn(line, after.value).Some? ==>
      var i := PositionIn(line, after.value).value;
      |r| == |line| + 1 && r[..i + 1] == line[..i + 1] && r[i + 1] == u && r[i + 2..] == line[i + 1..]
  {
    match after
    case None => Append(line, u)
    case Some(p) =>
      match PositionIn(line, p)
      case None => Append(line, u)
      case Some(i) => InsertAt(line, i + 1, u)
  }

  function Append(line: seq<int>, u: int): (r: seq<int>)
    ensures multiset(r) == multiset(line) + multiset{u}
    ensures forall x :: x in r <==> x == u || x in line
    ensures |line| > 0 ==> r[0] == line[0]
  {
    line + [u]
  }

  /** `u` placed at position `i`, the elements from `i` on shifted one place back. */
  function InsertAt(line: seq<int>, i: nat, u: int): (r: seq<int>)
    requires 0 < i <= |line|
    ensures multiset(r) == multiset(line) + multiset{u}
    ensures forall x :: x in r <==> x == u || x in line
    ensures r[0] == line[0]
    ensures |r| == |line| + 1 && r[..i] == line[..i] && r[i] == u && r[i + 1..] == line[i..]
  {
    var r := line[..i] + [u] + line[i..];
    assert line == line[..i] + line[i..];
    assert r[..i] == line[..i] && r[i + 1..] == line[i..];
    r
  }
}
