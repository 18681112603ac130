/**
 * The flat records the decoder hands to the engine. Units and the three
 * connection tables are dicts keyed by the record's own id; techs, effect
 * bundles and terrains are keyed by their position in the decoded list, so
 * they are sequences here. Members the source tests with `has_member` are
 * `Option`s; members it reads unconditionally are plain values.
 */
module Records {
  import opened Wrappers
  import opened Seqs
  import opened Dicts
  import opened CrossRefs

  /** One effect of a bundle; only the attributes the engine reads are kept. */
  datatype Effect = Effect(typeId: int, attrA: int, attrB: int, attrD: int)

  /** An effect bundle; the id of an effect is its position in `effects`. */
  datatype Bundle = Bundle(effects: seq<Effect>, sanitized: bool)

  /** `get_effects(effect_type=t)`: the bundle's effects of type `t`, in order. */
  function EffectsOfType(b: Bundle, t: int): (r: seq<Effect>)
    ensures forall i :: 0 <= i < |r| ==> r[i].typeId == t && r[i] in b.effects
    ensures forall e :: e in b.effects && e.typeId == t ==> e in r
  {
    Filter(b.effects, (e: Effect) => e.typeId == t)
  }

  datatype Tech = Tech(
    techType: Option<int>,
    effectBundleId: int,
    civilizationId: int,
    researchLocationId: int,
    fullTechMode: int)

  /** A unit command from the unit's header. */
  datatype Command = Command(typeId: int, resourceIn: int, resourceOut: int, unitId: int)

  datatype Unit = Unit(
    transformUnitId: Option<int>,
    taskGroup: Option<int>,
    stackUnitId: Option<int>,
    headUnitId: Option<int>,
    researchId: Option<int>,
    creatableType: Option<int>,
    traits: int,
    garrisonType: int,
    dropSite0: int,
    dropSite1: int,
    commands: seq<Command>)

  datatype Terrain = Terrain(enabled: int)

  /** `line_mode` 2 marks the first unit of a line, 3 a later one. */
  datatype UnitConnection = UnitConnection(
    lineMode: int,
    verticalLine: int,
    requiredResearch: int,
    enablingResearch: int,
    refs: seq<CrossRef>)

  datatype BuildingConnection = BuildingConnection(enablingResearch: int, refs: seq<CrossRef>)

  datatype TechConnection = TechConnection(lineMode: int, buildings: seq<int>, refs: seq<CrossRef>)

  /** The decoded game data: the input of the engine. */
  datatype Dataset = Dataset(
    units: Dict<Unit>,
    techs: seq<Tech>,
    bundles: seq<Bundle>,
    civCount: nat,
    terrains: seq<Terrain>,
    buildingConnections: Dict<BuildingConnection>,
    unitConnections: Dict<UnitConnection>,
    techConnections: Dict<TechConnection>)

  /** Python truth value of an integer bit test `x & mask`, for a single-bit `mask`. */
  predicate HasBit(x: int, mask: nat)
    requires mask > 0
  {
    (x / mask) % 2 == 1
  }
}
