/**
 * The processor's two stages in order: the groups are created from the
 * sanitized dataset, then linked with each other.
 */
module Pipeline {
  import opened Wrappers
  import opened Records
  import opened Registry
  import Sanitizer
  import UnitLines
  import BuildingLines
  import Villagers
  import AuxGroups
  import TechGroups
  import Linkers
  import Garrison

  /** The `_create_*` passes for unit, building and villager lines, each seeing the lines before it. */
  function CreateLines(t: Tables, ds: Dataset, start: Registry): Result<Registry, Error> {
    var r1 :- UnitLines.CreateUnitLines(ds, start);
    var r2 :- UnitLines.CreateExtraUnitLines(ds, r1);
    var r3 :- BuildingLines.CreateBuildingLines(ds, r2);
    Villagers.CreateVillagerGroups(t, ds, r3)
  }

  /** The remaining `_create_*` passes, on top of the lines. */
  function CreateGroups(t: Tables, ds: Dataset, start: Registry): Result<Registry, Error> {
    var r4 :- CreateLines(t, ds, start);
    var r5 :- AuxGroups.CreateAmbientGroups(t, ds, r4);
    var r6 :- AuxGroups.CreateVariantGroups(t, ds, r5);
    var r7 :- TechGroups.CreateTechGroups(ds, AuxGroups.CreateTerrainGroups(ds, r6));
    Success(AuxGroups.CreateCivGroups(ds, r7))
  }

  /**
   * The `_link_*` passes. Linking creates, drops and re-keys no group: only
   * the group contents, the unit-to-building index and the civ groups change.
   */
  function LinkGroups(t: Tables, o: Oracle, ds: Dataset, reg: Registry): (r: Result<Registry, Error>)
    ensures r.Success? ==> r.value == reg.(groups := r.value.groups, unitRef := r.value.unitRef, civGroups := r.value.civGroups)
  {
    var r1 :- Linkers.LinkBuildingUpgrades(ds, reg);
    var r2 :- Linkers.LinkCreatables(o, r1);
    var r3 :- Linkers.LinkResearchables(o, r2);
    var r4 :- Linkers.LinkCivUniques(ds, o, r3);
    var r5 :- Linkers.LinkDropsites(ds, r4);
    var r6 :- Garrison.LinkGarrison(t, o, ds, r5);
    Linkers.LinkTradePosts(ds, o, r6)
  }

  /** `_processor` on the dataset `_pre_processor` produced, whose group tables start out as `start`. */
  function Process(t: Tables, o: Oracle, ds: Dataset, start: Registry): (r: Result<Registry, Error>)
    ensures r.Success? ==> CreateGroups(t, ds, start).Success?
    ensures r.Success? ==> var c := CreateGroups(t, ds, start).value;
      r.value == c.(groups := r.value.groups, unitRef := r.value.unitRef, civGroups := r.value.civGroups)
  {
    var created :- CreateGroups(t, ds, start);
    LinkGroups(t, o, ds, created)
  }

  /** The effect bundles are sanitized while the dataset is read, before any group exists. */
  function Run(t: Tables, o: Oracle, ds: Dataset): Result<Registry, Error> {
    Process(t, o, Sanitizer.Sanitize(ds), EmptyRegistry())
  }
}
