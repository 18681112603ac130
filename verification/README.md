# openage AoC processor: grouping and linking, modelled in Dafny

openage converts the data of Age of Empires II (the `empires.dat` dump) into its own
object graph. The core of that conversion is `AoCProcessor._processor` in
`openage/convert/processor/aoc/processor.py`, together with `_sanitize_effect_bundles`,
which runs while the dump is read. It turns flat, id-indexed records into groups:

- unit lines, the wildlife lines and building lines;
- the villager group with its task groups;
- ambient, variant, terrain and civilization groups;
- the eight kinds of tech groups.

It then links those groups to each other:

- building upgrades;
- creatables and researchables;
- civ uniques;
- resource drop sites;
- garrisons;
- trade posts.

This project models that core as pure functions over immutable data:

- **Records** (`records.dfy`, `crossrefs.dfy`). Units, techs, effect bundles, terrains and
  the unit/building/tech connections. A connection's parallel arrays of cross-reference
  kinds and ids are modelled as one sequence of `(Kind, id)` pairs.
- **Dicts** (`dicts.dfy`). A Python dict is an association list `Dict<V>`. Iteration
  follows insertion order, and `update` replaces an existing key in place or appends a
  new one.
- **Group identity** (`groups.dfy`). Python object identity is a `GroupRef`. The group
  objects live in a store `map<GroupRef, Group>`, so two indices holding the same ref
  hold the same object.
- **The container** (`registry.dfy`). `GenieObjectContainer` is the `Registry` datatype,
  one field per index the passes fill.
- **Errors** (`registry.dfy`). Every `raise`, `KeyError`, `IndexError` and unbound local
  the code can hit is a `Failure(Error)`. No pass has a precondition.
- **The passes.** One module per group of passes (`sanitizer.dfy`, `unit_lines.dfy`,
  `building_lines.dfy`, `villagers.dfy`, `aux_groups.dfy`, `tech_groups.dfy`),
  followed by the linkers (`links.dfy`, `linkers.dfy`, `garrison.dfy`). `pipeline.dfy`
  runs them in the order `_processor` does.

Most linkers are written in two phases. First the links are computed, as `(target, item)`
pairs in loop order, stopping at the first error. Then they are applied to the group
store. The lookups a linker makes never read the slots it writes, so the result is the
same as the source's interleaved loop. The generic lemmas in `links.dfy` state what
applying a link list does to each group.

Collaborators the core calls but does not define are parameters:

- **Group methods.** `Oracle` holds `is_creatable`, `get_train_location_id`,
  `is_unique`, `is_garrison`, `get_garrison_mode`, `get_class_id`, `has_command`,
  `is_researchable`, `get_research_location_id` and `get_civilization`. Each is a fixed
  function of the group's identity.
- **Imported constants.** `Tables` holds the male and female villager line ids,
  `AMBIENT_GROUP_LOOKUPS`, `VARIANT_GROUP_LOOKUPS` and the creatable-type sets of the
  garrison modes.

## Model

| member | source | states |
|---|---|---|
| Sanitizer.SanitizeEffects | openage/convert/processor/aoc/processor.py:669-682 | the kept effects are renumbered 0 .. count-1 in their original order; count is the number of effects that have a type and are not tech-disable effects without a tech |
| Sanitizer.SanitizeBundle | openage/convert/processor/aoc/processor.py:664-685 | the bundle is marked sanitized; every effect it keeps is a kept effect of the input, and every kept effect of the input is still there |
| Sanitizer.SanitizedCounts | openage/convert/processor/aoc/processor.py:670-682 | a kept effect occurs as often as in the input; a dropped one never occurs |
| Sanitizer.SanitizedPrefix | openage/convert/processor/aoc/processor.py:670-682 | the survivors of a prefix of the effects are a prefix of all survivors, so the relative order is kept |
| Sanitizer.SanitizeIdempotent | openage/convert/processor/aoc/processor.py:653-685 | sanitizing a sanitized bundle changes nothing |
| CrossRefs.FirstOfKind | openage/convert/processor/aoc/processor.py:490-506 | the id paired with the first cross-reference of a kind; none exactly when no cross-reference has that kind |
| CrossRefs.IdsOfKind | openage/convert/processor/aoc/processor.py:574-580 | every id paired with a cross-reference of the kind, in order; empty exactly when there is none, and its first element is the first such id |
| CrossRefs.IdsOfKindFiltered | openage/convert/processor/aoc/processor.py:574-580 | the walk yields exactly the ids of the cross-references tagged with the kind, with nothing skipped, reordered or added |
| CrossRefs.IdsOfKindComplete | openage/convert/processor/aoc/processor.py:574-580 | every cross-reference tagged with the kind contributes its id to the walk |
| Records.EffectsOfType | openage/convert/processor/aoc/processor.py:590 | the bundle's effects of one type: each has the type and belongs to the bundle, and each effect of the type is present |
| Groups.AddUnit | openage/convert/processor/aoc/processor.py:508 | the line gains exactly the new unit; the head stays; with a predecessor in the line the unit goes right after it, otherwise at the end |
| Registry.HeadOfLine | openage/convert/processor/aoc/processor.py:1053 | the head unit id is the first member of the line; an empty line is an error |
| Registry.Lookup | openage/convert/processor/aoc/processor.py:448 | a dict lookup succeeds exactly when the key is present and returns its value; otherwise it raises a KeyError naming the table and key |
| Registry.LookupTech | openage/convert/processor/aoc/processor.py:703 | `genie_techs[id]` succeeds exactly for the indices 0 .. n-1 |
| Registry.TechBundle | openage/convert/processor/aoc/processor.py:734-735 | a tech's effect bundle is found exactly when its bundle id is an index of the bundles |
| Registry.Publish | openage/convert/processor/aoc/processor.py:726-727 | a tech group is stored under its tech id in `tech_groups` and in the index of its own kind; no other key and no other kind index changes |
| UnitLines.Predecessor | openage/convert/processor/aoc/processor.py:484-506 | a first-in-line unit (line mode 2) has no predecessor; otherwise the predecessor is the id paired with the first Unit cross-reference, and the unit raises exactly when there is none |
| UnitLines.Place | openage/convert/processor/aoc/processor.py:484-508 | placing succeeds exactly when the predecessor is found; only the line's own group changes, by adding the unit after its predecessor |
| UnitLines.Step | openage/convert/processor/aoc/processor.py:446-508 | a missing unit raises; any other failure is the missing-predecessor error; an existing line is reused and the unit mapped to it; otherwise the precedence is transform, then monk line 65 with unit 286, then the villager skip, then a plain line; only the villager skip leaves the pass as it was; every other unit succeeds exactly when its predecessor resolves and then opens a new line that holds just the unit and is published in the line map, `unit_ref` and the transform or monk index |
| UnitLines.Fold | openage/convert/processor/aoc/processor.py:446-508 | the connection loop writes only the groups, the transform and monk indices and `unit_ref` |
| UnitLines.IndexByHead | openage/convert/processor/aoc/processor.py:511-512 | publishing the lines under their head ids touches no index other than `unit_lines` |
| UnitLines.ReuseKeepsLines | openage/convert/processor/aoc/processor.py:452-455 | adding a new unit to an existing line keeps every line non-empty, keyed by its own id, and every unit in one line only |
| UnitLines.OpenKeepsLines | openage/convert/processor/aoc/processor.py:457-482 | opening a new line for a new unit keeps the same invariant |
| UnitLines.StepGrows | openage/convert/processor/aoc/processor.py:446-508 | one step only adds members to lines, the only new member being its own unit in its own vertical line, and moves only that unit's `unit_ref`; a unit whose line is already open (any unit, villagers included) or which opens it is placed in that line and mapped there by `unit_ref`; otherwise (the villager skip) nothing changes |
| UnitLines.FoldPlaces | openage/convert/processor/aoc/processor.py:446-508 | after the loop, every processed connection whose line was opened by it or by an earlier connection (one whose unit has a transform, sits in line 65 or has no positive task group) is in the line of its `vertical_line` and mapped there by `unit_ref`; every line member is such a unit of that line |
| UnitLines.PassIndexed | openage/convert/processor/aoc/processor.py:511-512 | after the loop every line can be published under its head unit, and `unit_lines` maps that head to the line |
| UnitLines.PublishPass | openage/convert/processor/aoc/processor.py:511-515 | each line is published under its line id and under its head, and both entries are the same object |
| UnitLines.UnitLinesIndexed | openage/convert/processor/aoc/processor.py:428-515 | with one connection per unit, a successful pass publishes every line under its line id and under its head unit, and every line is non-empty; a connection's unit is in the published line of its `vertical_line`, mapped there by `unit_ref` and in no other published line exactly when that line was opened by it or an earlier connection (a villager joins an already open line and is skipped otherwise); every member of a published line is such a unit of that line |
| UnitLines.CreateUnitLines | openage/convert/processor/aoc/processor.py:428-515 | the unit-line pass writes only the groups, the transform and monk group indices, `unit_ref`, `unit_lines` and `unit_lines_vertical_ref`; what it publishes is stated by `UnitLines.UnitLinesIndexed` |
| UnitLines.ExtraLine | openage/convert/processor/aoc/processor.py:529-533 | a wildlife id gets a new line holding only that unit, published under the id in `unit_lines` and `unit_ref`; a missing unit raises; nothing else changes |
| UnitLines.ExtraFoldSucceeds | openage/convert/processor/aoc/processor.py:527-533 | the extra pass fails exactly when one of its ids is not a unit |
| UnitLines.ExtraFoldPublishes | openage/convert/processor/aoc/processor.py:527-533 | each of 48, 65, 594 and 833 ends up as the only member of its own line, published under its id |
| UnitLines.ExtraFoldFrame | openage/convert/processor/aoc/processor.py:529-533 | ids the loop does not visit keep their entries |
| UnitLines.CreateExtraUnitLines | openage/convert/processor/aoc/processor.py:527-533 | the wildlife pass raises exactly when one of 48, 65, 594 and 833 is not a unit, and writes only the groups, `unit_lines` and `unit_ref` |
| BuildingLines.UpgradeSource | openage/convert/processor/aoc/processor.py:596-604 | the `attr_a` of the first type-3 effect whose `attr_b` is the building; none exactly when no effect upgrades into the building |
| BuildingLines.TechUpgradeSource | openage/convert/processor/aoc/processor.py:585-590 | one connected tech fails exactly when the tech or its bundle is missing; otherwise it yields that bundle's upgrade source |
| BuildingLines.FindUpgradeFirst | openage/convert/processor/aoc/processor.py:584-631 | the scan over connected techs yields the first tech that upgrades into the building, or the first failed lookup before it; it yields nothing when every tech resolves and none does |
| BuildingLines.PreviousBuilding | openage/convert/processor/aoc/processor.py:610-623 | the previous building is the first Building cross-reference; the building raises exactly when there is none |
| BuildingLines.Locate | openage/convert/processor/aoc/processor.py:557-631 | without an upgrade the building is its own line with no predecessor; with one it joins the source's line after the previous building and carries a building-line upgrade for the tech; a missing previous building raises |
| BuildingLines.Record | openage/convert/processor/aoc/processor.py:626-629 | a found upgrade is stored under its tech id in `tech_groups` and `building_upgrades`; nothing else changes |
| BuildingLines.Attach | openage/convert/processor/aoc/processor.py:635-650 | the building joins the existing line of its line id, or a new line holding only it (a stack-building line when it has a stack unit); `unit_ref` maps it to that line; other line ids are unchanged |
| BuildingLines.Step | openage/convert/processor/aoc/processor.py:550-650 | a missing building raises; a stack head (`head_unit_id > -1`) is skipped; otherwise the building is located, its upgrade recorded and the building attached |
| BuildingLines.Fold | openage/convert/processor/aoc/processor.py:550-650 | the loop writes only groups, `building_lines`, `unit_ref`, `tech_groups` and `building_upgrades` |
| BuildingLines.AttachKeepsPlaced | openage/convert/processor/aoc/processor.py:635-650 | attaching keeps every placed building in a published building line, and adds the new one |
| BuildingLines.StepKeepsPlaced | openage/convert/processor/aoc/processor.py:550-650 | one iteration keeps the placement invariant and places its building unless it is a stack head |
| BuildingLines.PlacedIds | openage/convert/processor/aoc/processor.py:550-570 | the buildings the loop places are exactly those of the connections that exist and are not stack heads |
| BuildingLines.FoldKeepsPlaced | openage/convert/processor/aoc/processor.py:550-650 | the whole loop keeps the invariant and places all of those buildings |
| BuildingLines.BuildingsPlaced | openage/convert/processor/aoc/processor.py:536-650 | after the pass, each such building is mapped by `unit_ref` to a building line that is published in `building_lines` and contains it |
| BuildingLines.CreateBuildingLines | openage/convert/processor/aoc/processor.py:536-650 | the building-line pass writes only the groups, `building_lines`, `unit_ref`, `tech_groups` and `building_upgrades`; where each building ends up is stated by `BuildingLines.BuildingsPlaced` |
| Villagers.NewTaskLineId | openage/convert/processor/aoc/processor.py:876-882 | task groups 1 and 2 get the male and female line ids; any other new task group gets the `line_id` left over from an earlier iteration, or fails when none is bound |
| Villagers.Step | openage/convert/processor/aoc/processor.py:860-887 | units without a task group are skipped; a known task group gains the unit; a new one is created holding just the unit; only the groups and `task_groups` change |
| Villagers.TaskRefs | openage/convert/processor/aoc/processor.py:890 | the villager group's variants are the task groups, in the order they were seen |
| Villagers.FirstTaskGroup | openage/convert/processor/aoc/processor.py:860-869 | the task group of the first unit that has a non-zero one; none exactly when no unit has one |
| Villagers.StepKeepsBound | openage/convert/processor/aoc/processor.py:871-886 | every task group seen is published, and once one is, `line_id` is bound |
| Villagers.BoundNeverFails | openage/convert/processor/aoc/processor.py:860-887 | once `line_id` is bound the loop cannot fail |
| Villagers.FoldFailsIff | openage/convert/processor/aoc/processor.py:860-887 | the loop fails exactly when the first task group met is neither 1 nor 2, and the failure names that group |
| Villagers.CreateVillagerGroups | openage/convert/processor/aoc/processor.py:844-894 | the villager pass raises, with the unbound task group, exactly when the first unit with a task group has one other than 1 or 2; otherwise it writes only the groups, `task_groups`, `unit_lines`, `villager_groups` and `unit_ref` |
| Villagers.StepCollects | openage/convert/processor/aoc/processor.py:871-887 | after an iteration the unit is recorded and sits in the line of its published task group |
| Villagers.FoldCollects | openage/convert/processor/aoc/processor.py:860-887 | the same holds for every unit the loop has processed |
| Villagers.PublishVillagers | openage/convert/processor/aoc/processor.py:890-894 | group 118 is published in `unit_lines` and `villager_groups`; each task group is one of its variants; each collected unit is mapped by `unit_ref` to it |
| Villagers.VillagersCollected | openage/convert/processor/aoc/processor.py:845-894 | after the pass, every unit with a task group is in its task group's line, that task group is a variant of group 118, and `unit_ref` maps the unit to group 118 |
| Villagers.LeakedLineId | openage/convert/processor/aoc/processor.py:876-882 | task group 5 met after a female villager is created with the female line id |
| AuxGroups.AmbientStep | openage/convert/processor/aoc/processor.py:909-913 | an ambient id gets a group holding only its unit, published in `ambient_groups` and `unit_ref`; a missing unit raises; nothing else changes |
| AuxGroups.AmbientFoldSucceeds | openage/convert/processor/aoc/processor.py:906-913 | the ambient pass fails exactly when one of the ids is not a unit |
| AuxGroups.AmbientFoldFrame | openage/convert/processor/aoc/processor.py:909-913 | ids the loop does not visit keep their entries |
| AuxGroups.AmbientFoldPublishes | openage/convert/processor/aoc/processor.py:906-913 | each ambient id ends up the only member of its own group, published under the id |
| AuxGroups.CreateAmbientGroups | openage/convert/processor/aoc/processor.py:896-913 | the ambient pass raises exactly when an ambient id is not a unit, and writes only the groups, `ambient_groups` and `unit_ref` |
| AuxGroups.AddAll | openage/convert/processor/aoc/processor.py:931-932 | repeated `add_unit` appends the units in order |
| AuxGroups.FirstMissing | openage/convert/processor/aoc/processor.py:931-932 | the first variant unit id that is not a unit; none exactly when all are |
| AuxGroups.VariantStep | openage/convert/processor/aoc/processor.py:927-933 | a variant group is published under its id and holds exactly its lookup's units in order, each mapped to it in `unit_ref`; it fails exactly when one unit is missing |
| AuxGroups.VariantFoldFrame | openage/convert/processor/aoc/processor.py:927-933 | group ids the loop does not visit keep their entries |
| AuxGroups.VariantFoldPublishes | openage/convert/processor/aoc/processor.py:916-933 | every variant group is published under its id with exactly the units its lookup lists, and `unit_ref` maps each unit to the last variant group that lists it |
| AuxGroups.VariantFoldRefs | openage/convert/processor/aoc/processor.py:929-933 | `unit_ref` maps each listed unit to the last variant group that lists it |
| AuxGroups.VariantFold | openage/convert/processor/aoc/processor.py:927-933 | the variant loop raises exactly when some variant lists an id that is not a unit, and writes only the groups, `variant_groups` and `unit_ref` |
| AuxGroups.CreateVariantGroups | openage/convert/processor/aoc/processor.py:916-933 | the variant pass raises exactly when some variant of the lookup table lists an id that is not a unit, and writes only the groups, `variant_groups` and `unit_ref` |
| AuxGroups.TerrainFold | openage/convert/processor/aoc/processor.py:947-952 | an enabled terrain gets a terrain group under its index; a disabled one leaves its key alone; nothing else changes |
| AuxGroups.TerrainGroupsExact | openage/convert/processor/aoc/processor.py:936-952 | from an empty index, the terrain groups are exactly the enabled terrains |
| AuxGroups.CreateTerrainGroups | openage/convert/processor/aoc/processor.py:936-952 | every enabled terrain gets a terrain group under its index; every other index and every other table is left as it was |
| AuxGroups.CivFold | openage/convert/processor/aoc/processor.py:836-840 | each civ index gets an empty civ group; nothing else changes |
| AuxGroups.CivGroupsExact | openage/convert/processor/aoc/processor.py:825-840 | from an empty index there is exactly one empty civ group per civ index |
| AuxGroups.CreateCivGroups | openage/convert/processor/aoc/processor.py:825-840 | each civ index 0 .. n-1 gets an empty civ group; every other key and every other table is left as it was |
| TechGroups.PublishAll | openage/convert/processor/aoc/processor.py:757-822 | publishing groups in order writes `tech_groups` and the eight kind indices only |
| TechGroups.PublishAllUntouched | openage/convert/processor/aoc/processor.py:726-727 | a tech id that no published group carries keeps its old entries |
| TechGroups.PublishAllLatest | openage/convert/processor/aoc/processor.py:726 | in `tech_groups`, the last group published for a tech id is the one that stays |
| TechGroups.PublishAllLatestOfKind | openage/convert/processor/aoc/processor.py:727 | a later group for the same tech id but of another kind leaves the earlier group's kind index alone |
| TechGroups.KindIndexStays | openage/convert/processor/aoc/processor.py:726-727 | a kind index entry survives when no later group of that kind carries its tech id |
| TechGroups.PublishAllHas | openage/convert/processor/aoc/processor.py:726-727 | a kind index holds a tech id exactly when it held it before or some published group of that kind carries it |
| TechGroups.LastAttrA | openage/convert/processor/aoc/processor.py:741-742 | after the loop over the unlock effects, `unlock_id` is the `attr_a` of the last one |
| TechGroups.Classify | openage/convert/processor/aoc/processor.py:700-752 | one tech connection. A missing tech raises. An age tech (type 2 or line mode 0) becomes an age upgrade to the first Age cross-reference, and raises without one. A connection without buildings becomes a stat upgrade. A building upgrade the building pass found gets nothing. Otherwise a missing bundle raises, no unlock effect gives nothing, and unlock effects give a building unlock for the last one. |
| TechGroups.TechConnFold | openage/convert/processor/aoc/processor.py:700-752 | the tech-connection loop writes only `tech_groups` and the kind indices |
| TechGroups.ClassifyAll | openage/convert/processor/aoc/processor.py:700-752 | it succeeds exactly when every connection classifies, and then yields each connection's group in order |
| TechGroups.TechConnFoldIs | openage/convert/processor/aoc/processor.py:700-752 | since the loop never writes `building_upgrades`, it equals classifying every connection first and then publishing the groups in order |
| TechGroups.CreateTechGroups | openage/convert/processor/aoc/processor.py:688-822 | the tech group pass writes only `tech_groups` and the kind indices |
| TechGroups.UnitUnlocksFrom | openage/convert/processor/aoc/processor.py:757-772 | a research id gets a unit unlock exactly when some first-in-line connection that is not unlocked from the start names it as enabling research |
| TechGroups.UnitUpgradesFrom | openage/convert/processor/aoc/processor.py:757-779 | a research id gets a unit-line upgrade exactly when some later-in-line (mode 3) connection that is not unlocked from the start requires it |
| TechGroups.InitiatedFrom | openage/convert/processor/aoc/processor.py:784-796 | an initiated tech is published exactly for the research ids other than -1 that some unit carries |
| TechGroups.UnitUnlockStored | openage/convert/processor/aoc/processor.py:764-772 | the unit unlock stored under a research is `UnitUnlock(research, vertical_line)` of the last first-in-line connection it enables |
| TechGroups.UnitUpgradeStored | openage/convert/processor/aoc/processor.py:764-779 | the line upgrade stored under a research is `UnitLineUpgrade(research, vertical_line, unit)` of the last mode-3 connection that requires it |
| TechGroups.InitiatedStored | openage/convert/processor/aoc/processor.py:784-796 | the initiated tech stored under a research id is `InitiatedTech(research, unit)` of the last unit that names it |
| TechGroups.CivBoniExact | openage/convert/processor/aoc/processor.py:802-822 | the civ bonuses are exactly the techs with a positive civ id, no research location and full tech mode off, each keyed by its index and carrying its civ id |
| TechGroups.TechConnPublished | openage/convert/processor/aoc/processor.py:700-752 | with one connection per tech, each connection classifies, and its group lands in its kind index and in `tech_groups` |
| TechGroups.AgeUpOverwritten | openage/convert/processor/aoc/processor.py:725-772 | an age-up tech whose research also unlocks a unit keeps its age-upgrade entry, but its `tech_groups` entry becomes the unit unlock |
| TechGroups.BuildingTechWithoutGroup | openage/convert/processor/aoc/processor.py:729-746 | a building tech with no unlock effect that is not a building upgrade yields no group at all |
| TechGroups.AgeUpFirst | openage/convert/processor/aoc/processor.py:706-729 | line mode 0 takes precedence over connected buildings |
| Linkers.UpgradeLink | openage/convert/processor/aoc/processor.py:969-984 | a type-3 effect whose source is a building line appends the target unit to that line and maps it in `unit_ref`; it fails exactly when the target unit is missing; any other effect changes nothing |
| Linkers.UpgradeEffectsFold | openage/convert/processor/aoc/processor.py:968-984 | the effect loop writes only groups and `unit_ref`, and lines only grow |
| Linkers.AgeUpFold | openage/convert/processor/aoc/processor.py:966-984 | the loop over age upgrades writes only groups and `unit_ref`, and lines only grow |
| Linkers.UpgradeEffectsSucceed | openage/convert/processor/aoc/processor.py:968-984 | the effect loop succeeds exactly when every relinking effect names an existing unit |
| Linkers.UpgradeTargetsJoin | openage/convert/processor/aoc/processor.py:978-984 | every relinking effect's target ends up in the upgraded building line |
| Linkers.AgeUpTargetsJoin | openage/convert/processor/aoc/processor.py:966-984 | after the age-up loop every age-up's tech and bundle exist, and every type-3 effect of every age-up whose `attr_a` is a building line has its `attr_b` in that line |
| Linkers.BuildingUpgradesJoin | openage/convert/processor/aoc/processor.py:954-984 | the same for the whole pass over `age_upgrades` |
| Linkers.LinkBuildingUpgrades | openage/convert/processor/aoc/processor.py:954-984 | the building-upgrade pass writes only the groups and `unit_ref`, and no line loses a member |
| Linkers.LinkCreatables | openage/convert/processor/aoc/processor.py:987-1018 | the creatables pass writes only the groups |
| Linkers.CreatablesSucceed | openage/convert/processor/aoc/processor.py:998-1018 | it fails exactly when a creatable unit line's train location is not a building line, or a creatable building line's train location is neither a villager group nor a unit line |
| Linkers.CreatablesLinked | openage/convert/processor/aoc/processor.py:998-1018 | every creatable unit line is among the creatables of its train building; every creatable building line is among those of its villager group or, failing that, its unit line |
| Linkers.CreatablesSound | openage/convert/processor/aoc/processor.py:998-1018 | a group gains a creatable line only when that line is creatable and either is a unit line trained at this building line, or is a building line built by this villager group or, failing that, this unit line |
| Linkers.LinkResearchables | openage/convert/processor/aoc/processor.py:1020-1036 | the researchables pass writes only the groups |
| Linkers.ResearchablesLinked | openage/convert/processor/aoc/processor.py:1031-1036 | it fails exactly when a researchable tech's research location is not a building line; otherwise every researchable tech is among the researchables of that line |
| Linkers.ResearchablesSound | openage/convert/processor/aoc/processor.py:1031-1036 | a group gains a researchable tech group only when that group is researchable and this group is the building line at its research location |
| Linkers.LinkCivUniques | openage/convert/processor/aoc/processor.py:1038-1075 | the civ-uniques pass writes only the civ groups |
| Linkers.CivGroupsAfter | openage/convert/processor/aoc/processor.py:1047-1075 | each civ group gains exactly the bonuses, unique lines and unique techs linked to it, appended in loop order; no civ group appears or vanishes |
| Linkers.CivBonusesLinked | openage/convert/processor/aoc/processor.py:1047-1049 | every civ bonus is in the bonus list of its civ |
| Linkers.UniqueUnitLinesLinked | openage/convert/processor/aoc/processor.py:1051-1059 | every unique unit line is among the unique lines of the civ of the research that enables its head unit |
| Linkers.DropSite | openage/convert/processor/aoc/processor.py:1092-1099 | a drop site id above -1 is looked up in `building_lines` and raises when absent; other ids give no drop site |
| Linkers.GatherLinksIff | openage/convert/processor/aoc/processor.py:1101-1114 | a drop site is linked to a resource exactly when it is one of the unit's drop sites and some gather command (type 5 or 110) yields that resource, where the output resource falls back to the input resource when it is -1 |
| Linkers.LinkDropsites | openage/convert/processor/aoc/processor.py:1077-1113 | the drop-site pass writes only the groups |
| Linkers.DropsitesComplete | openage/convert/processor/aoc/processor.py:1089-1113 | for each unit of each variant of each villager group, both drop sites accept the resource of each of its gather commands |
| Linkers.DropsitesSucceed | openage/convert/processor/aoc/processor.py:1089-1099 | the drop-site pass raises exactly when a unit of a variant of a villager group is missing, or has a drop site id above -1 that is not a building line |
| Linkers.DropsitesSound | openage/convert/processor/aoc/processor.py:1089-1113 | a building line gains an accepted resource only as a drop site of such a unit, for the resource of one of its gather commands |
| Linkers.TradePostId | openage/convert/processor/aoc/processor.py:1219-1228 | the `unit_id` of the first trade command (type 111), or -1 when there is none |
| Linkers.LinkTradePosts | openage/convert/processor/aoc/processor.py:1204-1231 | the trade-post pass writes only the groups |
| Linkers.TradePostsLinked | openage/convert/processor/aoc/processor.py:1215-1231 | every unit line with a trade command is among the trading lines of its trade post; a new trading line always has a trade command, is a unit line, and has this trade post |
| Garrison.AdmitsIff | openage/convert/processor/aoc/processor.py:1145-1184 | the chain of `continue`s admits a line exactly when the per-case rule does: a ship only to a self-produced garrison that creates it; otherwise its creatable type must be in the mode's set, a natural garrison's type bits must allow it (no siege in bit 2), a unit garrison takes no siege, and a self-produced garrison takes only lines it creates |
| Garrison.ShipsOnlySelfProduced | openage/convert/processor/aoc/processor.py:1150-1184 | a ship line is admitted exactly by self-produced garrisons that create it |
| Garrison.SiegeNeverInUnitGarrison | openage/convert/processor/aoc/processor.py:1174-1176 | siege and trebuchet classes (13, 51, 54, 55) are never admitted to a unit garrison |
| Garrison.Admits | openage/convert/processor/aoc/processor.py:1145-1184 | no contract of its own: `Garrison.AdmitsIff` states the rule it decides |
| Garrison.LinkGarrison | openage/convert/processor/aoc/processor.py:1116-1201 | the garrison pass writes only the groups |
| Garrison.GarrisonBothWays | openage/convert/processor/aoc/processor.py:1186-1201 | a line becomes an entity of a garrison exactly when the garrison becomes one of its locations, and each list grows by exactly its links |
| Garrison.LineLinksSound | openage/convert/processor/aoc/processor.py:1145-1187 | every link of the unit-line loop joins the garrison to a unit line its mode admits |
| Garrison.RelicLinksSound | openage/convert/processor/aoc/processor.py:1189-1201 | every link of the relic loop joins a monk garrison to an ambient group whose head has creatable type 4 |
| Garrison.LinksOfSound | openage/convert/processor/aoc/processor.py:1135-1201 | the links of one candidate all start at it, and it is a garrison |
| Garrison.GarrisonLinks | openage/convert/processor/aoc/processor.py:1131-1187 | the garrison pass raises exactly when some candidate raises, and then with the error of the first one; what the links are is stated by `Garrison.GarrisonLinksSound` and `Garrison.GarrisonLinksComplete` |
| Garrison.GarrisonLinksSound | openage/convert/processor/aoc/processor.py:1131-1201 | every link joins a garrison among the unit and building lines either with an admitted unit line or, in monk mode, with a relic |
| Garrison.GarrisonLinksComplete | openage/convert/processor/aoc/processor.py:1131-1201 | every garrison is linked with every unit line its mode admits and, in monk mode, with every relic |
| Garrison.ShipLinksSelfProduced | openage/convert/processor/aoc/processor.py:1183-1184 | in the finished pass, a ship line that is not a relic sits only in a self-produced garrison that creates it |
| Garrison.SiegeLinksNotUnitGarrison | openage/convert/processor/aoc/processor.py:1174-1176 | in the finished pass, no unit garrison holds a siege line |
| Pipeline.LinkGroups | openage/convert/processor/aoc/processor.py:129-135 | linking creates, drops and re-keys no group; only group contents, `unit_ref` and the civ groups change |
| Pipeline.Process | openage/convert/processor/aoc/processor.py:103-135 | a successful run has created all groups, and its indices are those of the create phase, apart from the group contents, `unit_ref` and the civ groups |
| Pipeline.Run | openage/convert/processor/aoc/processor.py:117-135 | no contract of its own: it runs `Pipeline.Process` on the sanitized dataset with empty group tables |

## Where the code and its description differ

The model follows the code in each case.

- **Tech classification is neither exclusive nor total.**
  - A building tech that is not a building upgrade and has no unlock effect gets no group
    at all (`TechGroups.BuildingTechWithoutGroup`). It does not become a stat upgrade.
  - A stat upgrade is made only for connections without buildings.
  - One tech id can be published in several kind indices, and `tech_groups` keeps the
    last one (`TechGroups.AgeUpOverwritten`).
- **Villager task groups other than 1 and 2 are not rejected.** A new task group reuses the
  `line_id` of an earlier iteration (`Villagers.LeakedLineId`). The pass fails only when
  no earlier iteration bound one (`Villagers.FoldFailsIff`).
- **Initiated techs skip only -1.** Any other research id, including other negative
  values, is published (`TechGroups.InitiatedFrom`).
- **Garrison candidates.** The lines tested for a garrison are all unit lines, the garrison
  itself included when it is a unit line. Building lines are never tested.

## Left out

- **Reading the dump.** The `_extract_*` methods, `_pre_processor` apart from the
  sanitizer, `_post_processor` and the nyan, media, modpack and pregen subprocessors are
  not modelled. The model starts from already-extracted records.
- **Pass order.** `_processor`'s pass order is followed, as `Pipeline.Process` shows. The
  start registry is a parameter of `Process`. `Pipeline.Run` supplies the empty one.
- **Group methods.** The methods in `Oracle` are parameters. Their bodies are not part of
  this model. In the source some of them read group state that earlier linkers write;
  here each is a fixed function of the group's identity.
- **`add_unit`.** Its body is not part of this model. `Groups.AddUnit` states the assumed
  behaviour: with a predecessor in the line, insert right after it; otherwise append. The
  other group adders (`add_creatable`, `add_researchable`, `add_trading_line`, garrison
  list appends, civ group adders) are appends. `add_accepted_resource` is a set insert.
- **Unit and building keys.** A unit's key in `genie_units` is taken to be its `id0`,
  which the villager and initiated-tech passes read.
- **Group keys.** Each group's `get_id()` is taken to be the line, tech, civ or group id
  passed to its constructor. For a `GenieStackBuildingGroup` that is the head building's
  line id, not its `stack_unit_id` (`openage/convert/processor/aoc/processor.py`, lines 643 and 648).
- **Villager variant order.** The source collects the task group ids in a Python `set`,
  whose iteration order is not specified. The model keeps them in the order they are
  first seen. `unit_ref` maps every villager unit to the same group, so the order of
  those updates does not matter.
- **The head of the villager group.** It is taken to be the head of its first task group.
  `GenieVillagerGroup` is not part of this model.
- **Age upgrade effects.** The effects an age upgrade reads in
  `_link_building_upgrades` are taken from the effect bundle of its tech.
- **Dead check.** The `len(upgrade_effects) < 0` test in `_create_building_lines` can
  never hold, and is not a branch of the model.
- **Garrison order.** Garrison links are applied as two batches: first every location,
  then every entity. Each list still receives its items in the source's order, because
  the two lists are distinct.
- **Missing members.** `get_member` on a member a unit lacks is modelled only for
  `creatable_type` in the garrison pass. Elsewhere records carry each member, and optional
  members (`tech_type`, `transform_unit_id`, `task_group`) are `Option`s.
- Sanitizer.SanitizeBundle: states the kept effects as membership both ways. Order and
  multiplicity are stated separately, by `Sanitizer.SanitizedPrefix` and
  `Sanitizer.SanitizedCounts`.
- Pipeline.Run: carries no contract of its own. Its guarantees are those of
  `Pipeline.Process` started from empty group tables.
- Garrison.Admits: carries no contract of its own. `Garrison.AdmitsIff` relates it to the
  per-case rule.
- Linkers.UniqueUnitLinesLinked: covers unique unit lines only. Building lines and unique
  techs follow from `Linkers.CivGroupsAfter`, which gives each civ group's exact contents.
