/**
 * The builders for the groups that do not come from connection records:
 * `_create_ambient_groups`, `_create_variant_groups`, `_create_terrain_groups`
 * (processor.py:896-952) and `_create_civ_groups` (processor.py:824-842).
 */
module AuxGroups {
  import opened Wrappers
  import opened Seqs
  import opened Dicts
  import opened Records
  import opened Groups
  import opened Registry

  // ----- ambient groups -----

  /** One key of `AMBIENT_GROUP_LOOKUPS`: a group holding just that unit. */
  function AmbientStep(ds: Dataset, ambientId: int, reg: Registry): (r: Result<Registry, Error>)
    ensures r.Failure? <==> !Has(ds.units, ambientId)
    ensures r.Failure? ==> r.error == MissingKey(UnitsTable, ambientId)
    ensures r.Success? ==>
      var ref := AmbientRef(ambientId);
      && Get(r.value.ambientGroups, ambientId) == Some(ref)
      && Get(r.value.unitRef, ambientId) == Some(ref)
      && Deref(r.value.groups, ref) == NewGroup(AmbientLine, ambientId).(line := [ambientId])
      && (forall k :: k != ambientId ==>
            Get(r.value.ambientGroups, k) == Get(reg.ambientGroups, k) && Get(r.value.unitRef, k) == Get(reg.unitRef, k))
      && (forall g :: g != ref ==> Deref(r.value.groups, g) == Deref(reg.groups, g))
      && r.value == reg.(groups := r.value.groups, ambientGroups := r.value.ambientGroups, unitRef := r.value.unitRef)
  {
    var _ :- LookupUnit(ds, ambientId);
    var ref := AmbientRef(ambientId);
    var g := NewGroup(AmbientLine, ambientId);
    Success(reg.(groups := reg.groups[ref := g.(line := AddUnit(g.line, ambientId, None))],
                 ambientGroups := Put(reg.ambientGroups, ambientId, ref),
                 unitRef := Put(reg.unitRef, ambientId, ref)))
  }

  function AmbientFold(ds: Dataset, ids: seq<int>, reg: Registry): (r: Result<Registry, Error>)
    ensures r.Success? ==> r.value == reg.(groups := r.value.groups, ambientGroups := r.value.ambientGroups, unitRef := r.value.unitRef)
    decreases |ids|
  {
    if |ids| == 0 then Success(reg)
    else
      var reg' :- AmbientStep(ds, ids[0], reg);
      AmbientFold(ds, ids[1..], reg')
  }

  /** `_create_ambient_groups`: it raises exactly when an ambient id is not a unit. */
  function CreateAmbientGroups(t: Tables, ds: Dataset, reg: Registry): (r: Result<Registry, Error>)
    ensures r.Success? <==> AllUnits(ds, t.ambientIds)
    ensures r.Success? ==> r.value == reg.(groups := r.value.groups, ambientGroups := r.value.ambientGroups, unitRef := r.value.unitRef)
  {
    AmbientFoldSucceeds(ds, t.ambientIds, reg);
    AmbientFold(ds, t.ambientIds, reg)
  }

  /** The ambient pass fails exactly when one of the ambient ids is not a unit. */
  lemma {:induction false} AmbientFoldSucceeds(ds: Dataset, ids: seq<int>, reg: Registry)
    ensures AmbientFold(ds, ids, reg).Success? <==> AllUnits(ds, ids)
    decreases |ids|
  {
    if |ids| > 0 {
      AllUnitsCons(ds, ids);
      if Has(ds.units, ids[0]) {
        var reg1 := AmbientStep(ds, ids[0], reg).value;
        assert AmbientFold(ds, ids, reg) == AmbientFold(ds, ids[1..], reg1);
        AmbientFoldSucceeds(ds, ids[1..], reg1);
      } else {
        assert AmbientFold(ds, ids, reg).Failure?;
      }
    }
  }

  /** Entries for an id the remaining loop does not visit are left as they are. */
  lemma {:induction false} AmbientFoldFrame(ds: Dataset, ids: seq<int>, reg: Registry, k: int)
    requires k !in ids
    requires AmbientFold(ds, ids, reg).Success?
    ensures var r := AmbientFold(ds, ids, reg).value;
      && Get(r.ambientGroups, k) == Get(reg.ambientGroups, k)
      && Get(r.unitRef, k) == Get(reg.unitRef, k)
      && Deref(r.groups, AmbientRef(k)) == Deref(reg.groups, AmbientRef(k))
    decreases |ids|
  {
    if |ids| > 0 {
      assert k !in ids[1..];
      AmbientFoldFrame(ds, ids[1..], AmbientStep(ds, ids[0], reg).value, k);
    }
  }

  /** Each ambient id ends up as the only member of its own group, published under the id. */
  lemma {:induction false} AmbientFoldPublishes(ds: Dataset, ids: seq<int>, reg: Registry)
    requires forall i, j :: 0 <= i < j < |ids| ==> ids[i] != ids[j]
    requires AmbientFold(ds, ids, reg).Success?
    ensures var r := AmbientFold(ds, ids, reg).value;
      forall i :: 0 <= i < |ids| ==>
        && Get(r.ambientGroups, ids[i]) == Some(AmbientRef(ids[i]))
        && Get(r.unitRef, ids[i]) == Some(AmbientRef(ids[i]))
        && Deref(r.groups, AmbientRef(ids[i])).line == [ids[i]]
    decreases |ids|
  {
    if |ids| > 0 {
      var rest := ids[1..];
      var reg1 := AmbientStep(ds, ids[0], reg).value;
      var r := AmbientFold(ds, ids, reg).value;
      assert r == AmbientFold(ds, rest, reg1).value;
      AmbientFoldPublishes(ds, rest, reg1);
      assert ids[0] !in rest by {
        forall i | 0 <= i < |rest| ensures rest[i] != ids[0] {
          assert rest[i] == ids[i + 1];
        }
      }
      AmbientFoldFrame(ds, rest, reg1, ids[0]);
      forall i | 0 < i < |ids| ensures Get(r.ambientGroups, ids[i]) == Some(AmbientRef(ids[i])) {
        assert ids[i] == rest[i - 1];
      }
      forall i | 0 < i < |ids| ensures Get(r.unitRef, ids[i]) == Some(AmbientRef(ids[i])) {
        assert ids[i] == rest[i - 1];
      }
      forall i | 0 < i < |ids| ensures Deref(r.groups, AmbientRef(ids[i])).line == [ids[i]] {
        assert ids[i] == rest[i - 1];
      }
    }
  }

  // ----- variant groups -----

  /** Units appended one by one, as repeated `add_unit` calls do. */
  function AddAll(line: seq<int>, ids: seq<int>): (r: seq<int>)
    ensures r == line + ids
    decreases |ids|
  {
    if |ids| == 0 then line
    else
      var r := AddAll(AddUnit(line, ids[0], None), ids[1..]);
      assert line + [ids[0]] + ids[1..] == line + ids;
      r
  }

  /** The first of the ids that is not a unit. */
  function FirstMissing(ds: Dataset, ids: seq<int>): (r: Option<int>)
    ensures r.None? <==> forall i :: 0 <= i < |ids| ==> Has(ds.units, ids[i])
    ensures r.Some? ==> r.value in ids && !Has(ds.units, r.value)
  {
    match FirstIndex(ids, (id: int) => !Has(ds.units, id))
    case None => None
    case Some(i) => Some(ids[i])
  }

  /**
   * One entry of `VARIANT_GROUP_LOOKUPS`: the group is published and each of
   * its units is looked up, appended and mapped to it. A missing unit aborts
   * the run, so the order of these writes is not observable and the lookups
   * are done first here.
   */
  function VariantStep(ds: Dataset, groupId: int, unitIds: seq<int>, reg: Registry): (r: Result<Registry, Error>)
    ensures r.Success? <==> forall i :: 0 <= i < |unitIds| ==> Has(ds.units, unitIds[i])
    ensures r.Failure? ==> r.error.MissingKey? && r.error.table == UnitsTable && r.error.key in unitIds
    ensures r.Success? ==>
      var ref := VariantRef(groupId);
      && Get(r.value.variantGroups, groupId) == Some(ref)
      && Deref(r.value.groups, ref) == NewGroup(VariantLine, groupId).(line := unitIds)
      && (forall g :: g != ref ==> Deref(r.value.groups, g) == Deref(reg.groups, g))
      && (forall k :: k != groupId ==> Get(r.value.variantGroups, k) == Get(reg.variantGroups, k))
      && (forall i :: 0 <= i < |unitIds| ==> Get(r.value.unitRef, unitIds[i]) == Some(ref))
      && (forall k :: k !in unitIds ==> Get(r.value.unitRef, k) == Get(reg.unitRef, k))
      && r.value == reg.(groups := r.value.groups, variantGroups := r.value.variantGroups, unitRef := r.value.unitRef)
  {
    match FirstMissing(ds, unitIds)
    case Some(id) => Failure(MissingKey(UnitsTable, id))
    case None => Success(Variant(groupId, unitIds, reg))
  }

  /** The registry once every unit of a variant group was found. */
  function Variant(groupId: int, unitIds: seq<int>, reg: Registry): (r: Registry)
    ensures
      var ref := VariantRef(groupId);
      && Get(r.variantGroups, groupId) == Some(ref)
      && Deref(r.groups, ref) == NewGroup(VariantLine, groupId).(line := unitIds)
      && (forall g :: g != ref ==> Deref(r.groups, g) == Deref(reg.groups, g))
      && (forall k :: k != groupId ==> Get(r.variantGroups, k) == Get(reg.variantGroups, k))
      && (forall i :: 0 <= i < |unitIds| ==> Get(r.unitRef, unitIds[i]) == Some(ref))
      && (forall k :: k !in unitIds ==> Get(r.unitRef, k) == Get(reg.unitRef, k))
      && r == reg.(groups := r.groups, variantGroups := r.variantGroups, unitRef := r.unitRef)
  {
    var ref := VariantRef(groupId);
    var g := NewGroup(VariantLine, groupId);
    PutAllKeys(reg.unitRef, unitIds, ref);
    reg.(groups := reg.groups[ref := g.(line := AddAll(g.line, unitIds))],
         variantGroups := Put(reg.variantGroups, groupId, ref),
         unitRef := PutAll(reg.unitRef, MapAll(unitIds, ref)))
  }

  function VariantFold(ds: Dataset, entries: seq<(int, seq<int>)>, reg: Registry): (r: Result<Registry, Error>)
    ensures r.Success? <==> forall i, j :: 0 <= i < |entries| && 0 <= j < |entries[i].1| ==> Has(ds.units, entries[i].1[j])
    ensures r.Success? ==> r.value == reg.(groups := r.value.groups, variantGroups := r.value.variantGroups, unitRef := r.value.unitRef)
    decreases |entries|
  {
    if |entries| == 0 then Success(reg)
    else
      var reg' :- VariantStep(ds, entries[0].0, entries[0].1, reg);
      VariantFold(ds, entries[1..], reg')
  }

  /** `_create_variant_groups`: it raises exactly when some variant lists a unit id that is not a unit. */
  function CreateVariantGroups(t: Tables, ds: Dataset, reg: Registry): (r: Result<Registry, Error>)
    ensures var es := t.variantLookups.items;
      r.Success? <==> forall i, j :: 0 <= i < |es| && 0 <= j < |es[i].1| ==> Has(ds.units, es[i].1[j])
    ensures r.Success? ==> r.value == reg.(groups := r.value.groups, variantGroups := r.value.variantGroups, unitRef := r.value.unitRef)
  {
    VariantFold(ds, t.variantLookups.items, reg)
  }

  /** Entries for a group id the remaining loop does not visit are left as they are. */
  lemma {:induction false} VariantFoldFrame(ds: Dataset, entries: seq<(int, seq<int>)>, reg: Registry, k: int)
    requires forall i :: 0 <= i < |entries| ==> entries[i].0 != k
    requires VariantFold(ds, entries, reg).Success?
    ensures var r := VariantFold(ds, entries, reg).value;
      && Get(r.variantGroups, k) == Get(reg.variantGroups, k)
      && Deref(r.groups, VariantRef(k)) == Deref(reg.groups, VariantRef(k))
    decreases |entries|
  {
    if |entries| > 0 {
      var rest := entries[1..];
      assert forall i :: 0 <= i < |rest| ==> rest[i] == entries[i + 1];
      VariantFoldFrame(ds, rest, VariantStep(ds, entries[0].0, entries[0].1, reg).value, k);
    }
  }

  /** No entry after `entries[i]` lists unit `x`. */
  predicate LastListing(entries: seq<(int, seq<int>)>, i: int, x: int) {
    forall k :: 0 <= k < |entries| && i < k ==> x !in entries[k].1
  }

  lemma LastListingTail(entries: seq<(int, seq<int>)>, i: int, x: int)
    requires 0 <= i < |entries| && LastListing(entries, i, x)
    ensures LastListing(entries[1..], i - 1, x)
  {
    forall k | i - 1 < k < |entries[1..]| ensures x !in entries[1..][k].1 {
      assert entries[1..][k] == entries[k + 1];
    }
  }

  /** A unit no remaining entry lists keeps its `unit_ref`. */
  lemma {:induction false} VariantFoldRefFrame(ds: Dataset, entries: seq<(int, seq<int>)>, reg: Registry, x: int)
    requires LastListing(entries, -1, x)
    requires VariantFold(ds, entries, reg).Success?
    ensures Get(VariantFold(ds, entries, reg).value.unitRef, x) == Get(reg.unitRef, x)
    decreases |entries|
  {
    if |entries| > 0 {
      var rest := entries[1..];
      assert forall k :: 0 <= k < |rest| ==> rest[k] == entries[k + 1];
      assert x !in entries[0].1;
      VariantFoldRefFrame(ds, rest, VariantStep(ds, entries[0].0, entries[0].1, reg).value, x);
    }
  }

  /** Each unit ends up mapped by `unit_ref` to the last variant group that lists it. */
  lemma {:induction false} VariantFoldRefs(ds: Dataset, entries: seq<(int, seq<int>)>, reg: Registry)
    requires VariantFold(ds, entries, reg).Success?
    ensures var r := VariantFold(ds, entries, reg).value;
      forall i, j :: 0 <= i < |entries| && 0 <= j < |entries[i].1| && LastListing(entries, i, entries[i].1[j]) ==>
        Get(r.unitRef, entries[i].1[j]) == Some(VariantRef(entries[i].0))
    decreases |entries|
  {
    if |entries| > 0 {
      var rest := entries[1..];
      var reg1 := VariantStep(ds, entries[0].0, entries[0].1, reg).value;
      var r := VariantFold(ds, entries, reg).value;
      assert r == VariantFold(ds, rest, reg1).value;
      VariantFoldRefs(ds, rest, reg1);
      forall i, j | 0 <= i < |entries| && 0 <= j < |entries[i].1| && LastListing(entries, i, entries[i].1[j])
        ensures Get(r.unitRef, entries[i].1[j]) == Some(VariantRef(entries[i].0))
      {
        var x := entries[i].1[j];
        LastListingTail(entries, i, x);
        if i == 0 {
          VariantFoldRefFrame(ds, rest, reg1, x);
        } else {
          assert entries[i] == rest[i - 1];
        }
      }
    }
  }

  /** Each variant group is published under its id and holds exactly the units its lookup lists, in order. */
  lemma {:induction false} VariantFoldPublishes(ds: Dataset, entries: seq<(int, seq<int>)>, reg: Registry)
    requires DistinctKeys(Dict(entries))
    requires VariantFold(ds, entries, reg).Success?
    ensures var r := VariantFold(ds, entries, reg).value;
      forall i :: 0 <= i < |entries| ==>
        && Get(r.variantGroups, entries[i].0) == Some(VariantRef(entries[i].0))
        && Deref(r.groups, VariantRef(entries[i].0)).line == entries[i].1
    ensures var r := VariantFold(ds, entries, reg).value;
      forall i, j :: 0 <= i < |entries| && 0 <= j < |entries[i].1| && LastListing(entries, i, entries[i].1[j]) ==>
        Get(r.unitRef, entries[i].1[j]) == Some(VariantRef(entries[i].0))
    decreases |entries|
  {
    VariantFoldRefs(ds, entries, reg);
    if |entries| > 0 {
      var rest := entries[1..];
      var reg1 := VariantStep(ds, entries[0].0, entries[0].1, reg).value;
      var r := VariantFold(ds, entries, reg).value;
      assert r == VariantFold(ds, rest, reg1).value;
      DistinctTail(entries);
      VariantFoldPublishes(ds, rest, reg1);
      VariantFoldFrame(ds, rest, reg1, entries[0].0);
      forall i | 0 <= i < |entries|
        ensures Get(r.variantGroups, entries[i].0) == Some(VariantRef(entries[i].0))
        ensures Deref(r.groups, VariantRef(entries[i].0)).line == entries[i].1
      {
        if i > 0 {
          assert entries[i] == rest[i - 1];
        }
      }
    }
  }

  // ----- terrain groups -----

  function TerrainFold(terrains: seq<Terrain>, from: nat, reg: Registry): (r: Registry)
    requires from <= |terrains|
    ensures r == reg.(terrainGroups := r.terrainGroups)
    ensures forall k :: (k < from || k >= |terrains|) ==> Get(r.terrainGroups, k) == Get(reg.terrainGroups, k)
    ensures forall k :: from <= k < |terrains| && terrains[k].enabled != 0 ==> Get(r.terrainGroups, k) == Some(TerrainGroup(k))
    ensures forall k :: from <= k < |terrains| && terrains[k].enabled == 0 ==> Get(r.terrainGroups, k) == Get(reg.terrainGroups, k)
    decreases |terrains| - from
  {
    if from == |terrains| then reg
    else
      var reg' := if terrains[from].enabled != 0
        then reg.(terrainGroups := Put(reg.terrainGroups, from, TerrainGroup(from)))
        else reg;
      TerrainFold(terrains, from + 1, reg')
  }

  /** `_create_terrain_groups`: every enabled terrain gets a group under its index; nothing else changes. */
  function CreateTerrainGroups(ds: Dataset, reg: Registry): (r: Registry)
    ensures r == reg.(terrainGroups := r.terrainGroups)
    ensures forall k :: 0 <= k < |ds.terrains| && ds.terrains[k].enabled != 0 ==> Get(r.terrainGroups, k) == Some(TerrainGroup(k))
    ensures forall k :: !(0 <= k < |ds.terrains| && ds.terrains[k].enabled != 0) ==> Get(r.terrainGroups, k) == Get(reg.terrainGroups, k)
  {
    TerrainFold(ds.terrains, 0, reg)
  }

  /** Starting from no terrain groups, exactly the enabled terrains get one, keyed by their index. */
  lemma TerrainGroupsExact(ds: Dataset, reg: Registry)
    requires reg.terrainGroups == Empty()
    ensures var r := CreateTerrainGroups(ds, reg);
      forall k :: Has(r.terrainGroups, k) <==> 0 <= k < |ds.terrains| && ds.terrains[k].enabled != 0
    ensures var r := CreateTerrainGroups(ds, reg);
      forall k :: Has(r.terrainGroups, k) ==> Get(r.terrainGroups, k) == Some(TerrainGroup(k))
  {
    var r := CreateTerrainGroups(ds, reg);
    forall k ensures Has(r.terrainGroups, k) <==> Get(r.terrainGroups, k).Some? {
    }
    forall k ensures !Has(reg.terrainGroups, k) {
    }
  }

  // ----- civilization groups -----

  function CivFold(count: nat, from: nat, reg: Registry): (r: Registry)
    requires from <= count
    ensures r == reg.(civGroups := r.civGroups)
    ensures forall k :: (k < from || k >= count) ==> Get(r.civGroups, k) == Get(reg.civGroups, k)
    ensures forall k :: from <= k < count ==> Get(r.civGroups, k) == Some(CivGroup(k, [], [], []))
    decreases count - from
  {
    if from == count then reg
    else CivFold(count, from + 1, reg.(civGroups := Put(reg.civGroups, from, CivGroup(from, [], [], []))))
  }

  /** `_create_civ_groups`: an empty civ group for each civ index; nothing else changes. */
  function CreateCivGroups(ds: Dataset, reg: Registry): (r: Registry)
    ensures r == reg.(civGroups := r.civGroups)
    ensures forall k :: 0 <= k < ds.civCount ==> Get(r.civGroups, k) == Some(CivGroup(k, [], [], []))
    ensures forall k :: !(0 <= k < ds.civCount) ==> Get(r.civGroups, k) == Get(reg.civGroups, k)
  {
    CivFold(ds.civCount, 0, reg)
  }

  /** Starting from none, there is one empty civ group per civ index and no other. */
  lemma CivGroupsExact(ds: Dataset, reg: Registry)
    requires reg.civGroups == Empty()
    ensures var r := CreateCivGroups(ds, reg);
      forall k :: Has(r.civGroups, k) <==> 0 <= k < ds.civCount
    ensures var r := CreateCivGroups(ds, reg);
      forall k :: 0 <= k < ds.civCount ==> Get(r.civGroups, k) == Some(CivGroup(k, [], [], []))
  {
    var r := CreateCivGroups(ds, reg);
    forall k ensures Has(r.civGroups, k) <==> Get(r.civGroups, k).Some? {
    }
    forall k ensures !Has(reg.civGroups, k) {
    }
  }
}
