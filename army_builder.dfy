/** The army builder: adding a template from the catalogue as a fresh unit,
    removing a unit, clearing the army, and the catalogue's faction and name
    filter.  The army's `totalCost` is kept as a running tally. */
module ArmyBuilder {
  import opened Strings
  import opened Types

  /** The action record of a soldier (or a machine) that has not acted. */
  function FreshActions(data: UnitData): (r: seq<ActionFlags>)
    ensures data.SquadData? ==> |r| == |data.squad.soldiers|
    ensures data.MachineData? ==> |r| == 1
    ensures forall i :: 0 <= i < |r| ==> r[i] == NoActions
  {
    if data.SquadData? then seq(|data.squad.soldiers|, _ => NoActions) else [NoActions]
  }

  /** A new unit of a template; `stamp` is the clock reading that makes its
      instance id. */
  function NewUnit(data: UnitData, stamp: int): (u: ArmyUnit)
    ensures u.data == data && u.instanceNumber.None?
    ensures u.deadSoldiers == [] && !u.grenadesUsed
    ensures u.actionsUsed == FreshActions(data)
    ensures data.MachineData? ==>
              && u.currentDurability == Some(data.machine.durabilityMax)
              && u.currentAmmo == Some(data.machine.ammoMax)
              && u.machineShotsUsed == 0 && u.machineWeaponShots == map[]
    ensures data.SquadData? ==> u.currentDurability.None? && u.currentAmmo.None?
    ensures !u.isMachineMoved && !u.isMachineShot && !u.isMachineMelee && !u.isMachineDone
  {
    var machine := data.MachineData?;
    ArmyUnit(
      data.Id() + "-" + IntToString(stamp), data, None,
      if machine then Some(data.machine.durabilityMax) else None,
      if machine then Some(data.machine.ammoMax) else None,
      false, [], FreshActions(data), false, false, false, false, 0, map[])
  }

  /** `addUnit`. */
  function AddUnit(army: Army, data: UnitData, stamp: int): (r: Army)
    ensures |r.units| == |army.units| + 1
    ensures r.units[..|army.units|] == army.units
    ensures r.units[|army.units|] == NewUnit(data, stamp)
    ensures r.totalCost == army.totalCost + data.Cost()
    ensures r.(units := army.units, totalCost := army.totalCost) == army
  {
    var units := army.units + [NewUnit(data, stamp)];
    assert units[..|army.units|] == army.units;
    army.(units := units, totalCost := army.totalCost + data.Cost())
  }

  /** `army.units.find(u => u.instanceId === id)`. */
  function FindUnit(units: seq<ArmyUnit>, instanceId: string): (r: Option<ArmyUnit>)
    ensures r.None? <==> forall i :: 0 <= i < |units| ==> units[i].instanceId != instanceId
    ensures r.Some? ==> r.value in units && r.value.instanceId == instanceId
  {
    if units == [] then None
    else if units[0].instanceId == instanceId then Some(units[0])
    else
      var r := FindUnit(units[1..], instanceId);
      assert forall i :: 1 <= i < |units| ==> units[i] == units[1..][i - 1];
      r
  }

  /** `find` returns the first unit with the id. */
  lemma {:induction false} FindUnitIsFirst(units: seq<ArmyUnit>, instanceId: string, i: nat)
    requires i < |units| && units[i].instanceId == instanceId
    requires forall j :: 0 <= j < i ==> units[j].instanceId != instanceId
    ensures FindUnit(units, instanceId) == Some(units[i])
  {
    if i > 0 {
      assert units[1..][i - 1] == units[i];
      assert forall j :: 0 <= j < i - 1 ==> units[1..][j] == units[j + 1];
      FindUnitIsFirst(units[1..], instanceId, i - 1);
    }
  }

  /** `army.units.filter(u => u.instanceId !== id)`. */
  function Without(units: seq<ArmyUnit>, instanceId: string): (r: seq<ArmyUnit>)
    ensures |r| <= |units|
    ensures forall i :: 0 <= i < |r| ==> r[i].instanceId != instanceId
    ensures forall u :: u in units && u.instanceId != instanceId ==> u in r
    ensures forall u :: u in r ==> u in units
  {
    if units == [] then []
    else
      var rest := Without(units[1..], instanceId);
      assert forall u :: u in units ==> u == units[0] || u in units[1..];
      if units[0].instanceId == instanceId then rest else [units[0]] + rest
  }

  /** Removing works piece by piece, so the units that stay keep their
      order and their repetitions. */
  lemma {:induction false} WithoutConcat(a: seq<ArmyUnit>, b: seq<ArmyUnit>, instanceId: string)
    ensures Without(a + b, instanceId) == Without(a, instanceId) + Without(b, instanceId)
  {
    if a == [] {
      assert a + b == b;
    } else {
      assert (a + b)[0] == a[0] && (a + b)[1..] == a[1..] + b;
      WithoutConcat(a[1..], b, instanceId);
    }
  }

  /** `removeUnit`: nothing for an unknown id; otherwise every unit with the
      id goes and the cost of the first one is taken off. */
  function RemoveUnit(army: Army, instanceId: string): (r: Army)
    ensures FindUnit(army.units, instanceId).None? ==> r == army
    ensures FindUnit(army.units, instanceId).Some? ==>
              && r.units == Without(army.units, instanceId)
              && r.totalCost == army.totalCost - FindUnit(army.units, instanceId).value.data.Cost()
              && r.(units := army.units, totalCost := army.totalCost) == army
  {
    match FindUnit(army.units, instanceId)
    case None => army
    case Some(u) => army.(units := Without(army.units, instanceId), totalCost := army.totalCost - u.data.Cost())
  }

  /** The "clear army" button. */
  function ClearArmy(army: Army): (r: Army)
    ensures r.units == [] && r.totalCost == 0
    ensures r.(units := army.units, totalCost := army.totalCost) == army
  {
    army.(units := [], totalCost := 0)
  }

  /** The sum of the units' template costs. */
  function CostSum(units: seq<ArmyUnit>): int
  {
    if units == [] then 0 else units[0].data.Cost() + CostSum(units[1..])
  }

  predicate UniqueIds(units: seq<ArmyUnit>)
  {
    forall i, j :: 0 <= i < j < |units| ==> units[i].instanceId != units[j].instanceId
  }

  /** The army's total is the sum of its units' costs. */
  predicate Tallied(army: Army)
  {
    army.totalCost == CostSum(army.units)
  }

  lemma {:induction false} CostSumAppend(units: seq<ArmyUnit>, u: ArmyUnit)
    ensures CostSum(units + [u]) == CostSum(units) + u.data.Cost()
  {
    if units != [] {
      assert (units + [u])[1..] == units[1..] + [u];
      CostSumAppend(units[1..], u);
    }
  }

  /** With unique ids, filtering a unit out takes exactly its cost off. */
  lemma {:induction false} CostSumWithout(units: seq<ArmyUnit>, instanceId: string)
    requires UniqueIds(units)
    ensures FindUnit(units, instanceId).None? ==> Without(units, instanceId) == units
    ensures FindUnit(units, instanceId).Some? ==>
              CostSum(Without(units, instanceId)) == CostSum(units) - FindUnit(units, instanceId).value.data.Cost()
  {
    if units != [] {
      assert UniqueIds(units[1..]) by {
        forall i, j | 0 <= i < j < |units[1..]| ensures units[1..][i].instanceId != units[1..][j].instanceId {
          assert units[1..][i] == units[i + 1] && units[1..][j] == units[j + 1];
        }
      }
      CostSumWithout(units[1..], instanceId);
      if units[0].instanceId == instanceId {
        assert forall i :: 0 <= i < |units[1..]| ==> units[1..][i] == units[i + 1];
        assert FindUnit(units[1..], instanceId).None?;
      }
    }
  }

  /** Adding keeps the tally, and keeps the ids unique when the new id is
      fresh. */
  lemma AddKeepsTally(army: Army, data: UnitData, stamp: int)
    requires Tallied(army)
    ensures Tallied(AddUnit(army, data, stamp))
    ensures UniqueIds(army.units) && FindUnit(army.units, NewUnit(data, stamp).instanceId).None? ==>
              UniqueIds(AddUnit(army, data, stamp).units)
  {
    CostSumAppend(army.units, NewUnit(data, stamp));
  }

  /** Removing keeps the tally and the ids unique, provided the ids are
      unique to begin with. */
  lemma RemoveKeepsTally(army: Army, instanceId: string)
    requires Tallied(army) && UniqueIds(army.units)
    ensures Tallied(RemoveUnit(army, instanceId))
    ensures UniqueIds(RemoveUnit(army, instanceId).units)
  {
    CostSumWithout(army.units, instanceId);
    WithoutKeepsUnique(army.units, instanceId);
  }

  lemma {:induction false} WithoutKeepsUnique(units: seq<ArmyUnit>, instanceId: string)
    requires UniqueIds(units)
    ensures UniqueIds(Without(units, instanceId))
  {
    if units != [] {
      var tail := units[1..];
      TailUnique(units);
      WithoutKeepsUnique(tail, instanceId);
      if units[0].instanceId != instanceId {
        PrependUnique(units[0], Without(tail, instanceId));
      }
    }
  }

  /** The units after the first have distinct ids, none of them the
      first's. */
  lemma TailUnique(units: seq<ArmyUnit>)
    requires UniqueIds(units) && units != []
    ensures UniqueIds(units[1..])
    ensures forall v :: v in units[1..] ==> v.instanceId != units[0].instanceId
  {
    var tail := units[1..];
    forall i, j | 0 <= i < j < |tail| ensures tail[i].instanceId != tail[j].instanceId {
      assert tail[i] == units[i + 1] && tail[j] == units[j + 1];
    }
    forall v | v in tail ensures v.instanceId != units[0].instanceId {
      var k :| 0 <= k < |tail| && tail[k] == v;
      assert v == units[k + 1];
    }
  }

  /** A unit whose id no other unit has can go in front. */
  lemma PrependUnique(u: ArmyUnit, rest: seq<ArmyUnit>)
    requires UniqueIds(rest)
    requires forall v :: v in rest ==> v.instanceId != u.instanceId
    ensures UniqueIds([u] + rest)
  {
    var r := [u] + rest;
    forall i, j | 0 <= i < j < |r| ensures r[i].instanceId != r[j].instanceId {
      if i == 0 {
        assert r[j] in rest;
      } else {
        assert r[i] == rest[i - 1] && r[j] == rest[j - 1];
      }
    }
  }

  /** Clearing gives a tallied, empty army. */
  lemma ClearTallied(army: Army)
    ensures Tallied(ClearArmy(army)) && UniqueIds(ClearArmy(army).units)
  {
  }

  /** Whether a template is offered: its faction passes the filter (absent
      filter: all factions) and its lower-cased name contains the
      lower-cased search text. */
  predicate Offered(t: UnitData, filterFaction: Option<FactionId>, search: string)
  {
    (filterFaction.None? || t.Faction() == filterFaction.value)
    && Contains(ToLower(t.Name()), ToLower(search))
  }

  /** The templates `keep` accepts, in catalogue order. */
  function Select(templates: seq<UnitData>, keep: UnitData -> bool): (r: seq<UnitData>)
    ensures forall t :: t in r <==> t in templates && keep(t)
    ensures |r| <= |templates|
  {
    if templates == [] then []
    else
      var rest := Select(templates[1..], keep);
      assert forall t :: t in templates <==> t == templates[0] || t in templates[1..];
      if keep(templates[0]) then [templates[0]] + rest else rest
  }

  /** Selecting works piece by piece, so the selected templates keep their
      catalogue order and their repetitions. */
  lemma {:induction false} SelectConcat(a: seq<UnitData>, b: seq<UnitData>, keep: UnitData -> bool)
    ensures Select(a + b, keep) == Select(a, keep) + Select(b, keep)
  {
    if a == [] {
      assert a + b == b;
    } else {
      assert (a + b)[0] == a[0] && (a + b)[1..] == a[1..] + b;
      SelectConcat(a[1..], b, keep);
    }
  }

  /** `Offered` as the callback `filter` is given. */
  function OfferedBy(filterFaction: Option<FactionId>, search: string): UnitData -> bool
  {
    t => Offered(t, filterFaction, search)
  }

  /** `filteredSquads` and `filteredMachines`. */
  function FilterCatalogue(templates: seq<UnitData>, filterFaction: Option<FactionId>, search: string)
    : (r: seq<UnitData>)
    ensures forall t :: t in r <==> t in templates && Offered(t, filterFaction, search)
    ensures |r| <= |templates|
  {
    Select(templates, OfferedBy(filterFaction, search))
  }

  /** The offered templates keep their catalogue order and their
      repetitions: filtering a catalogue made of two parts filters each
      part. */
  lemma FilterCatalogueConcat(a: seq<UnitData>, b: seq<UnitData>, filterFaction: Option<FactionId>, search: string)
    ensures FilterCatalogue(a + b, filterFaction, search)
            == FilterCatalogue(a, filterFaction, search) + FilterCatalogue(b, filterFaction, search)
  {
    SelectConcat(a, b, OfferedBy(filterFaction, search));
  }

  /** An empty search with no faction filter offers the whole catalogue. */
  lemma EmptySearchOffersAll(templates: seq<UnitData>)
    ensures forall t :: t in FilterCatalogue(templates, None, "") <==> t in templates
  {
    forall t | t in templates ensures Offered(t, None, "") {
      assert OccursAt(ToLower(t.Name()), ToLower(""), 0);
    }
  }
}
