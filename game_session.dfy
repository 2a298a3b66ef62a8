/** The game screen: writing an edited unit back into the army, starting a
    new turn, counting the units still able to fight, the focused-unit
    carousel and the per-unit status badges. */
module GameSession {
  import opened Strings
  import opened Types
  import ArmyBuilder
  import UnitCard

  /** The screen's own state besides the army. */
  datatype Session = Session(army: Army, focusedUnitIdx: int, showInitiative: bool)

  /** `updateUnit`: every unit with the edited unit's id is replaced by it. */
  function UpdateUnit(army: Army, updated: ArmyUnit): (r: Army)
    ensures |r.units| == |army.units|
    ensures forall i :: 0 <= i < |r.units| && army.units[i].instanceId != updated.instanceId ==>
              r.units[i] == army.units[i]
    ensures forall i :: 0 <= i < |r.units| && army.units[i].instanceId == updated.instanceId ==>
              r.units[i] == updated
    ensures forall i :: 0 <= i < |r.units| ==> r.units[i].instanceId == army.units[i].instanceId
    ensures r.(units := army.units) == army
  {
    army.(units := seq(|army.units|, i requires 0 <= i < |army.units| =>
      if army.units[i].instanceId == updated.instanceId then updated else army.units[i]))
  }

  /** After the update, looking the id up finds the edited unit exactly
      when the army held that id; the ids stay unique and the edit is
      idempotent. */
  lemma UpdateThenFind(army: Army, updated: ArmyUnit)
    ensures ArmyBuilder.FindUnit(army.units, updated.instanceId).Some? ==>
              ArmyBuilder.FindUnit(UpdateUnit(army, updated).units, updated.instanceId) == Some(updated)
    ensures ArmyBuilder.FindUnit(army.units, updated.instanceId).None? ==> UpdateUnit(army, updated) == army
    ensures ArmyBuilder.UniqueIds(army.units) ==> ArmyBuilder.UniqueIds(UpdateUnit(army, updated).units)
    ensures UpdateUnit(UpdateUnit(army, updated), updated) == UpdateUnit(army, updated)
  {
    var r := UpdateUnit(army, updated);
    if ArmyBuilder.FindUnit(army.units, updated.instanceId).None? {
      assert r.units == army.units;
    } else {
      FindFirst(r.units, updated);
    }
  }

  /** In a list where `u`'s id occurs, holding `u` wherever it does, the
      lookup finds `u`. */
  lemma {:induction false} FindFirst(units: seq<ArmyUnit>, u: ArmyUnit)
    requires exists i :: 0 <= i < |units| && units[i].instanceId == u.instanceId
    requires forall i :: 0 <= i < |units| && units[i].instanceId == u.instanceId ==> units[i] == u
    ensures ArmyBuilder.FindUnit(units, u.instanceId) == Some(u)
  {
    if units[0].instanceId != u.instanceId {
      var i :| 0 <= i < |units| && units[i].instanceId == u.instanceId;
      assert units[1..][i - 1] == units[i];
      FindFirst(units[1..], u);
    }
  }

  /** One unit at the start of a turn: a squad gets a fresh record per
      soldier; any other unit loses its four turn flags and its shots. */
  function NewTurnUnit(u: ArmyUnit): (r: ArmyUnit)
  {
    if u.data.SquadData? then
      u.(actionsUsed := seq(|u.data.squad.soldiers|, _ => NoActions))
    else
      u.(isMachineMoved := false, isMachineShot := false, isMachineMelee := false, isMachineDone := false,
         machineShotsUsed := 0, machineWeaponShots := map[])
  }

  /** `startNewTurn`: every unit starts afresh, the initiative dialog
      closes and the carousel returns to the first unit. */
  function StartNewTurn(s: Session): (r: Session)
    ensures |r.army.units| == |s.army.units|
    ensures r.focusedUnitIdx == 0 && !r.showInitiative
    ensures r.army.(units := s.army.units) == s.army
    ensures forall i :: 0 <= i < |r.army.units| ==> r.army.units[i] == NewTurnUnit(s.army.units[i])
  {
    var units := s.army.units;
    Session(s.army.(units := seq(|units|, i requires 0 <= i < |units| => NewTurnUnit(units[i]))), 0, false)
  }

  /** What a new turn keeps: the unit and its template, the dead, the
      durability, the ammunition and the spent grenade. */
  lemma NewTurnKeeps(u: ArmyUnit)
    ensures var r := NewTurnUnit(u);
            && r.instanceId == u.instanceId && r.data == u.data && r.instanceNumber == u.instanceNumber
            && r.deadSoldiers == u.deadSoldiers && r.currentDurability == u.currentDurability
            && r.currentAmmo == u.currentAmmo && r.grenadesUsed == u.grenadesUsed
  {
  }

  /** After a new turn no soldier of a squad has acted and no machine has
      moved, shot, fought or fired a weapon; a squad is then done only
      when every soldier is dead, a machine only when destroyed. */
  lemma NewTurnClears(u: ArmyUnit)
    ensures var r := NewTurnUnit(u);
            && (u.data.SquadData? ==>
                  && |r.actionsUsed| == |u.data.squad.soldiers|
                  && (forall idx :: UnitCard.ActionsAt(r, idx) == NoActions)
                  && (UnitCard.IsSquadDone(r) <==>
                        forall idx :: 0 <= idx < |u.data.squad.soldiers| ==> idx in u.deadSoldiers))
            && (u.data.MachineData? ==>
                  && !r.isMachineMoved && !r.isMachineShot && !r.isMachineMelee
                  && r.machineShotsUsed == 0 && (forall w :: UnitCard.WeaponShots(r, w) == 0)
                  && (UnitCard.IsMachineDone(r) <==> UnitCard.IsMachineDestroyed(u)))
  {
    var r := NewTurnUnit(u);
    if u.data.SquadData? {
      forall idx ensures UnitCard.SoldierFinished(r, idx) <==> idx in u.deadSoldiers {
        assert !UnitCard.ActionsAt(r, idx).done;
      }
    }
  }

  /** A second new turn changes nothing more. */
  lemma StartNewTurnIdempotent(s: Session)
    ensures StartNewTurn(StartNewTurn(s)) == StartNewTurn(s)
  {
    var once := StartNewTurn(s);
    assert forall i :: 0 <= i < |once.army.units| ==> NewTurnUnit(once.army.units[i]) == once.army.units[i];
  }

  /** Whether a unit can still fight: a squad with fewer dead than soldiers,
      anything else with durability left (absent durability reads as 0). */
  predicate IsActive(u: ArmyUnit)
  {
    if u.data.SquadData? then |u.deadSoldiers| < |u.data.squad.soldiers|
    else (if u.currentDurability.Some? then u.currentDurability.value else 0) > 0
  }

  /** `activeUnitsCount`, the length of the filtered list. */
  function ActiveUnitsCount(units: seq<ArmyUnit>): (n: nat)
    ensures n <= |units|
    ensures n == 0 <==> forall i :: 0 <= i < |units| ==> !IsActive(units[i])
    ensures n == |units| <==> forall i :: 0 <= i < |units| ==> IsActive(units[i])
  {
    if units == [] then 0
    else
      var rest := ActiveUnitsCount(units[1..]);
      assert forall i :: 1 <= i < |units| ==> units[i] == units[1..][i - 1];
      (if IsActive(units[0]) then 1 else 0) + rest
  }

  /** A new turn revives nobody and kills nobody. */
  lemma {:induction false} NewTurnKeepsActive(units: seq<ArmyUnit>)
    ensures ActiveUnitsCount(seq(|units|, i requires 0 <= i < |units| => NewTurnUnit(units[i])))
            == ActiveUnitsCount(units)
  {
    if units != [] {
      var r := seq(|units|, i requires 0 <= i < |units| => NewTurnUnit(units[i]));
      assert r[1..] == seq(|units[1..]|, i requires 0 <= i < |units[1..]| => NewTurnUnit(units[1..][i]));
      NewTurnKeepsActive(units[1..]);
    }
  }

  /** JavaScript's `%` on integers: the remainder takes the sign of the
      dividend, and a zero divisor gives NaN (here None). */
  function JsRemainder(a: int, n: nat): (r: Option<int>)
    ensures n == 0 <==> r.None?
    ensures n != 0 && a >= 0 ==> r == Some(a % n)
    ensures n != 0 ==> 0 - n < r.value < n
  {
    if n == 0 then None
    else if a >= 0 then Some(a % n)
    else Some(-((-a) % n))
  }

  /** The remainder of a number below twice the divisor. */
  lemma RemainderBelowTwice(x: int, n: int)
    requires 0 <= x < 2 * n
    ensures x % n == if x < n then x else x - n
  {
  }

  /** `nextUnit`: one unit on, wrapping to the first. */
  function NextUnit(prev: int, count: nat): Option<int>
  {
    JsRemainder(prev + 1, count)
  }

  /** `prevUnit`: one unit back, wrapping to the last. */
  function PrevUnit(prev: int, count: nat): Option<int>
  {
    JsRemainder(prev - 1 + count, count)
  }

  /** Within a non-empty army the carousel stays on a unit, steps by one
      with wrap-around, and the two buttons undo each other. */
  lemma CarouselSteps(prev: int, count: nat)
    requires 0 <= prev < count
    ensures NextUnit(prev, count) == Some(if prev + 1 == count then 0 else prev + 1)
    ensures PrevUnit(prev, count) == Some(if prev == 0 then count - 1 else prev - 1)
    ensures PrevUnit(NextUnit(prev, count).value, count) == Some(prev)
    ensures NextUnit(PrevUnit(prev, count).value, count) == Some(prev)
  {
    RemainderBelowTwice(prev + 1, count);
    RemainderBelowTwice(prev - 1 + count, count);
    var next := if prev + 1 == count then 0 else prev + 1;
    var back := if prev == 0 then count - 1 else prev - 1;
    RemainderBelowTwice(next - 1 + count, count);
    RemainderBelowTwice(back + 1, count);
  }

  /** An empty army has no unit to step to (the index becomes NaN). */
  lemma CarouselEmpty(prev: int)
    ensures NextUnit(prev, 0).None? && PrevUnit(prev, 0).None?
  {
  }

  datatype UnitStatus = UnitStatus(isDead: bool, isDone: bool)

  /** `getUnitStatus`: a squad is dead when as many soldiers are dead as it
      has, and done when each soldier is dead or done; any other unit is
      dead without durability and done when marked so. */
  function GetUnitStatus(u: ArmyUnit): (st: UnitStatus)
    ensures u.data.SquadData? ==> (st.isDead <==> UnitCard.IsAllDead(u)) && (st.isDone <==> UnitCard.IsSquadDone(u))
    ensures u.data.MachineData? ==> (st.isDone <==> u.isMachineDone)
    ensures u.data.MachineData? && u.currentDurability.Some? && u.currentDurability.value >= 0 ==>
              (st.isDead <==> UnitCard.IsMachineDestroyed(u))
  {
    if u.data.SquadData? then
      UnitStatus(|u.deadSoldiers| == |u.data.squad.soldiers|,
                 forall idx :: 0 <= idx < |u.data.squad.soldiers| ==> UnitCard.SoldierFinished(u, idx))
    else
      UnitStatus((if u.currentDurability.Some? then u.currentDurability.value else 0) == 0, u.isMachineDone)
  }

  /** With no more dead than soldiers and no negative durability, a unit
      is dead exactly when it is not counted as active. */
  lemma DeadIffInactive(u: ArmyUnit)
    requires u.data.SquadData? ==> |u.deadSoldiers| <= |u.data.squad.soldiers|
    requires u.currentDurability.Some? ==> u.currentDurability.value >= 0
    ensures GetUnitStatus(u).isDead <==> !IsActive(u)
  {
  }
}
