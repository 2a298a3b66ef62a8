/** The unit card of the game screen: the status predicates of a squad or a
    machine, the per-soldier and per-machine toggles, the clamped stat
    buttons, the machine's speed table and weapon bookkeeping, and how a
    finished attack is written back onto the unit. */
module UnitCard {
  import opened Strings
  import opened Types
  import opened GameLogic
  import opened CombatFlow
  import CombatFlowController

  /** The action record of soldier `idx`; a missing record reads as all
      false. */
  function ActionsAt(unit: ArmyUnit, idx: int): ActionFlags
  {
    if 0 <= idx < |unit.actionsUsed| then unit.actionsUsed[idx] else NoActions
  }

  predicate SoldierFinished(unit: ArmyUnit, idx: int)
  {
    idx in unit.deadSoldiers || ActionsAt(unit, idx).done
  }

  /** `isSquadDone`: every soldier is dead or done. */
  predicate IsSquadDone(unit: ArmyUnit)
  {
    unit.data.SquadData? && forall idx :: 0 <= idx < |unit.data.squad.soldiers| ==> SoldierFinished(unit, idx)
  }

  /** `isAllDead`: as many dead as soldiers. */
  predicate IsAllDead(unit: ArmyUnit)
  {
    unit.data.SquadData? && |unit.deadSoldiers| == |unit.data.squad.soldiers|
  }

  predicate IsMachineDestroyed(unit: ArmyUnit)
  {
    unit.data.MachineData? && unit.currentDurability == Some(0)
  }

  /** `isMachineDone`: marked done, or destroyed. */
  predicate IsMachineDone(unit: ArmyUnit)
  {
    unit.data.MachineData? && (unit.isMachineDone || IsMachineDestroyed(unit))
  }

  /** When the dead list names distinct soldiers of the squad, a squad with
      all soldiers dead is also done. */
  lemma AllDeadIsDone(unit: ArmyUnit)
    requires IsAllDead(unit)
    requires forall i :: 0 <= i < |unit.deadSoldiers| ==> 0 <= unit.deadSoldiers[i] < |unit.data.squad.soldiers|
    requires forall i, j :: 0 <= i < j < |unit.deadSoldiers| ==> unit.deadSoldiers[i] != unit.deadSoldiers[j]
    ensures IsSquadDone(unit)
  {
    var n := |unit.data.squad.soldiers|;
    var dead := set i | 0 <= i < |unit.deadSoldiers| :: unit.deadSoldiers[i];
    DistinctSetSize(unit.deadSoldiers);
    var idxs := Indices(n);
    DistinctSetSize(idxs);
    var range := set i | 0 <= i < n :: idxs[i];
    assert dead <= range by {
      forall x | x in dead ensures x in range {
        assert idxs[x] == x;
      }
    }
    SubsetSameSize(dead, range);
    forall idx | 0 <= idx < n ensures idx in unit.deadSoldiers {
      assert idxs[idx] == idx;
      assert idx in dead;
    }
  }

  /** The indices 0 to n - 1 in order. */
  function Indices(n: nat): (r: seq<int>)
    ensures |r| == n && forall i :: 0 <= i < n ==> r[i] == i
  {
    seq(n, i => i)
  }

  /** A sequence of distinct values has as many elements as its set. */
  lemma {:induction false} DistinctSetSize(s: seq<int>)
    requires forall i, j :: 0 <= i < j < |s| ==> s[i] != s[j]
    ensures |set i | 0 <= i < |s| :: s[i]| == |s|
  {
    if s != [] {
      var t := s[..|s| - 1];
      assert forall i, j :: 0 <= i < j < |t| ==> t[i] != t[j];
      DistinctSetSize(t);
      var st := set i | 0 <= i < |t| :: t[i];
      var ss := set i | 0 <= i < |s| :: s[i];
      assert ss == st + {s[|s| - 1]};
      assert s[|s| - 1] !in st;
    }
  }

  /** A subset as large as its superset is the whole superset. */
  lemma SubsetSameSize(a: set<int>, b: set<int>)
    requires a <= b && |a| == |b|
    ensures a == b
  {
    assert b == a + (b - a);
    assert |b - a| == 0;
  }

  datatype Flag = MovedFlag | ShotFlag | MeleeFlag | DoneFlag

  function FlagOf(a: ActionFlags, f: Flag): bool
  {
    match f
    case MovedFlag => a.moved
    case ShotFlag => a.shot
    case MeleeFlag => a.melee
    case DoneFlag => a.done
  }

  function WithFlag(a: ActionFlags, f: Flag, v: bool): (r: ActionFlags)
    ensures FlagOf(r, f) == v
    ensures forall g :: g != f ==> FlagOf(r, g) == FlagOf(a, g)
  {
    match f
    case MovedFlag => a.(moved := v)
    case ShotFlag => a.(shot := v)
    case MeleeFlag => a.(melee := v)
    case DoneFlag => a.(done := v)
  }

  /** `toggleAction`: flips one flag of one soldier's record. */
  function ToggleAction(unit: ArmyUnit, idx: nat, f: Flag): (r: ArmyUnit)
    requires idx < |unit.actionsUsed|
    ensures |r.actionsUsed| == |unit.actionsUsed|
    ensures FlagOf(r.actionsUsed[idx], f) == !FlagOf(unit.actionsUsed[idx], f)
    ensures forall g :: g != f ==> FlagOf(r.actionsUsed[idx], g) == FlagOf(unit.actionsUsed[idx], g)
    ensures forall i :: 0 <= i < |r.actionsUsed| && i != idx ==> r.actionsUsed[i] == unit.actionsUsed[i]
    ensures r.(actionsUsed := unit.actionsUsed) == unit
  {
    var a := unit.actionsUsed[idx];
    unit.(actionsUsed := unit.actionsUsed[idx := WithFlag(a, f, !FlagOf(a, f))])
  }

  /** Toggling the same flag twice restores the unit. */
  lemma ToggleActionTwice(unit: ArmyUnit, idx: nat, f: Flag)
    requires idx < |unit.actionsUsed|
    ensures ToggleAction(ToggleAction(unit, idx, f), idx, f) == unit
  {
    var a := unit.actionsUsed[idx];
    var b := ToggleAction(ToggleAction(unit, idx, f), idx, f).actionsUsed[idx];
    assert b == a by {
      forall g ensures FlagOf(b, g) == FlagOf(a, g) {
      }
      assert b.moved == FlagOf(b, MovedFlag) && b.shot == FlagOf(b, ShotFlag)
          && b.melee == FlagOf(b, MeleeFlag) && b.done == FlagOf(b, DoneFlag);
    }
    assert ToggleAction(ToggleAction(unit, idx, f), idx, f).actionsUsed == unit.actionsUsed;
  }

  /** `dead.filter(i => i !== idx)`. */
  function Remove(s: seq<int>, x: int): (r: seq<int>)
    ensures forall y :: y in r <==> y in s && y != x
    ensures |r| <= |s|
  {
    if s == [] then []
    else
      var rest := Remove(s[1..], x);
      assert forall y :: y in s <==> y == s[0] || y in s[1..];
      if s[0] == x then rest else [s[0]] + rest
  }

  /** `toggleDead`: a dead soldier is revived, a living one killed. */
  function ToggleDead(unit: ArmyUnit, idx: int): (r: ArmyUnit)
    ensures idx in r.deadSoldiers <==> idx !in unit.deadSoldiers
    ensures forall j :: j != idx ==> (j in r.deadSoldiers <==> j in unit.deadSoldiers)
    ensures r.(deadSoldiers := unit.deadSoldiers) == unit
  {
    var dead := unit.deadSoldiers;
    unit.(deadSoldiers := if idx in dead then Remove(dead, idx) else dead + [idx])
  }

  /** Toggling the same soldier twice restores who is dead. */
  lemma ToggleDeadTwice(unit: ArmyUnit, idx: int, j: int)
    ensures j in ToggleDead(ToggleDead(unit, idx), idx).deadSoldiers <==> j in unit.deadSoldiers
  {
  }

  /** `Math.max(0, Math.min(max, v))`. */
  function Clamp(v: int, max: int): (r: int)
    ensures r >= 0
    ensures max >= 0 ==> r <= max
    ensures 0 <= v <= max ==> r == v
    ensures v < 0 ==> r == 0
    ensures max >= 0 && v > max ==> r == max
  {
    var m := if max <= v then max else v;
    if m >= 0 then m else 0
  }

  datatype Stat = Durability | Ammo

  /** `updateMachineStat`: the stat moves by `delta` within [0, max]; a
      machine brought to no durability is also marked done. */
  function UpdateMachineStat(unit: ArmyUnit, stat: Stat, delta: int): (r: ArmyUnit)
    requires unit.data.MachineData?
    requires stat == Durability ==> unit.currentDurability.Some?
    requires stat == Ammo ==> unit.currentAmmo.Some?
    ensures stat == Durability ==>
              var v := Clamp(unit.currentDurability.value + delta, unit.data.machine.durabilityMax);
              && r.currentDurability == Some(v)
              && r.isMachineDone == (v == 0 || unit.isMachineDone)
              && r.(currentDurability := unit.currentDurability, isMachineDone := unit.isMachineDone) == unit
    ensures stat == Ammo ==>
              r == unit.(currentAmmo := Some(Clamp(unit.currentAmmo.value + delta, unit.data.machine.ammoMax)))
  {
    var m := unit.data.machine;
    match stat
    case Durability =>
      var v := Clamp(unit.currentDurability.value + delta, m.durabilityMax);
      if v == 0 then unit.(currentDurability := Some(0), isMachineDone := true)
      else unit.(currentDurability := Some(v))
    case Ammo => unit.(currentAmmo := Some(Clamp(unit.currentAmmo.value + delta, m.ammoMax)))
  }

  /** `toggleMachineDestroyed`: a destroyed machine comes back with one
      point of durability and not done; any other is destroyed and done. */
  function ToggleMachineDestroyed(unit: ArmyUnit): (r: ArmyUnit)
    ensures unit.currentDurability == Some(0) ==> r.currentDurability == Some(1) && !r.isMachineDone
    ensures unit.currentDurability != Some(0) ==> r.currentDurability == Some(0) && r.isMachineDone
    ensures r.(currentDurability := unit.currentDurability, isMachineDone := unit.isMachineDone) == unit
  {
    if unit.currentDurability == Some(0) then unit.(currentDurability := Some(1), isMachineDone := false)
    else unit.(currentDurability := Some(0), isMachineDone := true)
  }

  /** Destroying a machine and bringing it back leaves it alive. */
  lemma ToggleDestroyedAlternates(unit: ArmyUnit)
    requires unit.data.MachineData?
    ensures IsMachineDestroyed(ToggleMachineDestroyed(unit)) <==> !IsMachineDestroyed(unit)
    ensures IsMachineDestroyed(unit) ==> !IsMachineDone(ToggleMachineDestroyed(unit))
    ensures !IsMachineDestroyed(unit) ==> IsMachineDone(ToggleMachineDestroyed(unit))
  {
  }

  predicate InSector(s: SpeedSector, d: int)
  {
    s.minDurability <= d <= s.maxDurability
  }

  /** `speed_sectors.find(...)`: the first sector holding `d`. */
  function FindSector(sectors: seq<SpeedSector>, d: int): (r: Option<nat>)
    ensures r.None? <==> forall k :: 0 <= k < |sectors| ==> !InSector(sectors[k], d)
    ensures r.Some? ==> r.value < |sectors| && InSector(sectors[r.value], d)
                        && forall k :: 0 <= k < r.value ==> !InSector(sectors[k], d)
    decreases |sectors|
  {
    if sectors == [] then None
    else if InSector(sectors[0], d) then Some(0)
    else
      var r := FindSector(sectors[1..], d);
      assert forall k :: 1 <= k < |sectors| ==> sectors[k] == sectors[1..][k - 1];
      if r.Some? then Some(r.value + 1) else None
  }

  /** `getMachineSpeed`: 0 without durability, otherwise the speed of the
      first sector holding the durability, 0 if none does. */
  function GetMachineSpeed(unit: ArmyUnit): (speed: int)
    requires unit.data.MachineData?
    ensures unit.currentDurability.None? || unit.currentDurability == Some(0) ==> speed == 0
    ensures unit.currentDurability.Some? && unit.currentDurability.value != 0 ==>
              var sectors := unit.data.machine.speedSectors;
              var d := unit.currentDurability.value;
              || (speed == 0 && forall k :: 0 <= k < |sectors| ==> !InSector(sectors[k], d))
              || exists k :: 0 <= k < |sectors| && InSector(sectors[k], d) && speed == sectors[k].speed
                             && forall j :: 0 <= j < k ==> !InSector(sectors[j], d)
  {
    if unit.currentDurability.None? || unit.currentDurability.value == 0 then 0
    else
      var sectors := unit.data.machine.speedSectors;
      match FindSector(sectors, unit.currentDurability.value)
      case None => 0
      case Some(k) => sectors[k].speed
  }

  /** Shots already made with a weapon this turn (`?.[w] || 0`). */
  function WeaponShots(unit: ArmyUnit, w: int): int
  {
    if w in unit.machineWeaponShots then unit.machineWeaponShots[w] else 0
  }

  function AmmoLeft(unit: ArmyUnit): int
  {
    if unit.currentAmmo.Some? then unit.currentAmmo.value else 0
  }

  /** `canShoot` for weapon `w`. */
  predicate CanShoot(unit: ArmyUnit, w: int)
    requires unit.data.MachineData?
  {
    !IsMachineDone(unit) && !IsMachineDestroyed(unit) && AmmoLeft(unit) > 0
    && unit.machineShotsUsed < unit.data.machine.fireRate && WeaponShots(unit, w) == 0
  }

  /** The "fired" button: the weapon counts one shot, the machine one more
      shot this turn and one round less, never below zero. */
  function MarkWeaponFired(unit: ArmyUnit, w: int): (r: ArmyUnit)
    ensures WeaponShots(r, w) == 1
    ensures forall v :: v != w ==> WeaponShots(r, v) == WeaponShots(unit, v)
    ensures r.machineShotsUsed == unit.machineShotsUsed + 1
    ensures r.currentAmmo == Some(if AmmoLeft(unit) >= 1 then AmmoLeft(unit) - 1 else 0)
    ensures r.(machineWeaponShots := unit.machineWeaponShots, machineShotsUsed := unit.machineShotsUsed,
               currentAmmo := unit.currentAmmo) == unit
  {
    unit.(machineWeaponShots := unit.machineWeaponShots[w := 1],
          machineShotsUsed := unit.machineShotsUsed + 1,
          currentAmmo := Some(if AmmoLeft(unit) - 1 >= 0 then AmmoLeft(unit) - 1 else 0))
  }

  /** The reset button: the weapon's entry goes and the turn's shot count
      drops by one, never below zero. */
  function ResetWeapon(unit: ArmyUnit, w: int): (r: ArmyUnit)
    ensures WeaponShots(r, w) == 0 && w !in r.machineWeaponShots
    ensures forall v :: v != w ==> WeaponShots(r, v) == WeaponShots(unit, v)
    ensures r.machineShotsUsed == if unit.machineShotsUsed >= 1 then unit.machineShotsUsed - 1 else 0
    ensures r.(machineWeaponShots := unit.machineWeaponShots, machineShotsUsed := unit.machineShotsUsed) == unit
  {
    unit.(machineWeaponShots := unit.machineWeaponShots - {w},
          machineShotsUsed := if unit.machineShotsUsed - 1 >= 0 then unit.machineShotsUsed - 1 else 0)
  }

  /** Resetting a weapon just marked fired undoes the mark, except for the
      round spent. */
  lemma MarkThenReset(unit: ArmyUnit, w: int)
    requires w !in unit.machineWeaponShots && unit.machineShotsUsed >= 0
    ensures ResetWeapon(MarkWeaponFired(unit, w), w).(currentAmmo := unit.currentAmmo) == unit
  {
    assert unit.machineWeaponShots[w := 1] - {w} == unit.machineWeaponShots;
  }

  /** A weapon that fires can fire no more this turn. */
  lemma FiredWeaponCannotShoot(unit: ArmyUnit, w: int)
    requires unit.data.MachineData?
    ensures !CanShoot(MarkWeaponFired(unit, w), w)
  {
  }

  /** The "reset turn" button: a squad gets its grenade back and fresh
      records, one per soldier; a machine loses its four turn flags. */
  function ResetTurn(unit: ArmyUnit): (r: ArmyUnit)
    ensures unit.data.SquadData? ==>
              && !r.grenadesUsed && |r.actionsUsed| == |unit.data.squad.soldiers|
              && (forall i :: 0 <= i < |r.actionsUsed| ==> r.actionsUsed[i] == NoActions)
              && r.(grenadesUsed := unit.grenadesUsed, actionsUsed := unit.actionsUsed) == unit
    ensures unit.data.MachineData? ==>
              r == unit.(isMachineMoved := false, isMachineShot := false, isMachineMelee := false, isMachineDone := false)
  {
    if unit.data.SquadData? then
      unit.(grenadesUsed := false, actionsUsed := seq(|unit.data.squad.soldiers|, _ => NoActions))
    else unit.(isMachineMoved := false, isMachineShot := false, isMachineMelee := false, isMachineDone := false)
  }

  /** `newActions[idx] = { ...newActions[idx], <flag>: true }` on a copy:
      a missing record is created, the gap before it reading as all
      false; a negative index touches no record. */
  function MarkSoldier(actions: seq<ActionFlags>, idx: int, f: Flag): (r: seq<ActionFlags>)
    ensures idx < 0 ==> r == actions
    ensures idx >= 0 ==> |r| == if idx < |actions| then |actions| else idx + 1
    ensures idx >= 0 ==> FlagOf(r[idx], f)
    ensures 0 <= idx < |actions| ==> forall g :: g != f ==> FlagOf(r[idx], g) == FlagOf(actions[idx], g)
    ensures forall i :: 0 <= i < |actions| && i != idx ==> r[i] == actions[i]
    ensures forall i :: |actions| <= i < |r| && i != idx ==> r[i] == NoActions
  {
    if idx < 0 then actions
    else if idx < |actions| then actions[idx := WithFlag(actions[idx], f, true)]
    else actions + seq(idx - |actions|, _ => NoActions) + [WithFlag(NoActions, f, true)]
  }

  /** Writing a finished attack onto the unit as the card's effect does it.
      For a squad's grenade it makes two updates from the same unit, so the
      second (grenade spent) replaces the first (soldier has shot). */
  function ApplyResultAsWritten(unit: ArmyUnit, result: CombatResult): ArmyUnit
  {
    if (result.actionType == Shot || result.actionType == Grenade)
       && result.unitType == SquadKind && result.soldierIndex.Some? && result.actionType == Grenade
    then unit.(grenadesUsed := true)
    else ApplyResult(unit, result)
  }

  /** A machine's shot with weapon `w`: one round spent (never below zero),
      one more shot for the turn and for the weapon, the machine marked as
      having shot. */
  function MachineShot(unit: ArmyUnit, w: int): (r: ArmyUnit)
    ensures r.currentAmmo == Some(if AmmoLeft(unit) >= 1 then AmmoLeft(unit) - 1 else 0)
    ensures r.machineShotsUsed == unit.machineShotsUsed + 1
    ensures WeaponShots(r, w) == WeaponShots(unit, w) + 1
    ensures forall v :: v != w ==> WeaponShots(r, v) == WeaponShots(unit, v)
    ensures r.isMachineShot
    ensures r.(currentAmmo := unit.currentAmmo, machineShotsUsed := unit.machineShotsUsed,
               machineWeaponShots := unit.machineWeaponShots, isMachineShot := unit.isMachineShot) == unit
  {
    unit.(currentAmmo := Some(if AmmoLeft(unit) - 1 >= 0 then AmmoLeft(unit) - 1 else 0),
          machineShotsUsed := unit.machineShotsUsed + 1,
          machineWeaponShots := unit.machineWeaponShots[w := WeaponShots(unit, w) + 1],
          isMachineShot := true)
  }

  /** Writing a finished attack onto the unit: the soldier who shot, threw
      or fought is marked; a grenade is spent; a machine that shot spends a
      round (never below zero), counts a shot for the turn and for the
      weapon (weapon 0 when none is recorded) and is marked as having shot;
      a machine that rammed is marked as having fought. */
  function ApplyResult(unit: ArmyUnit, result: CombatResult): (r: ArmyUnit)
    ensures result.actionType == Shot && result.unitType == SquadKind && result.soldierIndex.Some? ==>
              r == unit.(actionsUsed := MarkSoldier(unit.actionsUsed, result.soldierIndex.value, ShotFlag))
    ensures result.actionType == Grenade && result.unitType == SquadKind && result.soldierIndex.Some? ==>
              r == unit.(actionsUsed := MarkSoldier(unit.actionsUsed, result.soldierIndex.value, ShotFlag),
                         grenadesUsed := true)
    ensures result.actionType == Grenade && result.unitType == SquadKind && result.soldierIndex.Some?
            && result.soldierIndex.value >= 0 ==>
              r.grenadesUsed && |r.actionsUsed| > result.soldierIndex.value
              && FlagOf(r.actionsUsed[result.soldierIndex.value], ShotFlag)
    ensures result.actionType == MeleeAction && result.unitType == SquadKind && result.soldierIndex.Some? ==>
              r == unit.(actionsUsed := MarkSoldier(unit.actionsUsed, result.soldierIndex.value, MeleeFlag))
    ensures (result.actionType == Shot || result.actionType == Grenade) && result.unitType == MachineKind ==>
              var w := if result.parameters.weaponIndex.Some? then result.parameters.weaponIndex.value else 0;
              && r.currentAmmo == Some(if AmmoLeft(unit) >= 1 then AmmoLeft(unit) - 1 else 0)
              && r.machineShotsUsed == unit.machineShotsUsed + 1
              && WeaponShots(r, w) == WeaponShots(unit, w) + 1
              && (forall v :: v != w ==> WeaponShots(r, v) == WeaponShots(unit, v))
              && r.isMachineShot
              && r.(currentAmmo := unit.currentAmmo, machineShotsUsed := unit.machineShotsUsed,
                    machineWeaponShots := unit.machineWeaponShots, isMachineShot := unit.isMachineShot) == unit
    ensures result.actionType == MeleeAction && result.unitType == MachineKind ==> r == unit.(isMachineMelee := true)
    ensures result.unitType == SquadKind && result.soldierIndex.None? ==> r == unit
  {
    if result.actionType == Shot || result.actionType == Grenade then
      if result.unitType == SquadKind && result.soldierIndex.Some? then
        var marked := unit.(actionsUsed := MarkSoldier(unit.actionsUsed, result.soldierIndex.value, ShotFlag));
        if result.actionType == Grenade then marked.(grenadesUsed := true) else marked
      else if result.unitType == MachineKind then
        MachineShot(unit, if result.parameters.weaponIndex.Some? then result.parameters.weaponIndex.value else 0)
      else unit
    else
      if result.unitType == SquadKind && result.soldierIndex.Some? then
        unit.(actionsUsed := MarkSoldier(unit.actionsUsed, result.soldierIndex.value, MeleeFlag))
      else if result.unitType == MachineKind then unit.(isMachineMelee := true)
      else unit
  }

  /** The grenade thrown by soldier 0 of a squad that has not acted: as
      written, the grenade is spent but the soldier is not marked as having
      shot. */
  lemma GrenadeLosesShotMark(unit: ArmyUnit, result: CombatResult)
    requires unit.actionsUsed == [NoActions] && !unit.grenadesUsed
    requires result.actionType == Grenade && result.unitType == SquadKind && result.soldierIndex == Some(0)
    ensures ApplyResultAsWritten(unit, result).grenadesUsed
    ensures !ApplyResultAsWritten(unit, result).actionsUsed[0].shot
    ensures ApplyResult(unit, result).actionsUsed[0].shot
  {
    assert FlagOf(ApplyResult(unit, result).actionsUsed[0], ShotFlag);
  }

  /** For every result except a squad's grenade the two agree. */
  lemma ApplyResultAgrees(unit: ArmyUnit, result: CombatResult)
    requires !(result.actionType == Grenade && result.unitType == SquadKind && result.soldierIndex.Some?)
    ensures ApplyResultAsWritten(unit, result) == ApplyResult(unit, result)
  {
  }

  /** Applying a squad's result twice is applying it once; a machine's
      shot is charged again on every application. */
  lemma ApplyResultRepeats(unit: ArmyUnit, result: CombatResult)
    ensures result.unitType == SquadKind ==> ApplyResult(ApplyResult(unit, result), result) == ApplyResult(unit, result)
    ensures (result.actionType == Shot || result.actionType == Grenade) && result.unitType == MachineKind ==>
              ApplyResult(ApplyResult(unit, result), result).machineShotsUsed == unit.machineShotsUsed + 2
  {
    if result.unitType == SquadKind && result.soldierIndex.Some? {
      var idx := result.soldierIndex.value;
      var f := if result.actionType == MeleeAction then MeleeFlag else ShotFlag;
      MarkSoldierTwice(unit.actionsUsed, idx, f);
    }
  }

  lemma MarkSoldierTwice(actions: seq<ActionFlags>, idx: int, f: Flag)
    ensures MarkSoldier(MarkSoldier(actions, idx, f), idx, f) == MarkSoldier(actions, idx, f)
  {
    var once := MarkSoldier(actions, idx, f);
    if idx >= 0 {
      var a := once[idx];
      assert WithFlag(a, f, true) == a by {
        assert FlagOf(a, f);
        match f
        case MovedFlag => assert a.moved;
        case ShotFlag => assert a.shot;
        case MeleeFlag => assert a.melee;
        case DoneFlag => assert a.done;
      }
      assert once[idx := WithFlag(a, f, true)] == once;
    }
  }

  /** `handleApplyResult`: the log entry of the shown result, marked as
      applied. */
  function AppliedEntry(s: CombatFlowState, suffix: string): (e: Option<CombatFlowController.LogEntry>)
    ensures e.Some? <==> s.result.Some?
    ensures e.Some? ==> e.value.applied && e.value.result == s.result.value
                        && e.value.timestamp == s.result.value.timestamp
  {
    if s.result.Some? then Some(CombatFlowController.EntryFor(s.result.value, true, suffix)) else None
  }
}
