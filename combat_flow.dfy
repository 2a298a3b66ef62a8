/** The combat assistant's state machine: the phases a combat goes through
    (idle, action choice, parameters, rolling, results, apply), the reducer
    that moves between them, and the hook object that holds the state and
    the selected rules edition and resolves a shot, a grenade or a melee
    attack with the edition's rules. */
module CombatFlow {
  import opened Strings
  import opened Types
  import opened GameLogic
  import opened RulesRegistry
  import Fan

  datatype Phase = Idle | ActionSelect | Parameters | Rolling | Results | Apply

  /** The kind of the attacking unit ('squad' or 'machine'). */
  datatype UnitKind = SquadKind | MachineKind

  function KindOf(u: ArmyUnit): UnitKind
  {
    if u.data.SquadData? then SquadKind else MachineKind
  }

  datatype CombatParameters = CombatParameters(
    distance: int, targetArmor: int, targetMelee: int,
    fortification: Fortification, weaponIndex: Option<int>)

  /** A partial set of parameters: a present field overwrites, an absent one
      keeps the current value.  `weaponIndex: Some(None)` clears the
      weapon. */
  datatype ParameterUpdate = ParameterUpdate(
    distance: Option<int>, targetArmor: Option<int>, targetMelee: Option<int>,
    fortification: Option<Fortification>, weaponIndex: Option<Option<int>>)

  const NoUpdate := ParameterUpdate(None, None, None, None, None)

  /** The dice shown on screen. */
  datatype DiceDisplay = DiceDisplay(
    hit: Option<int>, power: Option<seq<int>>, meleeA: Option<int>, meleeD: Option<int>)

  const EmptyDisplay := DiceDisplay(None, None, None, None)

  datatype CombatResult = CombatResult(
    actionType: ActionType, unitType: UnitKind, parameters: CombatParameters,
    hitResult: Option<HitResult>, damageResult: Option<DamageResult>,
    meleeResult: Option<MeleeResult>, timestamp: int,
    unitName: string, unitId: string, soldierIndex: Option<int>)

  datatype CombatFlowState = CombatFlowState(
    phase: Phase, actionType: Option<ActionType>, unit: Option<ArmyUnit>,
    unitType: UnitKind, soldierIndex: Option<int>, parameters: CombatParameters,
    diceDisplay: DiceDisplay, result: Option<CombatResult>, isRolling: bool)

  datatype Action =
    | StartCombat(startUnit: ArmyUnit, startSoldier: Option<int>, startWeapon: Option<int>)
    | SelectAction(selected: ActionType)
    | SetParameters(update: ParameterUpdate)
    | ExecuteRoll
    | UpdateDice(shown: Option<DiceDisplay>)
    | RollComplete(outcome: CombatResult, finalDisplay: Option<DiceDisplay>)
    | ApplyResult
    | GoBackToActionSelect
    | GoBackToParameters
    | CloseCombat
    | Cancel
    /** An action of any other type, which the reducer ignores. */
    | Unrecognised(name: string)

  const InitialParameters := CombatParameters(5, 2, 2, NoCover, None)

  const Initial := CombatFlowState(Idle, None, None, SquadKind, None, InitialParameters, EmptyDisplay, None, false)

  /** `{...parameters, ...update}`. */
  function Merge(p: CombatParameters, u: ParameterUpdate): CombatParameters
  {
    CombatParameters(
      if u.distance.Some? then u.distance.value else p.distance,
      if u.targetArmor.Some? then u.targetArmor.value else p.targetArmor,
      if u.targetMelee.Some? then u.targetMelee.value else p.targetMelee,
      if u.fortification.Some? then u.fortification.value else p.fortification,
      if u.weaponIndex.Some? then u.weaponIndex.value else p.weaponIndex)
  }

  /** `action.diceDisplay || {}`. */
  function DisplayOrEmpty(d: Option<DiceDisplay>): DiceDisplay
  {
    if d.Some? then d.value else EmptyDisplay
  }

  /** `combatFlowReducer`. */
  function Reduce(s: CombatFlowState, a: Action): CombatFlowState
  {
    match a
    case StartCombat(u, si, wi) =>
      Initial.(phase := ActionSelect, unit := Some(u), unitType := KindOf(u), soldierIndex := si,
               parameters := InitialParameters.(weaponIndex := wi))
    case SelectAction(t) => s.(phase := Parameters, actionType := Some(t))
    case GoBackToActionSelect => s.(phase := ActionSelect, actionType := None)
    case GoBackToParameters => s.(phase := Parameters)
    case SetParameters(u) => s.(parameters := Merge(s.parameters, u))
    case ExecuteRoll => s.(phase := Rolling, isRolling := true, diceDisplay := EmptyDisplay)
    case UpdateDice(d) => s.(diceDisplay := DisplayOrEmpty(d))
    case RollComplete(r, d) => s.(phase := Results, isRolling := false, result := Some(r), diceDisplay := DisplayOrEmpty(d))
    case ApplyResult => s.(phase := Apply)
    case CloseCombat => Initial
    case Cancel => Initial
    case Unrecognised(_) => s
  }

  /** Starting a combat forgets everything about the previous one: the
      outcome depends only on the unit, the soldier and the weapon, and is
      the initial state with those filled in and the action choice open. */
  lemma StartFromAnyState(s: CombatFlowState, t: CombatFlowState, u: ArmyUnit, si: Option<int>, wi: Option<int>)
    ensures Reduce(s, StartCombat(u, si, wi)) == Reduce(t, StartCombat(u, si, wi))
    ensures var r := Reduce(s, StartCombat(u, si, wi));
            && r.phase == ActionSelect && r.actionType.None? && r.unit == Some(u)
            && r.soldierIndex == si && r.parameters.weaponIndex == wi
            && r.(phase := Idle, unit := None, unitType := SquadKind, soldierIndex := None,
                  parameters := r.parameters.(weaponIndex := None)) == Initial
  {
  }

  /** Choosing an action and going back restores the action choice: only
      the action type is forgotten. */
  lemma SelectThenBack(s: CombatFlowState, t: ActionType)
    requires s.phase == ActionSelect
    ensures Reduce(s, SelectAction(t)).phase == Parameters
    ensures Reduce(s, SelectAction(t)).actionType == Some(t)
    ensures Reduce(Reduce(s, SelectAction(t)), GoBackToActionSelect) == s.(actionType := None)
  {
  }

  /** Going back from the results to the parameters changes the phase only:
      the result and the dice stay. */
  lemma BackToParametersKeeps(s: CombatFlowState)
    ensures Reduce(s, GoBackToParameters).phase == Parameters
    ensures Reduce(s, GoBackToParameters).(phase := s.phase) == s
  {
  }

  /** Setting parameters leaves everything but the parameters alone, an
      empty update changes nothing, and applying the same update twice is
      the same as applying it once. */
  lemma SetParametersOnly(s: CombatFlowState, u: ParameterUpdate)
    ensures Reduce(s, SetParameters(u)).(parameters := s.parameters) == s
    ensures Reduce(s, SetParameters(NoUpdate)) == s
    ensures Reduce(Reduce(s, SetParameters(u)), SetParameters(u)) == Reduce(s, SetParameters(u))
  {
  }

  /** A supplied field is overwritten, an absent one kept. */
  lemma MergeFields(p: CombatParameters, u: ParameterUpdate)
    ensures u.distance.None? ==> Merge(p, u).distance == p.distance
    ensures u.distance.Some? ==> Merge(p, u).distance == u.distance.value
    ensures u.targetArmor.None? ==> Merge(p, u).targetArmor == p.targetArmor
    ensures u.targetArmor.Some? ==> Merge(p, u).targetArmor == u.targetArmor.value
    ensures u.targetMelee.None? ==> Merge(p, u).targetMelee == p.targetMelee
    ensures u.targetMelee.Some? ==> Merge(p, u).targetMelee == u.targetMelee.value
    ensures u.fortification.None? ==> Merge(p, u).fortification == p.fortification
    ensures u.fortification.Some? ==> Merge(p, u).fortification == u.fortification.value
    ensures u.weaponIndex.None? ==> Merge(p, u).weaponIndex == p.weaponIndex
    ensures u.weaponIndex.Some? ==> Merge(p, u).weaponIndex == u.weaponIndex.value
  {
  }

  /** Rolling starts with a blank display; completing stores the result and
      ends the rolling. */
  lemma RollLifecycle(s: CombatFlowState, r: CombatResult, d: Option<DiceDisplay>)
    ensures var rolling := Reduce(s, ExecuteRoll);
            rolling.phase == Rolling && rolling.isRolling && rolling.diceDisplay == EmptyDisplay
    ensures var done := Reduce(Reduce(s, ExecuteRoll), RollComplete(r, d));
            && done.phase == Results && !done.isRolling && done.result == Some(r)
            && done.diceDisplay == DisplayOrEmpty(d)
            && done.(phase := s.phase, isRolling := s.isRolling, result := s.result,
                     diceDisplay := s.diceDisplay) == s
  {
  }

  /** The animation's intermediate displays are overwritten by the final
      one: dice updates before completion do not show in the outcome. */
  lemma AnimationOverwritten(s: CombatFlowState, shown: Option<DiceDisplay>, r: CombatResult, d: Option<DiceDisplay>)
    ensures Reduce(Reduce(s, UpdateDice(shown)), RollComplete(r, d)) == Reduce(s, RollComplete(r, d))
  {
  }

  /** Closing or cancelling returns the initial state from anywhere, so
      doing it twice is doing it once; an unknown action changes nothing. */
  lemma CloseIdempotent(s: CombatFlowState, name: string)
    ensures Reduce(s, CloseCombat) == Initial && Reduce(s, Cancel) == Initial
    ensures Reduce(Reduce(s, CloseCombat), CloseCombat) == Reduce(s, CloseCombat)
    ensures Reduce(Reduce(s, Cancel), Cancel) == Reduce(s, Cancel)
    ensures Reduce(s, Unrecognised(name)) == s
  {
  }

  /** The recorded unit type is that of the recorded unit. */
  predicate Consistent(s: CombatFlowState)
  {
    s.unit.Some? ==> s.unitType == KindOf(s.unit.value)
  }

  /** Every action keeps the unit type in step with the unit. */
  lemma ReduceKeepsConsistent(s: CombatFlowState, a: Action)
    requires Consistent(s)
    ensures Consistent(Reduce(s, a))
  {
  }

  /** `isOpen`. */
  function IsOpen(s: CombatFlowState): bool
  {
    s.phase != Idle
  }

  /** `canGoBack`. */
  function CanGoBack(s: CombatFlowState): bool
  {
    s.phase == Parameters || s.phase == Results
  }

  /** The action `goBack` dispatches. */
  function GoBackAction(p: Phase): Action
  {
    match p
    case Parameters => GoBackToActionSelect
    case Results => GoBackToParameters
    case _ => Cancel
  }

  /** Going back steps one phase back where that is possible, and otherwise
      cancels the combat; only a combat that can go back stays open. */
  lemma GoBackSteps(s: CombatFlowState)
    ensures s.phase == Parameters ==> Reduce(s, GoBackAction(s.phase)).phase == ActionSelect
    ensures s.phase == Results ==> Reduce(s, GoBackAction(s.phase)).phase == Parameters
    ensures !CanGoBack(s) ==> Reduce(s, GoBackAction(s.phase)) == Initial
    ensures IsOpen(Reduce(s, GoBackAction(s.phase))) <==> CanGoBack(s)
    ensures CanGoBack(s) ==> IsOpen(s)
  {
  }

  /** The result of an attack, or the error it throws. */
  datatype Outcome<T> = Ok(value: T) | Failure(error: string)

  const InvalidShotError := "Cannot execute shot: invalid state"
  const InvalidMeleeError := "Cannot execute melee: invalid state"
  const UnknownActionError := "Unknown action type: null"
  /** Reading a soldier or weapon that is not there. */
  const MissingArmsError := "Cannot read properties of undefined"

  /** The cover text handed to `calculateDamage` in its `special` slot. */
  function CoverSpecial(f: Fortification): Option<WeaponSpecial>
  {
    Some(SpecialText(FortificationName(f)))
  }

  /** None of the cover names is a special effect the fan edition knows. */
  lemma CoverIsNoSpecial(f: Fortification)
    ensures Fan.FanSpecial(CoverSpecial(f)) == None
  {
    var t := FortificationName(f);
    assert NoDigits(t) by {
      match f
      case NoCover => assert t == "none";
      case Light => assert t == "light";
      case Heavy => assert t == "heavy";
    }
    Fan.NoDigitsNoSpecial(t);
  }

  predicate ShotAllowed(s: CombatFlowState)
  {
    s.unit.Some? && s.actionType == Some(Shot)
  }

  predicate MeleeAllowed(s: CombatFlowState)
  {
    s.unit.Some? && s.actionType == Some(MeleeAction)
  }

  /** The range and power the shot uses: the chosen soldier's for a squad,
      the chosen weapon's for a machine, empty when none is chosen. */
  function ShotArms(s: CombatFlowState): (r: Outcome<(string, string)>)
    requires s.unit.Some?
    ensures r.Failure? ==> r.error == MissingArmsError
    ensures s.unitType == SquadKind && s.soldierIndex.None? ==> r == Ok(("", ""))
    ensures s.unitType == MachineKind && s.parameters.weaponIndex.None? ==> r == Ok(("", ""))
    ensures var data := s.unit.value.data;
            s.unitType == SquadKind && s.soldierIndex.Some? ==>
              var i := s.soldierIndex.value;
              (r.Failure? <==> !(data.SquadData? && 0 <= i < |data.squad.soldiers|))
              && (r.Ok? ==> r.value == (data.squad.soldiers[i].range, data.squad.soldiers[i].power))
    ensures var data := s.unit.value.data;
            s.unitType == MachineKind && s.parameters.weaponIndex.Some? ==>
              var i := s.parameters.weaponIndex.value;
              (r.Failure? <==> !(data.MachineData? && 0 <= i < |data.machine.weapons|))
              && (r.Ok? ==> r.value == (data.machine.weapons[i].range, data.machine.weapons[i].power))
  {
    var data := s.unit.value.data;
    if s.unitType == SquadKind && s.soldierIndex.Some? then
      var i := s.soldierIndex.value;
      if data.SquadData? && 0 <= i < |data.squad.soldiers| then
        Ok((data.squad.soldiers[i].range, data.squad.soldiers[i].power))
      else Failure(MissingArmsError)
    else if s.unitType == MachineKind && s.parameters.weaponIndex.Some? then
      var i := s.parameters.weaponIndex.value;
      if data.MachineData? && 0 <= i < |data.machine.weapons| then
        Ok((data.machine.weapons[i].range, data.machine.weapons[i].power))
      else Failure(MissingArmsError)
    else Ok(("", ""))
  }

  /** The damage of a shot that missed. */
  const NoDamage := DamageResult(0, [], None)

  /** `executeShot`: the range roll against the distance, and the power
      roll against the armor only after a hit. */
  function ShotOutcome(s: CombatFlowState, id: RulesVersionId, hitDraw: Dice, damageDraw: Dice, now: int)
    : (r: Outcome<CombatResult>)
  {
    if !ShotAllowed(s) then Failure(InvalidShotError)
    else
      match ShotArms(s)
      case Failure(e) => Failure(e)
      case Ok(arms) =>
        var hit := RulesHit(id, arms.0, s.parameters.distance, hitDraw);
        var damage := if hit.success then DamageOutcome(id, arms.1, s.parameters.targetArmor,
                                                        CoverSpecial(s.parameters.fortification), damageDraw)
                      else NoDamage;
        Ok(CombatResult(Shot, s.unitType, s.parameters, Some(hit), Some(damage), None, now,
                        s.unit.value.data.Name(), s.unit.value.instanceId, s.soldierIndex))
  }

  /** A shot is refused without a unit or with another action chosen; a
      shot that is made hits iff the range roll reaches the distance, and
      only a hit throws damage dice. */
  lemma ShotRules(s: CombatFlowState, id: RulesVersionId, hitDraw: Dice, damageDraw: Dice, now: int)
    ensures ShotOutcome(s, id, hitDraw, damageDraw, now).Failure? <==> !ShotAllowed(s) || ShotArms(s).Failure?
    ensures var r := ShotOutcome(s, id, hitDraw, damageDraw, now);
            r.Ok? ==>
              && r.value.actionType == Shot && r.value.parameters == s.parameters
              && r.value.hitResult.Some? && r.value.damageResult.Some? && r.value.meleeResult.None?
              && (r.value.hitResult.value.success <==> r.value.hitResult.value.total >= s.parameters.distance)
              && (!r.value.hitResult.value.success ==> r.value.damageResult.value == NoDamage)
              && (r.value.hitResult.value.success ==>
                    r.value.damageResult.value.rolls == DamageRolls(ShotArms(s).value.1, damageDraw))
  {
  }

  /** The chosen cover changes neither the hit nor the damage of a shot:
      the hit rule takes no cover and the damage rule reads the cover name
      as a special effect that matches nothing. */
  lemma ShotIgnoresCover(s: CombatFlowState, f: Fortification, id: RulesVersionId, hitDraw: Dice, damageDraw: Dice, now: int)
    ensures var t := s.(parameters := s.parameters.(fortification := f));
            var r := ShotOutcome(s, id, hitDraw, damageDraw, now);
            var q := ShotOutcome(t, id, hitDraw, damageDraw, now);
            && r.Ok? == q.Ok?
            && (r.Ok? ==> r.value.hitResult == q.value.hitResult && r.value.damageResult == q.value.damageResult)
  {
    var t := s.(parameters := s.parameters.(fortification := f));
    assert ShotAllowed(t) == ShotAllowed(s);
    if ShotAllowed(s) {
      assert ShotArms(t) == ShotArms(s);
      if ShotArms(s).Ok? {
        var arms := ShotArms(s).value;
        var armor := s.parameters.targetArmor;
        CoverIsNoSpecial(f);
        CoverIsNoSpecial(s.parameters.fortification);
        assert DamageOutcome(id, arms.1, armor, CoverSpecial(f), damageDraw)
            == DamageOutcome(id, arms.1, armor, CoverSpecial(s.parameters.fortification), damageDraw);
      }
    }
  }

  /** `executeGrenade`: no check of the state; the distance die always
      counts as a hit and the power is a 1D20 roll against the armor. */
  function GrenadeOutcome(s: CombatFlowState, id: RulesVersionId, distanceDraw: Dice, damageDraw: Dice, now: int)
    : (r: CombatResult)
  {
    var roll := distanceDraw(0);
    CombatResult(Grenade, s.unitType, s.parameters, Some(HitResult(true, roll, roll, true)),
                 Some(DamageOutcome(id, "1D20", s.parameters.targetArmor,
                                    CoverSpecial(s.parameters.fortification), damageDraw)),
                 None, now,
                 if s.unit.Some? then s.unit.value.data.Name() else "",
                 if s.unit.Some? then s.unit.value.instanceId else "",
                 s.soldierIndex)
  }

  /** A grenade always hits with its distance die as roll and total, and
      throws exactly one d20: with fair dice the distance is 1 to 6 and
      the grenade wounds at most once. */
  lemma GrenadeRules(s: CombatFlowState, id: RulesVersionId, distanceDraw: Dice, damageDraw: Dice, now: int)
    requires FairDice(distanceDraw, 6)
    ensures var r := GrenadeOutcome(s, id, distanceDraw, damageDraw, now);
            && r.hitResult.value.success && r.hitResult.value.isGrenade
            && r.hitResult.value.roll == r.hitResult.value.total
            && 1 <= r.hitResult.value.roll <= 6
            && r.damageResult.value.rolls == [damageDraw(0)]
            && r.damageResult.value.damage <= 1
            && (s.unit.None? ==> r.unitName == "" && r.unitId == "")
  {
    assert 1 <= distanceDraw(0) <= 6;
    ParseRollD20("1D20");
    var rolls := DamageRolls("1D20", damageDraw);
    assert rolls == [damageDraw(0)];
    CountAboveAtMost(rolls, s.parameters.targetArmor);
  }

  /** "1D20" reads as one twenty-sided die. */
  lemma ParseRollD20(t: string)
    requires t == "1D20"
    ensures ParseRoll(t) == RollSpec(1, 20, 0)
  {
    assert t[0..1] == "1" && !IsDigit(t[1]) && t[1] == 'D' && t[2..4] == "20";
    DigitRunIs(t, 0, "1");
    DigitRunIs(t, 2, "20");
    MatchRollAtIs(t, 1, 2, 4, RollSpec(1, 20, 0));
  }

  /** The attacker's melee skill: the chosen soldier's, 0 for a machine or
      when no soldier is chosen. */
  function AttackerMelee(s: CombatFlowState): (r: Outcome<int>)
    requires s.unit.Some?
    ensures r.Failure? ==> r.error == MissingArmsError
    ensures !(s.unitType == SquadKind && s.soldierIndex.Some?) ==> r == Ok(0)
    ensures var data := s.unit.value.data;
            s.unitType == SquadKind && s.soldierIndex.Some? ==>
              var i := s.soldierIndex.value;
              (r.Failure? <==> !(data.SquadData? && 0 <= i < |data.squad.soldiers|))
              && (r.Ok? ==> r.value == data.squad.soldiers[i].melee)
  {
    var data := s.unit.value.data;
    if s.unitType == SquadKind && s.soldierIndex.Some? then
      var i := s.soldierIndex.value;
      if data.SquadData? && 0 <= i < |data.squad.soldiers| then Ok(data.squad.soldiers[i].melee)
      else Failure(MissingArmsError)
    else Ok(0)
  }

  /** `executeMelee`. */
  function MeleeOutcome(s: CombatFlowState, id: RulesVersionId, draw: Dice, now: int): (r: Outcome<CombatResult>)
  {
    if !MeleeAllowed(s) then Failure(InvalidMeleeError)
    else
      match AttackerMelee(s)
      case Failure(e) => Failure(e)
      case Ok(m) =>
        Ok(CombatResult(MeleeAction, s.unitType, s.parameters, None, None,
                        Some(RulesMelee(id, m, s.parameters.targetMelee, draw)), now,
                        s.unit.value.data.Name(), s.unit.value.instanceId, s.soldierIndex))
  }

  /** A melee is refused without a unit or with another action chosen; a
      melee that is made is the base contest of the soldier's skill against
      the target's, a machine fighting with skill 0. */
  lemma MeleeRules(s: CombatFlowState, id: RulesVersionId, draw: Dice, now: int)
    ensures MeleeOutcome(s, id, draw, now).Failure? <==> !MeleeAllowed(s) || AttackerMelee(s).Failure?
    ensures var r := MeleeOutcome(s, id, draw, now);
            r.Ok? ==>
              && r.value.actionType == MeleeAction && r.value.hitResult.None? && r.value.damageResult.None?
              && r.value.meleeResult == Some(GameLogic.CalculateMelee(AttackerMelee(s).value, s.parameters.targetMelee, draw))
              && (s.unitType == MachineKind ==> r.value.meleeResult.value.attackerTotal == draw(0))
  {
  }

  /** A melee result carries the contest, a shot or grenade its hit and
      damage. */
  predicate Complete(r: CombatResult)
  {
    if r.actionType == MeleeAction then r.meleeResult.Some?
    else r.hitResult.Some? && r.damageResult.Some?
  }

  /** The dice left on screen once an attack is resolved. */
  function DisplayOf(r: CombatResult): DiceDisplay
    requires Complete(r)
  {
    match r.actionType
    case Shot =>
      var hit := r.hitResult.value;
      DiceDisplay(Some(hit.roll), if hit.success then Some(r.damageResult.value.rolls) else None, None, None)
    case Grenade => DiceDisplay(Some(r.hitResult.value.roll), Some(r.damageResult.value.rolls), None, None)
    case MeleeAction => DiceDisplay(None, None, Some(r.meleeResult.value.attackerRoll), Some(r.meleeResult.value.defenderRoll))
  }

  /** The state after an attack that got past its first check: rolling,
      then the results when the attack completed.  An attack that fails
      once rolling stays in the rolling phase. */
  function AfterRoll(s: CombatFlowState, r: Outcome<CombatResult>): CombatFlowState
    requires r.Ok? ==> Complete(r.value)
  {
    var rolling := Reduce(s, ExecuteRoll);
    if r.Ok? then Reduce(rolling, RollComplete(r.value, Some(DisplayOf(r.value)))) else rolling
  }

  /** A completed attack ends in the results phase holding its result; one
      that failed after the roll began is left rolling. */
  lemma AfterRollPhase(s: CombatFlowState, r: Outcome<CombatResult>)
    requires r.Ok? ==> Complete(r.value)
    ensures r.Ok? ==> AfterRoll(s, r).phase == Results && !AfterRoll(s, r).isRolling && AfterRoll(s, r).result == Some(r.value)
    ensures r.Failure? ==> AfterRoll(s, r).phase == Rolling && AfterRoll(s, r).isRolling
    ensures AfterRoll(s, r).unit == s.unit && AfterRoll(s, r).parameters == s.parameters
  {
  }

  /** The rules edition after reading the saved choice: a saved registry
      key is taken, anything else keeps the current edition. */
  function StoredVersion(saved: Option<string>, current: RulesVersionId): (id: RulesVersionId)
    ensures saved.Some? && IsValidRulesVersion(saved.value) ==> IdName(id) == saved.value
    ensures !(saved.Some? && IsValidRulesVersion(saved.value)) ==> id == current
  {
    if saved.Some? && ParseRulesVersion(saved.value).Some? then ParseRulesVersion(saved.value).value
    else current
  }

  /** The saved choice as the hook reads it: any non-empty text is taken as
      the edition, registered or not. */
  function StoredVersionAsWritten(saved: Option<string>, current: string): string
  {
    if saved.Some? && saved.value != "" then saved.value else current
  }

  /** A saved text that is not a registry key (left by an older version of
      the application, or edited by hand) becomes the hook's edition, and
      the registry has no rules under it. */
  lemma StaleVersionUnregistered()
    ensures StoredVersionAsWritten(Some("official"), "tehnolog") == "official"
    ensures !IsValidRulesVersion(StoredVersionAsWritten(Some("official"), "tehnolog"))
    ensures StoredVersion(Some("official"), Tehnolog) == Tehnolog
  {
    RulesRegistry.ValidIds();
  }

  /** Reading a saved choice never leaves an edition the registry lacks,
      and a registered saved choice reads the same both ways. */
  lemma StoredVersionAgrees(saved: Option<string>, current: RulesVersionId)
    ensures IsValidRulesVersion(IdName(StoredVersion(saved, current)))
    ensures saved.Some? && IsValidRulesVersion(saved.value) ==>
              IdName(StoredVersion(saved, current)) == StoredVersionAsWritten(saved, IdName(current))
  {
    RulesRegistry.ParseIdName(StoredVersion(saved, current));
  }

  /** The `useCombatFlow` hook: the reducer's state and the rules edition. */
  class CombatFlowHook {
    var state: CombatFlowState
    var rulesVersion: RulesVersionId

    constructor()
      ensures state == Initial && rulesVersion == GetDefaultRulesVersion()
    {
      state := Initial;
      rulesVersion := GetDefaultRulesVersion();
    }

    /** The effect that reads the saved rules edition. */
    method LoadRulesVersion(saved: Option<string>)
      modifies this
      ensures state == old(state)
      ensures rulesVersion == StoredVersion(saved, old(rulesVersion))
    {
      if saved.Some? {
        var parsed := ParseRulesVersion(saved.value);
        if parsed.Some? {
          rulesVersion := parsed.value;
        }
      }
    }

    /** `dispatch`, and with it `startCombat`, `selectAction`,
        `setParameters`, `applyResult`, `closeCombat` and `cancelCombat`,
        which each dispatch one action. */
    method Dispatch(a: Action)
      modifies this
      ensures state == Reduce(old(state), a)
      ensures rulesVersion == old(rulesVersion)
      ensures Consistent(old(state)) ==> Consistent(state)
    {
      if Consistent(state) {
        ReduceKeepsConsistent(state, a);
      }
      state := Reduce(state, a);
    }

    /** `goBack`. */
    method GoBack()
      modifies this
      ensures state == Reduce(old(state), GoBackAction(old(state).phase))
      ensures rulesVersion == old(rulesVersion)
    {
      match state.phase {
        case Parameters => Dispatch(GoBackToActionSelect);
        case Results => Dispatch(GoBackToParameters);
        case _ => Dispatch(Cancel);
      }
    }

    method ExecuteShot(hitDraw: Dice, damageDraw: Dice, now: int) returns (r: Outcome<CombatResult>)
      modifies this
      ensures rulesVersion == old(rulesVersion)
      ensures r == ShotOutcome(old(state), rulesVersion, hitDraw, damageDraw, now)
      ensures !ShotAllowed(old(state)) ==> state == old(state)
      ensures ShotAllowed(old(state)) ==> state == AfterRoll(old(state), r)
    {
      var s := state;
      if !ShotAllowed(s) {
        return Failure(InvalidShotError);
      }
      Dispatch(ExecuteRoll);
      var arms := ShotArms(s);
      if arms.Failure? {
        return Failure(arms.error);
      }
      var (range, power) := arms.value;
      var hit := RulesHit(rulesVersion, range, s.parameters.distance, hitDraw);
      var damage := NoDamage;
      if hit.success {
        damage := RulesDamage(rulesVersion, power, s.parameters.targetArmor, CoverSpecial(s.parameters.fortification), damageDraw);
      }
      var result := CombatResult(Shot, s.unitType, s.parameters, Some(hit), Some(damage), None, now,
                                 s.unit.value.data.Name(), s.unit.value.instanceId, s.soldierIndex);
      Dispatch(RollComplete(result, Some(DisplayOf(result))));
      r := Ok(result);
    }

    method ExecuteGrenade(distanceDraw: Dice, damageDraw: Dice, now: int) returns (r: CombatResult)
      modifies this
      ensures rulesVersion == old(rulesVersion)
      ensures r == GrenadeOutcome(old(state), rulesVersion, distanceDraw, damageDraw, now)
      ensures state == AfterRoll(old(state), Ok(r))
    {
      var s := state;
      Dispatch(ExecuteRoll);
      var distanceRoll := distanceDraw(0);
      var damage := RulesDamage(rulesVersion, "1D20", s.parameters.targetArmor, CoverSpecial(s.parameters.fortification), damageDraw);
      r := CombatResult(Grenade, s.unitType, s.parameters,
                        Some(HitResult(true, distanceRoll, distanceRoll, true)), Some(damage), None, now,
                        if s.unit.Some? then s.unit.value.data.Name() else "",
                        if s.unit.Some? then s.unit.value.instanceId else "",
                        s.soldierIndex);
      Dispatch(RollComplete(r, Some(DisplayOf(r))));
    }

    method ExecuteMelee(draw: Dice, now: int) returns (r: Outcome<CombatResult>)
      modifies this
      ensures rulesVersion == old(rulesVersion)
      ensures r == MeleeOutcome(old(state), rulesVersion, draw, now)
      ensures !MeleeAllowed(old(state)) ==> state == old(state)
      ensures MeleeAllowed(old(state)) ==> state == AfterRoll(old(state), r)
    {
      var s := state;
      if !MeleeAllowed(s) {
        return Failure(InvalidMeleeError);
      }
      Dispatch(ExecuteRoll);
      var attacker := AttackerMelee(s);
      if attacker.Failure? {
        return Failure(attacker.error);
      }
      var melee := RulesMelee(rulesVersion, attacker.value, s.parameters.targetMelee, draw);
      var result := CombatResult(MeleeAction, s.unitType, s.parameters, None, None, Some(melee), now,
                                 s.unit.value.data.Name(), s.unit.value.instanceId, s.soldierIndex);
      Dispatch(RollComplete(result, Some(DisplayOf(result))));
      r := Ok(result);
    }

    /** `executeAction`: the attack of the chosen action type; without one,
        an error and no change. */
    method ExecuteAction(hitDraw: Dice, damageDraw: Dice, now: int) returns (r: Outcome<CombatResult>)
      modifies this
      ensures rulesVersion == old(rulesVersion)
      ensures old(state).actionType.None? ==> r == Failure(UnknownActionError) && state == old(state)
      ensures old(state).actionType == Some(Shot) ==> r == ShotOutcome(old(state), rulesVersion, hitDraw, damageDraw, now)
      ensures old(state).actionType == Some(Grenade) ==> r == Ok(GrenadeOutcome(old(state), rulesVersion, hitDraw, damageDraw, now))
      ensures old(state).actionType == Some(MeleeAction) ==> r == MeleeOutcome(old(state), rulesVersion, hitDraw, now)
    {
      match state.actionType {
        case None => r := Failure(UnknownActionError);
        case Some(Shot) => r := ExecuteShot(hitDraw, damageDraw, now);
        case Some(Grenade) =>
          var g := ExecuteGrenade(hitDraw, damageDraw, now);
          r := Ok(g);
        case Some(MeleeAction) => r := ExecuteMelee(hitDraw, now);
      }
    }

    function IsOpenNow(): bool
      reads this
    {
      IsOpen(state)
    }

    function CanGoBackNow(): bool
      reads this
    {
      CanGoBack(state)
    }
  }
}
