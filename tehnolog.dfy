/** The official ("Технолог") edition of the combat rules. */
module Tehnolog {
  import opened Strings
  import opened Types
  import opened GameLogic

  const Record := RulesVersion(Tehnolog, "Технолог", "docs/original/Bronepekhota_Pravila_05_08_08.pdf", false)

  /** The first die of a roll, 0 when nothing was thrown (`rolls[0] || 0`). */
  function FirstDie(rolls: seq<int>): int
  {
    if |rolls| > 0 then rolls[0] else 0
  }

  /** `calculateHit`: the range roll must reach the distance in steps.  A
      third (fortification) argument is not taken. */
  function CalculateHit(rangeStr: string, distanceSteps: int, draw: Dice): (h: HitResult)
    ensures h.success <==> h.total >= distanceSteps
    ensures h.total == RollOutcome(rangeStr, draw).0
    ensures h.roll == if |RollOutcome(rangeStr, draw).1| > 0 then draw(0) else 0
    ensures !h.isGrenade
  {
    var (total, rolls) := RollOutcome(rangeStr, draw);
    HitResult(total >= distanceSteps, FirstDie(rolls), total, false)
  }

  /** The melee range throws nothing: roll and total are 0, so only a
      distance of at most 0 is reached. */
  lemma MeleeRangeHit(distanceSteps: int, draw: Dice)
    ensures CalculateHit(MeleeRange, distanceSteps, draw).roll == 0
    ensures CalculateHit(MeleeRange, distanceSteps, draw).total == 0
    ensures CalculateHit(MeleeRange, distanceSteps, draw).success <==> distanceSteps <= 0
  {
  }

  /** A single-die range: the total is the die plus the bonus, e.g. "D6+2". */
  lemma SingleDieHit(rangeStr: string, distanceSteps: int, draw: Dice)
    requires rangeStr != MeleeRange && ParseRoll(rangeStr).dice == 1
    ensures CalculateHit(rangeStr, distanceSteps, draw).total
            == CalculateHit(rangeStr, distanceSteps, draw).roll + ParseRoll(rangeStr).bonus
  {
    var rolls := Draws(draw, 1);
    assert rolls[..0] == [];
    assert Sum(rolls) == draw(0);
  }

  lemma SingleDieExample(draw: Dice)
    ensures CalculateHit("D6+2", 5, draw).total == CalculateHit("D6+2", 5, draw).roll + 2
  {
    ParseRollText(RollSpec(1, 6, 2));
    assert RollText(RollSpec(1, 6, 2)) == "D6+2";
    SingleDieHit("D6+2", 5, draw);
  }

  /** `calculateDamage`: the special rule is accepted and ignored, and no
      special result is ever attached. */
  method CalculateDamage(powerStr: string, targetArmor: int, special: Option<WeaponSpecial>, draw: Dice)
    returns (r: DamageResult)
    ensures r.rolls == DamageRolls(powerStr, draw)
    ensures r.damage == CountAbove(r.rolls, targetArmor)
    ensures r.special == None
  {
    var damage, rolls := GameLogic.CalculateDamage(powerStr, targetArmor, draw);
    r := DamageResult(damage, rolls, None);
  }

  /** `calculateMelee`: the same contest as the base rules. */
  function CalculateMelee(attackerMelee: int, defenderMelee: int, draw: Dice): (m: MeleeResult)
    ensures m == GameLogic.CalculateMelee(attackerMelee, defenderMelee, draw)
  {
    var aRoll := draw(0);
    var dRoll := draw(1);
    var aTotal := aRoll + attackerMelee;
    var dTotal := dRoll + defenderMelee;
    MeleeResult(aRoll, aTotal, dRoll, dTotal,
                if aTotal > dTotal then Attacker else if dTotal > aTotal then Defender else Draw)
  }

  /** With fair six-sided dice both melee rolls lie in [1, 6]. */
  lemma MeleeRollsAreD6(attackerMelee: int, defenderMelee: int, draw: Dice)
    requires FairDice(draw, 6)
    ensures var m := CalculateMelee(attackerMelee, defenderMelee, draw);
            1 <= m.attackerRoll <= 6 && 1 <= m.defenderRoll <= 6
  {
    assert 1 <= draw(0) <= 6 && 1 <= draw(1) <= 6;
  }
}
