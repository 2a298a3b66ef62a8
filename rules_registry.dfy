/** The registry of rule editions: a constant table from edition id to the
    edition's record and rules, a default, and a check of untrusted ids. */
module RulesRegistry {
  import opened Strings
  import opened Types
  import opened GameLogic
  import Tehnolog
  import Fan

  /** The key under which an edition is registered. */
  function IdName(id: RulesVersionId): string
  {
    match id
    case Tehnolog => "tehnolog"
    case Fan => "fan"
  }

  /** The registry's keys, in declaration order. */
  const Keys: seq<RulesVersionId> := [Tehnolog, Fan]

  /** `getDefaultRulesVersion`: the official edition. */
  function GetDefaultRulesVersion(): (id: RulesVersionId)
    ensures IdName(id) == "tehnolog"
    ensures GetRulesVersion(id).supportsSpecialEffects == false
  {
    Tehnolog
  }

  /** `getRulesVersion`: the record registered under `id`. */
  function GetRulesVersion(id: RulesVersionId): (r: RulesVersion)
    ensures r.id == id
    ensures r.supportsSpecialEffects <==> id == Fan
  {
    match id
    case Tehnolog => Tehnolog.Record
    case Fan => Fan.Record
  }

  /** `getAllRulesVersions`: one record per key, in key order. */
  function GetAllRulesVersions(): (rs: seq<RulesVersion>)
    ensures |rs| == |Keys|
    ensures forall i :: 0 <= i < |rs| ==> rs[i] == GetRulesVersion(Keys[i])
  {
    [Tehnolog.Record, Fan.Record]
  }

  /** Every edition is listed exactly once. */
  lemma AllVersionsListed(id: RulesVersionId)
    ensures exists i :: 0 <= i < |GetAllRulesVersions()| && GetAllRulesVersions()[i] == GetRulesVersion(id)
    ensures forall i, j :: 0 <= i < j < |GetAllRulesVersions()| ==>
              GetAllRulesVersions()[i].id != GetAllRulesVersions()[j].id
  {
    var rs := GetAllRulesVersions();
    if id == Tehnolog {
      assert rs[0] == GetRulesVersion(id);
    } else {
      assert rs[1] == GetRulesVersion(id);
    }
  }

  /** `isValidRulesVersion`: whether the string is one of the keys. */
  function IsValidRulesVersion(s: string): (b: bool)
    ensures b <==> exists id: RulesVersionId :: IdName(id) == s
  {
    assert IdName(Tehnolog) == "tehnolog" && IdName(Fan) == "fan";
    s == "tehnolog" || s == "fan"
  }

  /** The key of a valid string, the inverse of `IdName`. */
  function ParseRulesVersion(s: string): (r: Option<RulesVersionId>)
    ensures r.Some? <==> IsValidRulesVersion(s)
    ensures r.Some? ==> IdName(r.value) == s
  {
    if s == "tehnolog" then Some(Tehnolog)
    else if s == "fan" then Some(Fan)
    else None
  }

  lemma ParseIdName(id: RulesVersionId)
    ensures ParseRulesVersion(IdName(id)) == Some(id)
  {
    assert "fan" != "tehnolog";
  }

  /** The two keys are the only valid ids; anything else, such as "bunker",
      is refused. */
  lemma ValidIds()
    ensures IsValidRulesVersion("tehnolog") && IsValidRulesVersion("fan")
    ensures !IsValidRulesVersion("official") && !IsValidRulesVersion("")
  {
    assert IdName(Tehnolog) == "tehnolog" && IdName(Fan) == "fan";
  }

  /** The selected edition's hit rule; both take no fortification. */
  function RulesHit(id: RulesVersionId, rangeStr: string, distanceSteps: int, draw: Dice): (h: HitResult)
    ensures h.success <==> h.total >= distanceSteps
    ensures h.total == RollOutcome(rangeStr, draw).0
  {
    match id
    case Tehnolog => Tehnolog.CalculateHit(rangeStr, distanceSteps, draw)
    case Fan => Fan.CalculateHit(rangeStr, distanceSteps, draw)
  }

  /** Both editions resolve hits the same way. */
  lemma HitSameInBothEditions(rangeStr: string, distanceSteps: int, draw: Dice)
    ensures RulesHit(Tehnolog, rangeStr, distanceSteps, draw) == RulesHit(Fan, rangeStr, distanceSteps, draw)
  {
  }

  /** The selected edition's melee rule. */
  function RulesMelee(id: RulesVersionId, attackerMelee: int, defenderMelee: int, draw: Dice): (m: MeleeResult)
    ensures m == GameLogic.CalculateMelee(attackerMelee, defenderMelee, draw)
  {
    match id
    case Tehnolog => Tehnolog.CalculateMelee(attackerMelee, defenderMelee, draw)
    case Fan => Fan.CalculateMelee(attackerMelee, defenderMelee, draw)
  }

  /** What the selected edition's `calculateDamage` returns: one wound per
      throw above the armor, and the special result only where the edition
      supports special effects. */
  function DamageOutcome(id: RulesVersionId, powerStr: string, targetArmor: int, special: Option<WeaponSpecial>, draw: Dice)
    : (r: DamageResult)
  {
    var rolls := DamageRolls(powerStr, draw);
    DamageResult(CountAbove(rolls, targetArmor), rolls,
                 if GetRulesVersion(id).supportsSpecialEffects then Fan.FanSpecial(special) else None)
  }

  /** Both editions inflict the same wounds with the same throws; they
      differ at most in the attached special result. */
  lemma DamageSameInBothEditions(powerStr: string, targetArmor: int, special: Option<WeaponSpecial>, draw: Dice)
    ensures DamageOutcome(Tehnolog, powerStr, targetArmor, special, draw).damage
            == DamageOutcome(Fan, powerStr, targetArmor, special, draw).damage
    ensures DamageOutcome(Tehnolog, powerStr, targetArmor, special, draw).rolls
            == DamageOutcome(Fan, powerStr, targetArmor, special, draw).rolls
    ensures DamageOutcome(Tehnolog, powerStr, targetArmor, special, draw).special == None
  {
  }

  /** The selected edition's damage rule: the same wounds in both editions;
      only the fan edition attaches a special result. */
  method RulesDamage(id: RulesVersionId, powerStr: string, targetArmor: int, special: Option<WeaponSpecial>, draw: Dice)
    returns (r: DamageResult)
    ensures r.rolls == DamageRolls(powerStr, draw)
    ensures r.damage == CountAbove(r.rolls, targetArmor)
    ensures r.special == if GetRulesVersion(id).supportsSpecialEffects then Fan.FanSpecial(special) else None
    ensures r == DamageOutcome(id, powerStr, targetArmor, special, draw)
  {
    match id {
      case Tehnolog => r := Tehnolog.CalculateDamage(powerStr, targetArmor, special, draw);
      case Fan => r := Fan.CalculateDamage(powerStr, targetArmor, special, draw);
    }
  }
}
