/** The results panel of the combat dialog: the target's distance and
    armor as displayed, with the cover bonus added for the edition that the
    panel associates with it, and which damage dice it marks as having
    gone through the armor. */
module CombatResults {
  import opened Strings
  import opened Types
  import opened GameLogic
  import opened CombatFlow

  /** The bonus the panel adds for cover: 1 for light, 2 otherwise. */
  function CoverBonus(f: Fortification): (b: int)
    requires f != NoCover
    ensures b == ModifiersOf(f).armor == ModifiersOf(f).distance
  {
    if f == Light then 1 else 2
  }

  /** `getEffectiveDistance`: raised by the cover bonus only under the fan
      edition. */
  function EffectiveDistance(id: RulesVersionId, p: CombatParameters): (d: int)
    ensures d == p.distance + (if id == Fan then ModifiersOf(p.fortification).distance else 0)
  {
    if id == Fan && p.fortification != NoCover then p.distance + CoverBonus(p.fortification)
    else p.distance
  }

  /** `getEffectiveArmor`: raised by the cover bonus only under the
      tehnolog edition. */
  function EffectiveArmor(id: RulesVersionId, p: CombatParameters): (a: int)
    ensures a == p.targetArmor + (if id == Tehnolog then ModifiersOf(p.fortification).armor else 0)
  {
    if id == Tehnolog && p.fortification != NoCover then p.targetArmor + CoverBonus(p.fortification)
    else p.targetArmor
  }

  /** Neither figure is ever lowered, at most one of them is raised, and
      each is raised exactly when there is cover and the edition is the
      one it belongs to. */
  lemma AtMostOneRaised(id: RulesVersionId, p: CombatParameters)
    ensures EffectiveDistance(id, p) >= p.distance && EffectiveArmor(id, p) >= p.targetArmor
    ensures EffectiveDistance(id, p) == p.distance || EffectiveArmor(id, p) == p.targetArmor
    ensures EffectiveDistance(id, p) > p.distance <==> id == Fan && p.fortification != NoCover
    ensures EffectiveArmor(id, p) > p.targetArmor <==> id == Tehnolog && p.fortification != NoCover
  {
  }

  /** `getFortificationBonusDisplay`: no bonus without cover, otherwise the
      bonus. */
  function FortificationBonusDisplay(f: Fortification): (r: Option<int>)
    ensures r.None? <==> f == NoCover
    ensures r.Some? ==> r.value == CoverLevel(f) > 0
  {
    if f == NoCover then None else Some(CoverBonus(f))
  }

  /** The big figure of the target card: the bare distance for a grenade,
      the effective distance for a shot. */
  function ShownTarget(r: CombatResult, id: RulesVersionId): (d: int)
    ensures r.actionType == Grenade ==> d == r.parameters.distance
    ensures r.actionType != Grenade ==> d == EffectiveDistance(id, r.parameters)
  {
    if r.actionType == Grenade then r.parameters.distance else EffectiveDistance(id, r.parameters)
  }

  /** A damage die is marked as having gone through. */
  predicate Penetrated(roll: int, id: RulesVersionId, p: CombatParameters)
  {
    roll > EffectiveArmor(id, p)
  }

  /** How many dice the panel marks as having gone through. */
  function ShownPenetrating(rolls: seq<int>, id: RulesVersionId, p: CombatParameters): (n: nat)
    ensures n <= |rolls|
    ensures n == CountAbove(rolls, EffectiveArmor(id, p))
  {
    CountAboveAtMost(rolls, EffectiveArmor(id, p));
    CountAbove(rolls, EffectiveArmor(id, p))
  }

  /** The marks agree with the damage counted against the bare armor under
      the fan edition or without cover; under tehnolog with cover they
      never show more, and the die just above the armor is counted as a
      wound yet shown as stopped. */
  lemma MarksVersusDamage(rolls: seq<int>, id: RulesVersionId, p: CombatParameters)
    ensures id == Fan || p.fortification == NoCover ==>
              ShownPenetrating(rolls, id, p) == CountAbove(rolls, p.targetArmor)
    ensures ShownPenetrating(rolls, id, p) <= CountAbove(rolls, p.targetArmor)
    ensures id == Tehnolog && p.fortification != NoCover ==>
              var roll := p.targetArmor + 1;
              CountAbove([roll], p.targetArmor) == 1 && !Penetrated(roll, id, p)
  {
    CountAboveAntitone(rolls, p.targetArmor, EffectiveArmor(id, p));
    if id == Tehnolog && p.fortification != NoCover {
      assert [p.targetArmor + 1][..0] == [];
    }
  }
}
