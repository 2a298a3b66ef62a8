/** Dice notation and the base combat arithmetic: parsing `[n]D<s>[+b]`,
    rolling, hit, damage and melee, parameter validation and the one-line
    result summary.  The dice are supplied: `draw(i)` is the i-th die thrown
    by a call. */
module GameLogic {
  import opened Strings
  import opened Types

  /** The source of die results; `draw(i)` is the value of the i-th throw. */
  type Dice = nat -> int

  /** The largest value `rollDie(sides)` can give: `floor(random * s) + 1`
      is at most `s` for `s >= 1` and always 1 for `s == 0`. */
  function DieMax(sides: nat): nat { if sides < 1 then 1 else sides }

  /** Dice that behave like `rollDie(sides)`. */
  ghost predicate FairDice(draw: Dice, sides: nat)
  {
    forall i: nat :: 1 <= draw(i) <= DieMax(sides)
  }

  datatype RollSpec = RollSpec(dice: nat, sides: nat, bonus: nat)

  /** The default when the text holds no dice notation. */
  const DefaultRoll := RollSpec(1, 6, 0)

  /** The melee range, which rolls nothing. */
  const MeleeRange := "ББ"

  /** The regular expression `(?:(\d+))?D(\d+)(?:\+(\d+))?` anchored at `i`:
      greedy digits, a capital 'D', at least one digit, and an optional
      `+` followed by at least one digit. */
  function MatchRollAt(s: string, i: nat): Option<RollSpec>
    requires i <= |s|
  {
    var k := DigitRun(s, i);
    if i + k < |s| && s[i + k] == 'D' then
      var m := DigitRun(s, i + k + 1);
      if m == 0 then None
      else
        var dice := if k == 0 then 1 else DigitsValue(s, i, k);
        var sides := DigitsValue(s, i + k + 1, m);
        Some(RollSpec(dice, sides, BonusAt(s, i + k + 1 + m)))
    else None
  }

  /** The optional `(?:\+(\d+))?` group at `j`: 0 when absent. */
  function BonusAt(s: string, j: nat): nat
    requires j <= |s|
  {
    if j < |s| && s[j] == '+' && DigitRun(s, j + 1) > 0
    then DigitsValue(s, j + 1, DigitRun(s, j + 1))
    else 0
  }

  /** The leftmost match at or after `i`. */
  function FindRoll(s: string, i: nat): Option<RollSpec>
    requires i <= |s|
    decreases |s| - i
  {
    if i == |s| then None
    else if MatchRollAt(s, i).Some? then MatchRollAt(s, i)
    else FindRoll(s, i + 1)
  }

  /** `parseRoll`. */
  function ParseRoll(rollStr: string): RollSpec
  {
    match FindRoll(rollStr, 0)
    case Some(r) => r
    case None => DefaultRoll
  }

  /** The canonical text of a roll: the count is written unless it is 1, the
      bonus unless it is 0. */
  function RollText(r: RollSpec): string
  {
    (if r.dice == 1 then "" else NatToString(r.dice))
    + "D" + NatToString(r.sides)
    + (if r.bonus == 0 then "" else "+" + NatToString(r.bonus))
  }

  lemma BonusOf(s: string, j: nat, e: string)
    requires AllDigits(e)
    requires j <= |s| && s[j..] == (if e == [] then [] else "+" + e)
    ensures BonusAt(s, j) == if e == [] then 0 else DecimalValue(e)
  {
    if e != [] {
      assert s[j] == s[j..][0] == '+';
      assert s[j + 1..j + 1 + |e|] == s[j..][1..] == e;
      DigitRunIs(s, j + 1, e);
    }
  }

  lemma Pieces(s: string, c: string, d: string, t: string)
    requires s == c + "D" + d + t
    requires |d| > 0 && (t == [] || t[0] == '+')
    ensures s[0..|c|] == c && s[|c|] == 'D'
    ensures s[|c| + 1..|c| + 1 + |d|] == d && s[|c| + 1 + |d|..] == t
    ensures |s| == |c| + 1 + |d| + |t|
    ensures |c| + 1 + |d| < |s| ==> s[|c| + 1 + |d|] == '+'
  {
  }

  /** The digit runs of a count, a 'D', the sides and an optional bonus. */
  lemma RollTextRuns(s: string, c: string, d: string, e: string)
    requires AllDigits(c) && AllDigits(d) && |d| > 0 && AllDigits(e)
    requires |s| == |c| + 1 + |d| + (if e == [] then 0 else 1 + |e|)
    requires s[0..|c|] == c && s[|c|] == 'D' && s[|c| + 1..|c| + 1 + |d|] == d
    requires s[|c| + 1 + |d|..] == if e == [] then [] else "+" + e
    ensures |c| < |s|
    ensures DigitRun(s, 0) == |c| && DigitsValue(s, 0, |c|) == DecimalValue(c)
    ensures DigitRun(s, |c| + 1) == |d| && DigitsValue(s, |c| + 1, |d|) == DecimalValue(d)
    ensures BonusAt(s, |c| + 1 + |d|) == if e == [] then 0 else DecimalValue(e)
  {
    CountRun(s, c);
    SidesRun(s, |c| + 1, d, e);
    BonusOf(s, |c| + 1 + |d|, e);
  }

  /** The count's digits stop at the 'D'. */
  lemma CountRun(s: string, c: string)
    requires AllDigits(c) && |c| < |s| && s[0..|c|] == c && s[|c|] == 'D'
    ensures DigitRun(s, 0) == |c| && DigitsValue(s, 0, |c|) == DecimalValue(c)
  {
    DigitRunIs(s, 0, c);
  }

  /** The sides' digits stop at the end or at the bonus's '+'. */
  lemma SidesRun(s: string, i: nat, d: string, e: string)
    requires AllDigits(d) && i + |d| <= |s| && s[i..i + |d|] == d
    requires s[i + |d|..] == if e == [] then [] else "+" + e
    ensures DigitRun(s, i) == |d| && DigitsValue(s, i, |d|) == DecimalValue(d)
  {
    var k := i + |d|;
    if k < |s| {
      assert s[k] == s[k..][0] == '+';
    }
    DigitRunIs(s, i, d);
  }

  /** Parsing the canonical text gives back the roll. */
  lemma ParseRollText(r: RollSpec)
    ensures ParseRoll(RollText(r)) == r
  {
    MatchRollText(r);
  }

  lemma MatchRollText(r: RollSpec)
    ensures MatchRollAt(RollText(r), 0) == Some(r)
  {
    var c := if r.dice == 1 then "" else NatToString(r.dice);
    var d := NatToString(r.sides);
    var e := if r.bonus == 0 then "" else NatToString(r.bonus);
    RollTextDigits(r, c, d, e);
  }

  /** The digit runs of the canonical text are the written numbers, so
      the pattern reads the roll back. */
  lemma RollTextDigits(r: RollSpec, c: string, d: string, e: string)
    requires c == if r.dice == 1 then "" else NatToString(r.dice)
    requires d == NatToString(r.sides)
    requires e == if r.bonus == 0 then "" else NatToString(r.bonus)
    ensures MatchRollAt(RollText(r), 0) == Some(r)
  {
    var s := RollText(r);
    RollTextShape(r, c, d, e);
    RollTextRuns(s, c, d, e);
    if r.dice != 1 {
      assert |c| > 0 && DecimalValue(c) == r.dice;
    }
    assert BonusAt(s, |c| + 1 + |d|) == (if e == [] then 0 else DecimalValue(e));
    if r.bonus == 0 {
      assert e == [];
    } else {
      assert e != [] && DecimalValue(e) == r.bonus;
    }
    MatchRollAtIs(s, |c|, |d|, |c| + 1 + |d|, r);
  }

  /** Where the count, the sides and the bonus sit in the canonical text. */
  lemma RollTextShape(r: RollSpec, c: string, d: string, e: string)
    requires c == if r.dice == 1 then "" else NatToString(r.dice)
    requires d == NatToString(r.sides)
    requires e == if r.bonus == 0 then "" else NatToString(r.bonus)
    ensures AllDigits(c) && AllDigits(d) && |d| > 0 && AllDigits(e)
    ensures |RollText(r)| == |c| + 1 + |d| + (if e == [] then 0 else 1 + |e|)
    ensures RollText(r)[0..|c|] == c && RollText(r)[|c|] == 'D'
    ensures RollText(r)[|c| + 1..|c| + 1 + |d|] == d
    ensures RollText(r)[|c| + 1 + |d|..] == if e == [] then [] else "+" + e
  {
    Pieces(RollText(r), c, d, if e == [] then [] else "+" + e);
  }

  /** How `MatchRollAt` reads a text once its digit runs are known. */
  lemma MatchRollAtIs(s: string, k: nat, m: nat, j: nat, r: RollSpec)
    requires k < |s| && DigitRun(s, 0) == k && s[k] == 'D'
    requires DigitRun(s, k + 1) == m && m > 0 && j == k + 1 + m
    requires r.dice == if k == 0 then 1 else DigitsValue(s, 0, k)
    requires r.sides == DigitsValue(s, k + 1, m)
    requires r.bonus == BonusAt(s, j)
    ensures MatchRollAt(s, 0) == Some(r)
  {
  }

  /** A text without a capital 'D' never matches. */
  lemma {:induction false} FindRollWithoutD(s: string, i: nat)
    requires i <= |s|
    requires forall j :: 0 <= j < |s| ==> s[j] != 'D'
    ensures FindRoll(s, i) == None
    decreases |s| - i
  {
    if i < |s| {
      assert MatchRollAt(s, i) == None;
      FindRollWithoutD(s, i + 1);
    }
  }

  /** Text without dice notation, such as the melee range "ББ", parses as a
      single six-sided die without bonus. */
  lemma ParseRollDefault(s: string)
    requires forall j :: 0 <= j < |s| ==> s[j] != 'D'
    ensures ParseRoll(s) == DefaultRoll
  {
    FindRollWithoutD(s, 0);
  }

  /** The notations the rule books use. */
  lemma ParseRollExamples()
    ensures ParseRoll("D6") == RollSpec(1, 6, 0)
    ensures ParseRoll("D12+2") == RollSpec(1, 12, 2)
    ensures ParseRoll("2D20") == RollSpec(2, 20, 0)
    ensures ParseRoll("3D6+1") == RollSpec(3, 6, 1)
    ensures ParseRoll(MeleeRange) == DefaultRoll
  {
    ParseRollText(RollSpec(1, 6, 0));
    assert RollText(RollSpec(1, 6, 0)) == "D6";
    ParseRollText(RollSpec(1, 12, 2));
    assert RollText(RollSpec(1, 12, 2)) == "D12+2";
    ParseRollText(RollSpec(2, 20, 0));
    assert RollText(RollSpec(2, 20, 0)) == "2D20";
    ParseRollText(RollSpec(3, 6, 1));
    assert RollText(RollSpec(3, 6, 1)) == "3D6+1";
    ParseRollDefault(MeleeRange);
  }

  /** The first `n` throws. */
  function Draws(draw: Dice, n: nat): (r: seq<int>)
    ensures |r| == n && forall i :: 0 <= i < n ==> r[i] == draw(i)
  {
    seq(n, i requires 0 <= i < n => draw(i))
  }

  function Sum(s: seq<int>): int
  {
    if s == [] then 0 else Sum(s[..|s| - 1]) + s[|s| - 1]
  }

  /** What `executeRoll` returns: nothing for the melee range, otherwise
      `dice` throws and their sum plus the bonus. */
  function RollOutcome(rollStr: string, draw: Dice): (int, seq<int>)
  {
    if rollStr == MeleeRange then (0, [])
    else
      var r := ParseRoll(rollStr);
      (Sum(Draws(draw, r.dice)) + r.bonus, Draws(draw, r.dice))
  }

  /** `executeRoll`: throws the parsed number of dice and adds the bonus. */
  method ExecuteRoll(rollStr: string, draw: Dice) returns (total: int, rolls: seq<int>)
    ensures rollStr == MeleeRange ==> total == 0 && rolls == []
    ensures rollStr != MeleeRange ==>
              rolls == Draws(draw, ParseRoll(rollStr).dice)
              && total == Sum(rolls) + ParseRoll(rollStr).bonus
    ensures (total, rolls) == RollOutcome(rollStr, draw)
  {
    if rollStr == MeleeRange {
      return 0, [];
    }
    var r := ParseRoll(rollStr);
    rolls := [];
    total := 0;
    var i := 0;
    while i < r.dice
      invariant 0 <= i <= r.dice
      invariant rolls == Draws(draw, i)
      invariant total == Sum(rolls)
    {
      var d := draw(i);
      assert (rolls + [d])[..|rolls|] == rolls;
      rolls := rolls + [d];
      total := total + d;
      i := i + 1;
    }
    total := total + r.bonus;
  }

  lemma {:induction false} SumBounds(s: seq<int>, lo: int, hi: int)
    requires forall i :: 0 <= i < |s| ==> lo <= s[i] <= hi
    ensures |s| * lo <= Sum(s) <= |s| * hi
  {
    if s != [] {
      SumBounds(s[..|s| - 1], lo, hi);
      assert |s| * lo == (|s| - 1) * lo + lo;
      assert |s| * hi == (|s| - 1) * hi + hi;
    }
  }

  /** With fair dice a roll's total lies between all ones and all maximums,
      plus the bonus. */
  lemma RollBounds(rollStr: string, draw: Dice)
    requires rollStr != MeleeRange
    requires FairDice(draw, ParseRoll(rollStr).sides)
    ensures var r := ParseRoll(rollStr);
            r.dice + r.bonus <= RollOutcome(rollStr, draw).0 <= r.dice * DieMax(r.sides) + r.bonus
  {
    var r := ParseRoll(rollStr);
    SumBounds(Draws(draw, r.dice), 1, DieMax(r.sides));
  }

  /** "2D6+2" totals between 4 and 14. */
  lemma TwoDiceBounds(draw: Dice)
    requires FairDice(draw, 6)
    ensures 4 <= RollOutcome("2D6+2", draw).0 <= 14
    ensures |RollOutcome("2D6+2", draw).1| == 2
  {
    ParseRollText(RollSpec(2, 6, 2));
    assert RollText(RollSpec(2, 6, 2)) == "2D6+2";
    RollBounds("2D6+2", draw);
  }

  /** `calculateHit` of the base module: `roll` is the first die, absent
      when nothing was thrown. */
  datatype BaseHit = BaseHit(success: bool, roll: Option<int>, total: int)

  function CalculateHit(rangeStr: string, distanceSteps: int, draw: Dice): (h: BaseHit)
    ensures h.success <==> h.total >= distanceSteps
    ensures h.total == RollOutcome(rangeStr, draw).0
    ensures h.roll.Some? <==> |RollOutcome(rangeStr, draw).1| > 0
    ensures h.roll.Some? ==> h.roll.value == draw(0)
  {
    var (total, rolls) := RollOutcome(rangeStr, draw);
    BaseHit(total >= distanceSteps, if |rolls| > 0 then Some(rolls[0]) else None, total)
  }

  /** Number of throws strictly above the armor. */
  function CountAbove(rolls: seq<int>, armor: int): nat
  {
    if rolls == [] then 0
    else CountAbove(rolls[..|rolls| - 1], armor) + (if rolls[|rolls| - 1] > armor then 1 else 0)
  }

  /** Every throw of the damage roll with the bonus added. */
  function DamageRolls(powerStr: string, draw: Dice): (r: seq<int>)
    ensures |r| == ParseRoll(powerStr).dice
    ensures forall i :: 0 <= i < |r| ==> r[i] == draw(i) + ParseRoll(powerStr).bonus
  {
    var p := ParseRoll(powerStr);
    seq(p.dice, i requires 0 <= i < p.dice => draw(i) + p.bonus)
  }

  /** `calculateDamage`: one wound per throw (plus bonus) above the armor. */
  method CalculateDamage(powerStr: string, targetArmor: int, draw: Dice) returns (damage: nat, rolls: seq<int>)
    ensures rolls == DamageRolls(powerStr, draw)
    ensures damage == CountAbove(rolls, targetArmor)
  {
    var p := ParseRoll(powerStr);
    damage := 0;
    rolls := [];
    var i := 0;
    while i < p.dice
      invariant 0 <= i <= p.dice
      invariant rolls == DamageRolls(powerStr, draw)[..i]
      invariant damage == CountAbove(rolls, targetArmor)
    {
      var r := draw(i) + p.bonus;
      assert (rolls + [r])[..|rolls|] == rolls;
      rolls := rolls + [r];
      if r > targetArmor {
        damage := damage + 1;
      }
      i := i + 1;
    }
    assert rolls == DamageRolls(powerStr, draw)[..p.dice];
  }

  lemma {:induction false} CountAboveAtMost(rolls: seq<int>, armor: int)
    ensures CountAbove(rolls, armor) <= |rolls|
  {
    if rolls != [] {
      CountAboveAtMost(rolls[..|rolls| - 1], armor);
    }
  }

  /** Raising the armor never raises the damage of the same throws. */
  lemma {:induction false} CountAboveAntitone(rolls: seq<int>, a: int, b: int)
    requires a <= b
    ensures CountAbove(rolls, b) <= CountAbove(rolls, a)
  {
    if rolls != [] {
      CountAboveAntitone(rolls[..|rolls| - 1], a, b);
    }
  }

  lemma {:induction false} CountAboveAll(rolls: seq<int>, armor: int)
    requires forall i :: 0 <= i < |rolls| ==> rolls[i] > armor
    ensures CountAbove(rolls, armor) == |rolls|
  {
    if rolls != [] {
      CountAboveAll(rolls[..|rolls| - 1], armor);
    }
  }

  lemma {:induction false} CountAboveNone(rolls: seq<int>, armor: int)
    requires forall i :: 0 <= i < |rolls| ==> rolls[i] <= armor
    ensures CountAbove(rolls, armor) == 0
  {
    if rolls != [] {
      CountAboveNone(rolls[..|rolls| - 1], armor);
    }
  }

  /** With fair dice each throw lies in [1 + bonus, sides + bonus]: damage is
      between 0 and the number of dice, every die wounds when the armor is
      below the weakest throw, and none does when it is at least the
      strongest. */
  lemma DamageBounds(powerStr: string, targetArmor: int, draw: Dice)
    requires FairDice(draw, ParseRoll(powerStr).sides)
    ensures var p := ParseRoll(powerStr);
            var rolls := DamageRolls(powerStr, draw);
            && (forall i :: 0 <= i < |rolls| ==> 1 + p.bonus <= rolls[i] <= DieMax(p.sides) + p.bonus)
            && CountAbove(rolls, targetArmor) <= p.dice
            && (targetArmor < 1 + p.bonus ==> CountAbove(rolls, targetArmor) == p.dice)
            && (targetArmor >= DieMax(p.sides) + p.bonus ==> CountAbove(rolls, targetArmor) == 0)
  {
    var p := ParseRoll(powerStr);
    var rolls := DamageRolls(powerStr, draw);
    CountAboveAtMost(rolls, targetArmor);
    if targetArmor < 1 + p.bonus {
      CountAboveAll(rolls, targetArmor);
    }
    if targetArmor >= DieMax(p.sides) + p.bonus {
      CountAboveNone(rolls, targetArmor);
    }
  }

  /** `calculateMelee`: one die each, skill added, strict comparison. */
  function CalculateMelee(attackerMelee: int, defenderMelee: int, draw: Dice): (m: MeleeResult)
    ensures m.attackerRoll == draw(0) && m.defenderRoll == draw(1)
    ensures m.attackerTotal == m.attackerRoll + attackerMelee
    ensures m.defenderTotal == m.defenderRoll + defenderMelee
    ensures m.winner == Attacker <==> m.attackerTotal > m.defenderTotal
    ensures m.winner == Defender <==> m.defenderTotal > m.attackerTotal
    ensures m.winner == Draw <==> m.attackerTotal == m.defenderTotal
  {
    var aRoll := draw(0);
    var dRoll := draw(1);
    var aTotal := aRoll + attackerMelee;
    var dTotal := dRoll + defenderMelee;
    var winner := if aTotal > dTotal then Attacker else if dTotal > aTotal then Defender else Draw;
    MeleeResult(aRoll, aTotal, dRoll, dTotal, winner)
  }

  function Swapped(w: Winner): Winner
  {
    match w
    case Attacker => Defender
    case Defender => Attacker
    case Draw => Draw
  }

  /** Exchanging the fighters (and their dice) exchanges the winner. */
  lemma MeleeSymmetric(a: int, d: int, draw: Dice)
    ensures CalculateMelee(d, a, (i: nat) => if i == 0 then draw(1) else if i == 1 then draw(0) else draw(i)).winner
            == Swapped(CalculateMelee(a, d, draw).winner)
  {
  }

  /** With fair dice, a fighter six or more points better always wins:
      the worst own roll (1) still beats the best opposing roll (6). */
  lemma MeleeDecisiveSkill(a: int, d: int, draw: Dice)
    requires FairDice(draw, 6)
    requires a >= d + 6
    ensures CalculateMelee(a, d, draw).winner == Attacker
  {
    assert 1 <= draw(0) <= 6 && 1 <= draw(1) <= 6;
  }

  datatype ActionType = Shot | MeleeAction | Grenade

  const DistanceError := "Дистанция должна быть от 1 до 20"
  const ArmorError := "Броня должна быть от 0 до 10"
  const GrenadesError := "Гранаты уже израсходованы"
  const MeleeError := "Ближний бой цели должен быть от 0 до 10"

  /** `validateCombatParameters`; an omitted `grenadesAvailable` is false. */
  method ValidateCombatParameters(
    actionType: ActionType, distance: int, targetArmor: int, targetMelee: int,
    grenadesAvailable: bool)
    returns (isValid: bool, errors: seq<string>)
    ensures DistanceError in errors <==> actionType != MeleeAction && !(1 <= distance <= 20)
    ensures ArmorError in errors <==> actionType != MeleeAction && !(0 <= targetArmor <= 10)
    ensures GrenadesError in errors <==> actionType == Grenade && !grenadesAvailable
    ensures MeleeError in errors <==> actionType == MeleeAction && !(0 <= targetMelee <= 10)
    ensures forall e :: e in errors ==> e in {DistanceError, ArmorError, GrenadesError, MeleeError}
    ensures forall i, j :: 0 <= i < j < |errors| ==> errors[i] != errors[j]
    ensures forall i, j :: 0 <= i < |errors| && 0 <= j < |errors| && errors[i] == DistanceError && errors[j] != DistanceError ==> i < j
    ensures forall i, j :: 0 <= i < |errors| && 0 <= j < |errors| && errors[i] == GrenadesError && errors[j] != GrenadesError ==> j < i
    ensures isValid <==> errors == []
  {
    errors := [];
    if actionType == Shot || actionType == Grenade {
      if distance < 1 || distance > 20 {
        errors := errors + [DistanceError];
      }
      if targetArmor < 0 || targetArmor > 10 {
        errors := errors + [ArmorError];
      }
      if actionType == Grenade && !grenadesAvailable {
        errors := errors + [GrenadesError];
      }
    }
    if actionType == MeleeAction {
      if targetMelee < 0 || targetMelee > 10 {
        errors := errors + [MeleeError];
      }
    }
    isValid := |errors| == 0;
  }

  /** `formatCombatResult`. */
  function FormatCombatResult(
    actionType: ActionType, hit: Option<BaseHit>, damage: Option<int>, melee: Option<MeleeResult>): (s: string)
    ensures actionType == MeleeAction && melee.Some? && melee.value.winner == Attacker ==> s == "Победа в ближнем бою"
    ensures actionType == MeleeAction && melee.Some? && melee.value.winner == Defender ==> s == "Контратака"
    ensures actionType == MeleeAction && melee.Some? && melee.value.winner == Draw ==> s == "Ничья в ближнем бою"
    ensures !(actionType == MeleeAction && melee.Some?) && hit.Some? && !hit.value.success ==> s == "Промах"
    ensures !(actionType == MeleeAction && melee.Some?) && hit.Some? && hit.value.success && damage == Some(0) ==>
              s == "Попадание, но не пробито"
    ensures !(actionType == MeleeAction && melee.Some?) && hit.Some? && hit.value.success && damage.Some? && damage.value > 0 ==>
              s == "Попадание: " + NatToString(damage.value) + " ранений"
    ensures !(actionType == MeleeAction && melee.Some?) && hit.Some? && hit.value.success && damage.Some? && damage.value < 0 ==>
              s == "Попадание: -" + NatToString(-damage.value) + " ранений"
    ensures !(actionType == MeleeAction && melee.Some?) && hit.Some? && hit.value.success && damage.None? ==> s == "Завершено"
    ensures !(actionType == MeleeAction && melee.Some?) && hit.None? ==> s == "Завершено"
  {
    if actionType == MeleeAction && melee.Some? then
      match melee.value.winner
      case Attacker => "Победа в ближнем бою"
      case Defender => "Контратака"
      case Draw => "Ничья в ближнем бою"
    else if hit.Some? then
      if !hit.value.success then "Промах"
      else if damage.Some? then
        if damage.value == 0 then "Попадание, но не пробито"
        else "Попадание: " + IntToString(damage.value) + " ранений"
      else "Завершено"
    else "Завершено"
  }

  /** `getDiceType`: the die picture for a roll text. */
  function GetDiceType(rollStr: string): (t: nat)
    ensures t in {6, 12, 20}
    ensures t == 20 <==> Contains(rollStr, "D20")
    ensures t == 12 <==> !Contains(rollStr, "D20") && Contains(rollStr, "D12")
  {
    if Contains(rollStr, "D20") then 20
    else if Contains(rollStr, "D12") then 12
    else 6
  }
}
