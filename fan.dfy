/** The fan ("Фанатская Редакция") edition: the base hit, damage and melee
    rules plus weapon special effects, given either as structured records or
    as free text that three small patterns recognise. */
module Fan {
  import opened Strings
  import opened Types
  import opened GameLogic

  const Record := RulesVersion(Fan, "Фанатская Редакция", "docs/panov/rules-originnal.pdf", true)

  /** The burst directions, in the order they are handed out. */
  const Directions: seq<string> := ["вперёд", "влево-вперёд", "вправо-вперёд"]

  function Min(a: int, b: int): int { if a <= b then a else b }

  /** `/Взрыв\s+(\d+)ш\s*[-–]\s*(\d+D\d+)/i` anchored at `i`; the radius is
      the first group and the damage formula the text of the second. */
  function AoEAt(s: string, i: nat): Option<WeaponSpecial>
  {
    if i + 5 >= |s| || !LiteralAt(s, i, "Взрыв") || !IsSpace(s[i + 5]) then None
    else AoERadiusAt(s, i + 6)
  }

  /** `\s*(\d+)ш` at `w`, then the damage formula. */
  function AoERadiusAt(s: string, w: nat): (r: Option<WeaponSpecial>)
    requires w <= |s|
    ensures r.Some? ==> r.value.AoEEffect? && r.value.radius >= 0
    decreases |s| - w
  {
    if w == |s| then None
    else if IsSpace(s[w]) then AoERadiusAt(s, w + 1)
    else
      var n := DigitRun(s, w);
      if n == 0 || w + n >= |s| || !SameLetter(s[w + n], 'ш') then None
      else
        match AoEFormulaAt(s, w + n + 1)
        case None => None
        case Some((e, x)) => Some(AoEEffect(DigitsValue(s, w, n), s[e..x]))
  }

  /** `\s*[-–]\s*(\d+D\d+)` at `c`: where the damage formula starts and
      ends. */
  function AoEFormulaAt(s: string, c: nat): (r: Option<(nat, nat)>)
    requires c <= |s|
    ensures r.Some? ==> c < r.value.0 < r.value.1 <= |s|
    decreases |s| - c
  {
    if c == |s| then None
    else if IsSpace(s[c]) then AoEFormulaAt(s, c + 1)
    else if !(s[c] == '-' || s[c] == '–') then None
    else
      var e := c + 1 + SpaceRun(s, c + 1);
      match DiceEnd(s, e)
      case None => None
      case Some(x) => Some((e, x))
  }

  /** `\d+D\d+` at `e`: where the dice formula ends. */
  function DiceEnd(s: string, e: nat): (r: Option<nat>)
    requires e <= |s|
    ensures r.Some? ==> e < r.value <= |s|
    decreases |s| - e
  {
    if e == |s| || !IsDigit(s[e]) then None
    else if e + 1 < |s| && SameLetter(s[e + 1], 'D') then
      var n2 := DigitRun(s, e + 2);
      if n2 == 0 then None else Some(e + 2 + n2)
    else DiceEnd(s, e + 1)
  }

  /** `/Ремонт\s+(\d+)/i` anchored at `i`. */
  function RepairAt(s: string, i: nat): Option<WeaponSpecial>
  {
    if i + 6 > |s| || !LiteralAt(s, i, "Ремонт") then None
    else
      var b := i + 6 + SpaceRun(s, i + 6);
      var n := DigitRun(s, b);
      if b == i + 6 || n == 0 then None
      else Some(RepairEffect(DigitsValue(s, b, n), None))
  }

  /** `(\d+)[xх]\s+направл` anchored at `q` (Latin or Cyrillic x). */
  predicate DirectionsAt(s: string, q: nat)
  {
    q <= |s|
    && var n := DigitRun(s, q);
       n > 0 && q + n < |s| && (SameLetter(s[q + n], 'x') || SameLetter(s[q + n], 'х'))
       && SpaceRun(s, q + n + 1) > 0
       && LiteralAt(s, q + n + 1 + SpaceRun(s, q + n + 1), "направл")
  }

  /** `.*?` followed by the directions part: some later position on the same
      line starts it. */
  predicate LazyDirections(s: string, q: nat)
    decreases |s| - q
  {
    q <= |s| && (DirectionsAt(s, q) || (q < |s| && !IsLineTerminator(s[q]) && LazyDirections(s, q + 1)))
  }

  /** `/(\d+)\s+выстрел.*?(\d+)[xх]\s+направл/i` anchored at `i`; only the
      first group, the shot count, is used. */
  function BurstAt(s: string, i: nat): Option<WeaponSpecial>
  {
    if i > |s| then None
    else
      var n := DigitRun(s, i);
      var sp := if n == 0 then 0 else SpaceRun(s, i + n);
      if n == 0 || sp == 0 || i + n + sp + 7 > |s| || !LiteralAt(s, i + n + sp, "выстрел") then None
      else if !LazyDirections(s, i + n + sp + 7) then None
      else
        Some(BurstOf(DigitsValue(s, i, n)))
  }

  /** A burst of `count` shots fired in the first `count` directions, at
      most three. */
  function BurstOf(count: nat): WeaponSpecial
  {
    BurstEffect(count, Directions[..Min(count, 3)])
  }

  /** The three effect patterns. */
  datatype Pattern = AoEPattern | RepairPattern | BurstPattern

  function MatchAt(p: Pattern, s: string, i: nat): Option<WeaponSpecial>
  {
    match p
    case AoEPattern => AoEAt(s, i)
    case RepairPattern => RepairAt(s, i)
    case BurstPattern => BurstAt(s, i)
  }

  /** The outcome of trying the pattern at each position of `s`. */
  function Matches(p: Pattern, s: string): (ms: seq<Option<WeaponSpecial>>)
    ensures |ms| == |s|
    ensures forall j :: 0 <= j < |s| ==> ms[j] == MatchAt(p, s, j)
  {
    seq(|s|, j requires 0 <= j < |s| => MatchAt(p, s, j))
  }

  /** Every success of a pattern has the pattern's record shape. */
  predicate Shaped(p: Pattern, r: Option<WeaponSpecial>)
  {
    r.Some? ==>
      match p
      case AoEPattern => r.value.AoEEffect? && r.value.radius >= 0
      case RepairPattern => r.value.RepairEffect? && r.value.amount >= 0 && r.value.range.None?
      case BurstPattern =>
        r.value.BurstEffect? && r.value.count >= 0 && r.value.directions == Directions[..Min(r.value.count, 3)]
  }

  lemma {:induction false} MatchesShaped(p: Pattern, s: string)
    ensures forall j :: 0 <= j < |s| ==> Shaped(p, Matches(p, s)[j])
  {
    forall j | 0 <= j < |s| ensures Shaped(p, Matches(p, s)[j]) {
      assert Matches(p, s)[j] == MatchAt(p, s, j);
    }
  }

  /** `s.match(pattern)` without the `g` flag: the leftmost match. */
  function Search(p: Pattern, s: string): (r: Option<WeaponSpecial>)
    ensures Shaped(p, r)
  {
    LeftmostIsFirst(Matches(p, s), 0);
    MatchesShaped(p, s);
    Leftmost(Matches(p, s), 0)
  }

  /** `parseAoEEffect`. */
  function ParseAoEEffect(special: string): (r: Option<WeaponSpecial>)
    ensures r.Some? ==> r.value.AoEEffect? && r.value.radius >= 0
  {
    Search(AoEPattern, special)
  }

  /** `parseRepairEffect`. */
  function ParseRepairEffect(special: string): (r: Option<WeaponSpecial>)
    ensures r.Some? ==> r.value.RepairEffect? && r.value.amount >= 0 && r.value.range.None?
  {
    Search(RepairPattern, special)
  }

  /** `parseBurstEffect`: the directions are the first `count` of the three,
      so never more than three. */
  function ParseBurstEffect(special: string): (r: Option<WeaponSpecial>)
    ensures r.Some? ==> r.value.BurstEffect? && r.value.count >= 0
    ensures r.Some? ==> r.value.directions == Directions[..Min(r.value.count, 3)]
  {
    Search(BurstPattern, special)
  }

  /** The special result of a structured effect. */
  function StructuredSpecial(e: WeaponSpecial): SpecialResult
    requires !e.SpecialText?
  {
    match e
    case AoEEffect(radius, _) =>
      SpecialResult(AoE, "Взрыв в радиусе " + IntToString(radius) + "ш", Some(0), None)
    case RepairEffect(amount, range) =>
      SpecialResult(Repair,
        "Ремонт " + IntToString(amount) + " повреждений"
        + (if range.Some? && range.value != 0 then " (радиус " + IntToString(range.value) + ")" else ""),
        Some(-amount), None)
    case BurstEffect(count, directions) =>
      SpecialResult(Burst,
        IntToString(count) + " выстрела в " + IntToString(|directions|) + " направлениях",
        None, Some(directions))
  }

  /** The special result of a text effect: AoE, then repair, then burst; the
      first pattern that matches wins. */
  function TextSpecial(t: string): Option<SpecialResult>
  {
    var aoe := ParseAoEEffect(t);
    if aoe.Some? then Some(StructuredSpecial(aoe.value))
    else
      var repair := ParseRepairEffect(t);
      if repair.Some? then Some(StructuredSpecial(repair.value))
      else
        var burst := ParseBurstEffect(t);
        if burst.Some? then
          var c := burst.value.count;
          Some(SpecialResult(Burst,
            IntToString(c) + " выстрела в " + IntToString(c) + " направлениях",
            None, Some(burst.value.directions)))
        else None
  }

  /** What `calculateDamage` attaches as `result.special`; an absent or empty
      special attaches nothing. */
  function FanSpecial(special: Option<WeaponSpecial>): Option<SpecialResult>
  {
    match special
    case None => None
    case Some(SpecialText(t)) => if t == "" then None else TextSpecial(t)
    case Some(e) => Some(StructuredSpecial(e))
  }

  /** `calculateHit`: as in the official edition, the roll must reach the
      distance, and the first die (or 0) is reported. */
  function CalculateHit(rangeStr: string, distanceSteps: int, draw: Dice): (h: HitResult)
    ensures h.success <==> h.total >= distanceSteps
    ensures h.total == RollOutcome(rangeStr, draw).0
    ensures h.roll == if |RollOutcome(rangeStr, draw).1| > 0 then draw(0) else 0
    ensures !h.isGrenade
  {
    var (total, rolls) := RollOutcome(rangeStr, draw);
    HitResult(total >= distanceSteps, if |rolls| > 0 then rolls[0] else 0, total, false)
  }

  /** `calculateDamage`: the base count of wounds, with the special effect's
      result attached; the special never changes wounds or throws.  Vehicle
      arguments after the special are not taken. */
  method CalculateDamage(powerStr: string, targetArmor: int, special: Option<WeaponSpecial>, draw: Dice)
    returns (r: DamageResult)
    ensures r.rolls == DamageRolls(powerStr, draw)
    ensures r.damage == CountAbove(r.rolls, targetArmor)
    ensures r.special == FanSpecial(special)
  {
    var damage, rolls := GameLogic.CalculateDamage(powerStr, targetArmor, draw);
    r := DamageResult(damage, rolls, None);
    if special.Some? {
      match special.value {
        case SpecialText(t) =>
          if t != "" {
            r := r.(special := TextSpecial(t));
          }
        case _ =>
          r := r.(special := Some(StructuredSpecial(special.value)));
      }
    }
  }

  /** `calculateMelee`: the same contest as the base rules. */
  function CalculateMelee(attackerMelee: int, defenderMelee: int, draw: Dice): (m: MeleeResult)
    ensures m == GameLogic.CalculateMelee(attackerMelee, defenderMelee, draw)
  {
    var aRoll := draw(0);
    var dRoll := draw(1);
    var aTotal := aRoll + attackerMelee;
    var dTotal := dRoll + defenderMelee;
    MeleeResult(aRoll, aTotal, dRoll, dTotal,
                if aTotal > dTotal then Attacker else if dTotal > aTotal then Defender else Draw)
  }

  /** A search fails exactly when the pattern fails at every position, and
      otherwise returns the outcome at the leftmost position where it
      succeeds. */
  lemma SearchLeftmost(p: Pattern, s: string)
    ensures Search(p, s).None? <==> forall j :: 0 <= j < |s| ==> MatchAt(p, s, j).None?
    ensures Search(p, s).Some? ==>
              exists j :: 0 <= j < |s| && Search(p, s) == MatchAt(p, s, j)
                          && forall k :: 0 <= k < j ==> MatchAt(p, s, k).None?
  {
    var ms := Matches(p, s);
    LeftmostIsFirst(ms, 0);
  }

  /** `parseAoEEffect` finds nothing exactly when no position starts an
      explosion, and otherwise returns the one at the leftmost position
      that does. */
  lemma AoELeftmost(s: string)
    ensures ParseAoEEffect(s).None? <==> forall j :: 0 <= j < |s| ==> AoEAt(s, j).None?
    ensures ParseAoEEffect(s).Some? ==>
              exists j :: 0 <= j < |s| && ParseAoEEffect(s) == AoEAt(s, j)
                          && forall k :: 0 <= k < j ==> AoEAt(s, k).None?
  {
    SearchLeftmost(AoEPattern, s);
    assert forall j :: MatchAt(AoEPattern, s, j) == AoEAt(s, j);
  }

  /** The explosion at the first position that starts one is the result. */
  lemma AoEFirstAt(s: string, i: nat)
    requires i < |s| && AoEAt(s, i).Some?
    requires forall k :: 0 <= k < i ==> AoEAt(s, k).None?
    ensures ParseAoEEffect(s) == AoEAt(s, i)
  {
    LeftmostAt(Matches(AoEPattern, s), 0, i);
  }

  /** White space before the radius is skipped. */
  lemma {:induction false} AoERadiusSkip(s: string, w: nat, b: nat)
    requires w <= b <= |s|
    requires forall k {:trigger IsSpace(s[k])} :: w <= k < b ==> IsSpace(s[k])
    ensures AoERadiusAt(s, w) == AoERadiusAt(s, b)
    decreases b - w
  {
    if w < b {
      assert IsSpace(s[w]);
      AoERadiusSkip(s, w + 1, b);
    }
  }

  /** Without a digit there is no radius. */
  lemma {:induction false} AoERadiusNeedsDigit(s: string, w: nat)
    requires w <= |s| && NoDigits(s)
    ensures AoERadiusAt(s, w).None?
    decreases |s| - w
  {
    if w < |s| && IsSpace(s[w]) {
      AoERadiusNeedsDigit(s, w + 1);
    } else if w < |s| {
      assert !IsDigit(s[w]);
    }
  }

  /** White space before the dash is skipped. */
  lemma {:induction false} AoEFormulaSkip(s: string, c: nat, d: nat)
    requires c <= d <= |s|
    requires forall k {:trigger IsSpace(s[k])} :: c <= k < d ==> IsSpace(s[k])
    ensures AoEFormulaAt(s, c) == AoEFormulaAt(s, d)
    decreases d - c
  {
    if c < d {
      assert IsSpace(s[c]);
      AoEFormulaSkip(s, c + 1, d);
    }
  }

  /** A dice formula is found exactly when a run of digits, a "D" and a
      run of digits start at `e`, and it ends after the second run. */
  lemma {:induction false} DiceEndIs(s: string, e: nat)
    requires e <= |s|
    ensures var n1 := DigitRun(s, e);
            DiceEnd(s, e) == if n1 == 0 || e + n1 >= |s| || !SameLetter(s[e + n1], 'D') then None
                             else if DigitRun(s, e + n1 + 1) == 0 then None
                             else Some(e + n1 + 1 + DigitRun(s, e + n1 + 1))
    decreases |s| - e
  {
    if e < |s| && IsDigit(s[e]) {
      if e + 1 < |s| && SameLetter(s[e + 1], 'D') {
        assert !IsDigit(s[e + 1]);
        assert DigitRun(s, e) == 1;
      } else {
        DiceEndIs(s, e + 1);
        assert DigitRun(s, e) == 1 + DigitRun(s, e + 1);
      }
    }
  }

  /** A dash, optional white space and a dice formula is that formula. */
  lemma AoEFormulaAtDash(s: string, d: nat, e: nat, x: nat)
    requires d < |s| && (s[d] == '-' || s[d] == '–')
    requires e == d + 1 + SpaceRun(s, d + 1) && DiceEnd(s, e) == Some(x)
    ensures AoEFormulaAt(s, d) == Some((e, x))
  {
    assert !IsSpace(s[d]);
  }

  /** A dash after optional white space, then optional white space and a
      dice formula, is that formula. */
  lemma AoEFormulaIntro(s: string, c: nat, d: nat, e: nat, x: nat)
    requires c <= |s| && d == c + SpaceRun(s, c) && d < |s| && (s[d] == '-' || s[d] == '–')
    requires e == d + 1 + SpaceRun(s, d + 1) && DiceEnd(s, e) == Some(x)
    ensures AoEFormulaAt(s, c) == Some((e, x))
  {
    AoEFormulaSkip(s, c, d);
    AoEFormulaAtDash(s, d, e, x);
  }

  /** A radius, "ш" and a damage formula give an explosion of that radius
      whose damage is the formula's text. */
  lemma AoERadiusAtDigits(s: string, b: nat, n: nat, e: nat, x: nat)
    requires b < |s| && DigitRun(s, b) == n && n > 0 && b + n < |s| && SameLetter(s[b + n], 'ш')
    requires AoEFormulaAt(s, b + n + 1) == Some((e, x))
    ensures AoERadiusAt(s, b) == Some(AoEEffect(DigitsValue(s, b, n), s[e..x]))
  {
    assert IsDigit(s[b]) && !IsSpace(s[b]);
  }

  /** "Взрыв", white space, a radius, "ш" and a damage formula is an
      explosion of that radius whose damage is the formula's text. */
  lemma AoEAtIntro(s: string, i: nat, b: nat, n: nat, e: nat, x: nat)
    requires i + 5 < |s| && LiteralAt(s, i, "Взрыв")
    requires b == i + 5 + SpaceRun(s, i + 5) && b > i + 5
    requires DigitRun(s, b) == n && n > 0 && b + n < |s| && SameLetter(s[b + n], 'ш')
    requires AoEFormulaAt(s, b + n + 1) == Some((e, x))
    ensures AoEAt(s, i) == Some(AoEEffect(DigitsValue(s, b, n), s[e..x]))
  {
    AoERadiusSkip(s, i + 6, b);
    AoERadiusAtDigits(s, b, n, e, x);
  }

  /** `f` splits at `k` into digits, a "D" and digits. */
  predicate DiceSplitAt(f: string, k: nat)
  {
    0 < k < |f| - 1 && AllDigits(f[..k]) && SameLetter(f[k], 'D') && AllDigits(f[k + 1..])
  }

  ghost predicate IsDiceFormula(f: string)
  {
    exists k :: DiceSplitAt(f, k)
  }

  /** The text a dice formula spans is digits, a "D" and digits. */
  lemma DiceEndShape(s: string, e: nat)
    requires e <= |s| && DiceEnd(s, e).Some?
    ensures DiceSplitAt(s[e..DiceEnd(s, e).value], DigitRun(s, e))
  {
    DiceEndIs(s, e);
    var n1 := DigitRun(s, e);
    var x := DiceEnd(s, e).value;
    var f := s[e..x];
    assert f[..n1] == s[e..e + n1];
    assert f[n1 + 1..] == s[e + n1 + 1..x];
    assert f[n1] == s[e + n1];
  }

  /** A damage formula found at a dash is a dice formula. */
  lemma AoEFormulaShapeAtDash(s: string, d: nat)
    requires d < |s| && !IsSpace(s[d]) && AoEFormulaAt(s, d).Some?
    ensures IsDiceFormula(s[AoEFormulaAt(s, d).value.0..AoEFormulaAt(s, d).value.1])
  {
    DiceEndShape(s, d + 1 + SpaceRun(s, d + 1));
  }

  /** A damage formula found at `c` is a dice formula. */
  lemma AoEFormulaShape(s: string, c: nat)
    requires c <= |s| && AoEFormulaAt(s, c).Some?
    ensures IsDiceFormula(s[AoEFormulaAt(s, c).value.0..AoEFormulaAt(s, c).value.1])
  {
    var d := c + SpaceRun(s, c);
    AoEFormulaSkip(s, c, d);
    AoEFormulaShapeAtDash(s, d);
  }

  /** An explosion read at the first character after the white space has
      the radius written there and a dice formula as damage. */
  lemma AoERadiusShape(s: string, b: nat)
    requires b < |s| && !IsSpace(s[b]) && AoERadiusAt(s, b).Some?
    ensures DigitRun(s, b) > 0 && AoERadiusAt(s, b).value.radius == DigitsValue(s, b, DigitRun(s, b))
    ensures IsDiceFormula(AoERadiusAt(s, b).value.damage)
  {
    AoEFormulaShape(s, b + DigitRun(s, b) + 1);
  }

  /** An explosion found at `i` has the radius written after "Взрыв" and its
      white space, and a dice formula as damage. */
  lemma AoEAtShape(s: string, i: nat)
    requires AoEAt(s, i).Some?
    ensures LiteralAt(s, i, "Взрыв")
    ensures var b := i + 5 + SpaceRun(s, i + 5);
            b > i + 5 && DigitRun(s, b) > 0 && AoEAt(s, i).value.radius == DigitsValue(s, b, DigitRun(s, b))
    ensures IsDiceFormula(AoEAt(s, i).value.damage)
  {
    var b := i + 5 + SpaceRun(s, i + 5);
    AoERadiusSkip(s, i + 6, b);
    AoERadiusShape(s, b);
  }

  /** `parseRepairEffect` finds nothing exactly when no position starts a
      repair, and otherwise returns the one at the leftmost position that
      does. */
  lemma RepairLeftmost(s: string)
    ensures ParseRepairEffect(s).None? <==> forall j :: 0 <= j < |s| ==> RepairAt(s, j).None?
    ensures ParseRepairEffect(s).Some? ==>
              exists j :: 0 <= j < |s| && ParseRepairEffect(s) == RepairAt(s, j)
                          && forall k :: 0 <= k < j ==> RepairAt(s, k).None?
  {
    SearchLeftmost(RepairPattern, s);
    assert forall j :: MatchAt(RepairPattern, s, j) == RepairAt(s, j);
  }

  /** The repair at the first position that starts one is the result. */
  lemma RepairFirstAt(s: string, i: nat)
    requires i < |s| && RepairAt(s, i).Some?
    requires forall k :: 0 <= k < i ==> RepairAt(s, k).None?
    ensures ParseRepairEffect(s) == RepairAt(s, i)
  {
    LeftmostAt(Matches(RepairPattern, s), 0, i);
  }

  /** "Ремонт", white space and an amount is a repair of that amount, and a
      repair found at `i` always reads that way. */
  lemma RepairAtIff(s: string, i: nat)
    ensures RepairAt(s, i).Some? <==>
              && i + 6 <= |s| && LiteralAt(s, i, "Ремонт")
              && SpaceRun(s, i + 6) > 0 && DigitRun(s, i + 6 + SpaceRun(s, i + 6)) > 0
    ensures RepairAt(s, i).Some? ==>
              var b := i + 6 + SpaceRun(s, i + 6);
              RepairAt(s, i) == Some(RepairEffect(DigitsValue(s, b, DigitRun(s, b)), None))
  {
  }

  /** `parseBurstEffect` finds nothing exactly when no position starts a
      burst, and otherwise returns the one at the leftmost position that
      does. */
  lemma BurstLeftmost(s: string)
    ensures ParseBurstEffect(s).None? <==> forall j :: 0 <= j < |s| ==> BurstAt(s, j).None?
    ensures ParseBurstEffect(s).Some? ==>
              exists j :: 0 <= j < |s| && ParseBurstEffect(s) == BurstAt(s, j)
                          && forall k :: 0 <= k < j ==> BurstAt(s, k).None?
  {
    SearchLeftmost(BurstPattern, s);
    assert forall j :: MatchAt(BurstPattern, s, j) == BurstAt(s, j);
  }

  /** The burst at the first position that starts one is the result. */
  lemma BurstFirstAt(s: string, i: nat)
    requires i < |s| && BurstAt(s, i).Some?
    requires forall k :: 0 <= k < i ==> BurstAt(s, k).None?
    ensures ParseBurstEffect(s) == BurstAt(s, i)
  {
    LeftmostAt(Matches(BurstPattern, s), 0, i);
  }

  /** Every pattern needs a digit: text without digits has no special
      effect. */
  lemma NoDigitsNoSpecial(t: string)
    requires NoDigits(t)
    ensures ParseAoEEffect(t).None? && ParseRepairEffect(t).None? && ParseBurstEffect(t).None?
    ensures FanSpecial(Some(SpecialText(t))) == None
  {
    forall j: nat ensures AoEAt(t, j).None? && RepairAt(t, j).None? && BurstAt(t, j).None? {
      if j + 5 < |t| {
        AoERadiusNeedsDigit(t, j + 6);
      }
      if j + 6 <= |t| && LiteralAt(t, j, "Ремонт") {
        var b := j + 6 + SpaceRun(t, j + 6);
        assert DigitRun(t, b) == 0;
      }
      if j <= |t| {
        assert DigitRun(t, j) == 0;
      }
    }
    LeftmostIsFirst(Matches(AoEPattern, t), 0);
    LeftmostIsFirst(Matches(RepairPattern, t), 0);
    LeftmostIsFirst(Matches(BurstPattern, t), 0);
  }

  /** A structured repair heals its amount: the extra damage is its
      negation, whatever the range. */
  lemma RepairHeals(amount: int, range: Option<int>)
    ensures FanSpecial(Some(RepairEffect(amount, range))).value.kind == Repair
    ensures FanSpecial(Some(RepairEffect(amount, range))).value.additionalDamage == Some(-amount)
  {
  }

  lemma NoLetterZe(t: string)
    requires 'з' !in t && 'З' !in t
    ensures ParseAoEEffect(t) == None
  {
    forall k | 0 <= k < |t| ensures !SameLetter(t[k], 'з') {
      assert t[k] != 'з' && t[k] != 'З';
    }
    forall j | 0 <= j < |t| ensures MatchAt(AoEPattern, t, j).None? {
      LiteralNeedsLetter(t, j, "Взрыв", 1, 'з');
    }
    LeftmostIsFirst(Matches(AoEPattern, t), 0);
  }

  const RepairExample := "Ремонт 2 повреждения"

  lemma RepairExampleMatch()
    ensures ParseRepairEffect(RepairExample) == Some(RepairEffect(2, None))
  {
    var t := RepairExample;
    assert |t| == 20 && t[0] == 'Р' && t[1] == 'е' && t[2] == 'м' && t[3] == 'о' && t[4] == 'н';
    assert t[5] == 'т' && t[6] == ' ' && t[7] == '2' && t[8] == ' ';
    RepairExampleAt(t);
    RepairFirstAt(t, 0);
  }

  /** "Ремонт 2 " at the start of a text is a repair of 2. */
  lemma RepairExampleAt(s: string)
    requires |s| >= 9 && s[0] == 'Р' && s[1] == 'е' && s[2] == 'м' && s[3] == 'о' && s[4] == 'н'
    requires s[5] == 'т' && s[6] == ' ' && s[7] == '2' && s[8] == ' '
    ensures RepairAt(s, 0) == Some(RepairEffect(2, None))
  {
    assert LiteralAt(s, 0, "Ремонт");
    assert IsSpace(s[6]) && !IsSpace(s[7]);
    assert IsDigit(s[7]) && !IsDigit(s[8]);
    assert DigitsValue(s, 7, 1) == 2;
  }

  /** A repair text heals the amount it names. */
  lemma RepairTextSpecial(t: string, n: nat)
    requires ParseAoEEffect(t) == None && ParseRepairEffect(t) == Some(RepairEffect(n, None))
    ensures TextSpecial(t) == Some(SpecialResult(Repair, "Ремонт " + NatToString(n) + " повреждений", Some(-(n as int)), None))
  {
    var d := "Ремонт " + IntToString(n) + " повреждений";
    assert d + "" == d;
    assert IntToString(n) == NatToString(n);
  }

  /** "Ремонт 2 повреждения" repairs two points. */
  lemma RepairTextExample()
    ensures FanSpecial(Some(SpecialText(RepairExample)))
            == Some(SpecialResult(Repair, "Ремонт 2 повреждений", Some(-2), None))
  {
    var t := RepairExample;
    assert t != "" by { assert |t| == 20; }
    NoLetterZe(t);
    RepairExampleMatch();
    RepairTextSpecial(t, 2);
    RepairTwoDescription(NatToString(2));
  }

  lemma RepairTwoDescription(x: string)
    requires x == NatToString(2)
    ensures "Ремонт " + x + " повреждений" == "Ремонт 2 повреждений"
  {
    assert x == "2" by { assert x == [DigitChar(2)]; }
  }

  /** A text without the letter "м" has no repair effect. */
  lemma NoLetterEm(t: string)
    requires 'м' !in t && 'М' !in t
    ensures ParseRepairEffect(t) == None
  {
    forall k | 0 <= k < |t| ensures !SameLetter(t[k], 'м') {
      assert t[k] != 'м' && t[k] != 'М';
    }
    forall j | 0 <= j < |t| ensures MatchAt(RepairPattern, t, j).None? {
      LiteralNeedsLetter(t, j, "Ремонт", 2, 'м');
    }
    LeftmostIsFirst(Matches(RepairPattern, t), 0);
  }

  const AoEExample := "Взрыв 2ш - 1D20"

  lemma AoEExampleText(t: string)
    requires t == AoEExample
    ensures LiteralAt(t, 0, "Взрыв") && SpaceRun(t, 5) == 1
    ensures DigitRun(t, 6) == 1 && DigitsValue(t, 6, 1) == 2 && SameLetter(t[7], 'ш')
    ensures SpaceRun(t, 8) == 1 && t[9] == '-' && SpaceRun(t, 10) == 1
    ensures DigitRun(t, 11) == 1 && SameLetter(t[12], 'D') && DigitRun(t, 13) == 2
    ensures t[11..15] == "1D20"
  {
    assert IsSpace(t[5]) && !IsSpace(t[6]);
    assert IsDigit(t[6]) && !IsDigit(t[7]);
    assert IsSpace(t[8]) && !IsSpace(t[9]);
    assert IsSpace(t[10]) && !IsSpace(t[11]);
    assert IsDigit(t[11]) && !IsDigit(t[12]);
    assert IsDigit(t[13]) && IsDigit(t[14]) && |t| == 15;
  }

  lemma AoEExampleAt(t: string)
    requires t == AoEExample
    ensures AoEAt(t, 0) == Some(AoEEffect(2, "1D20"))
  {
    AoEExampleText(t);
  }

  lemma AoEExampleMatch()
    ensures ParseAoEEffect(AoEExample) == Some(AoEEffect(2, "1D20"))
  {
    var t := AoEExample;
    AoEExampleAt(t);
    LeftmostAt(Matches(AoEPattern, t), 0, 0);
  }

  /** An explosion text reports its radius and no extra damage. */
  lemma AoETextSpecial(t: string, radius: nat, damage: string)
    requires ParseAoEEffect(t) == Some(AoEEffect(radius, damage))
    ensures TextSpecial(t) == Some(SpecialResult(AoE, "Взрыв в радиусе " + NatToString(radius) + "ш", Some(0), None))
  {
  }

  /** "Взрыв 2ш - 1D20" is an explosion of radius 2. */
  lemma AoETextExample()
    ensures FanSpecial(Some(SpecialText(AoEExample)))
            == Some(SpecialResult(AoE, "Взрыв в радиусе 2ш", Some(0), None))
  {
    assert |AoEExample| == 15;
    AoEExampleSpecial(AoEExample);
  }

  lemma AoEExampleSpecial(t: string)
    requires t == AoEExample
    ensures TextSpecial(t) == Some(SpecialResult(AoE, "Взрыв в радиусе 2ш", Some(0), None))
  {
    AoEExampleMatch();
    AoETextSpecial(t, 2, "1D20");
    AoETwoDescription(NatToString(2));
  }

  lemma AoETwoDescription(x: string)
    requires x == NatToString(2)
    ensures "Взрыв в радиусе " + x + "ш" == "Взрыв в радиусе 2ш"
  {
    assert x == "2" by { assert x == [DigitChar(2)]; }
  }

  const BurstExample := "3 выстрела в 3х направлениях"

  /** The directions part of the example, "3х направл" at position 13,
      preceded on the same line by "а в ". */
  lemma BurstExampleDirections(s: string)
    requires |s| >= 23 && s[9] == 'а' && s[10] == ' ' && s[11] == 'в' && s[12] == ' '
    requires s[13] == '3' && s[14] == 'х' && s[15] == ' '
    requires s[16] == 'н' && s[17] == 'а' && s[18] == 'п' && s[19] == 'р'
    requires s[20] == 'а' && s[21] == 'в' && s[22] == 'л'
    ensures DirectionsAt(s, 13)
    ensures forall k {:trigger IsLineTerminator(s[k])} :: 9 <= k < 13 ==> !IsLineTerminator(s[k])
  {
    assert IsDigit(s[13]) && !IsDigit(s[14]);
    assert IsSpace(s[15]) && !IsSpace(s[16]);
    DirectionsAtIntro(s, 13, 1, 1);
  }

  /** A count of directions written with a Latin or Cyrillic "x", white space
      and "направл". */
  lemma DirectionsAtIntro(s: string, q: nat, n: nat, sp: nat)
    requires q + n < |s| && DigitRun(s, q) == n && n > 0
    requires SameLetter(s[q + n], 'x') || SameLetter(s[q + n], 'х')
    requires SpaceRun(s, q + n + 1) == sp && sp > 0
    requires LiteralAt(s, q + n + 1 + sp, "направл")
    ensures DirectionsAt(s, q)
  {
  }

  /** `.*?` reaches the directions part when no line ends before it. */
  lemma {:induction false} LazyReaches(s: string, q: nat, r: nat)
    requires q <= r <= |s| && DirectionsAt(s, r)
    requires forall k {:trigger IsLineTerminator(s[k])} :: q <= k < r ==> !IsLineTerminator(s[k])
    ensures LazyDirections(s, q)
    decreases r - q
  {
    if q < r {
      LazyReaches(s, q + 1, r);
      assert !IsLineTerminator(s[q]);
    } else {
      assert DirectionsAt(s, q);
    }
  }

  /** A shot count, white space and "выстрел", followed on the same line by
      a count of directions, is a burst of that many shots. */
  lemma BurstAtIntro(s: string, i: nat, n: nat, sp: nat, q: nat)
    requires i <= |s| && DigitRun(s, i) == n && n > 0
    requires SpaceRun(s, i + n) == sp && sp > 0
    requires i + n + sp + 7 <= q <= |s| && LiteralAt(s, i + n + sp, "выстрел")
    requires DirectionsAt(s, q)
    requires forall k {:trigger IsLineTerminator(s[k])} :: i + n + sp + 7 <= k < q ==> !IsLineTerminator(s[k])
    ensures BurstAt(s, i) == Some(BurstOf(DigitsValue(s, i, n)))
  {
    var p := i + n + sp + 7;
    LazyReaches(s, p, q);
    BurstAtLazy(s, i, n, sp, p);
  }

  lemma BurstAtLazy(s: string, i: nat, n: nat, sp: nat, p: nat)
    requires i <= |s| && DigitRun(s, i) == n && n > 0
    requires SpaceRun(s, i + n) == sp && sp > 0
    requires p == i + n + sp + 7 && p <= |s| && LiteralAt(s, i + n + sp, "выстрел")
    requires LazyDirections(s, p)
    ensures BurstAt(s, i) == Some(BurstOf(DigitsValue(s, i, n)))
  {
  }

  /** The shots part of the example, "3 выстрел" at position 0. */
  lemma BurstExampleShots(s: string)
    requires |s| >= 9 && s[0] == '3' && s[1] == ' '
    requires s[2] == 'в' && s[3] == 'ы' && s[4] == 'с' && s[5] == 'т'
    requires s[6] == 'р' && s[7] == 'е' && s[8] == 'л'
    ensures DigitRun(s, 0) == 1 && DigitsValue(s, 0, 1) == 3
    ensures SpaceRun(s, 1) == 1 && LiteralAt(s, 2, "выстрел")
  {
    assert IsDigit(s[0]) && !IsDigit(s[1]);
    assert IsSpace(s[1]) && !IsSpace(s[2]);
  }

  /** The example's layout: "3 выстрела в " and then "3х направл" on the
      same line. */
  lemma BurstExampleAt(t: string)
    requires |t| >= 23 && t[0] == '3' && t[1] == ' ' && t[2] == 'в' && t[3] == 'ы' && t[4] == 'с'
    requires t[5] == 'т' && t[6] == 'р' && t[7] == 'е' && t[8] == 'л' && t[9] == 'а' && t[10] == ' '
    requires t[11] == 'в' && t[12] == ' ' && t[13] == '3' && t[14] == 'х' && t[15] == ' ' && t[16] == 'н'
    requires t[17] == 'а' && t[18] == 'п' && t[19] == 'р' && t[20] == 'а' && t[21] == 'в' && t[22] == 'л'
    ensures BurstAt(t, 0) == Some(BurstEffect(3, Directions))
  {
    BurstExampleShots(t);
    BurstExampleDirections(t);
    BurstAtIntro(t, 0, 1, 1, 13);
    assert Directions[..3] == Directions;
  }

  lemma BurstExampleMatch()
    ensures ParseBurstEffect(BurstExample) == Some(BurstEffect(3, Directions))
  {
    var t := BurstExample;
    assert |t| == 28 && t[0] == '3' && t[1] == ' ' && t[2] == 'в' && t[3] == 'ы' && t[4] == 'с';
    assert t[5] == 'т' && t[6] == 'р' && t[7] == 'е' && t[8] == 'л' && t[9] == 'а' && t[10] == ' ';
    assert t[11] == 'в' && t[12] == ' ' && t[13] == '3' && t[14] == 'х' && t[15] == ' ' && t[16] == 'н';
    assert t[17] == 'а' && t[18] == 'п' && t[19] == 'р' && t[20] == 'а' && t[21] == 'в' && t[22] == 'л';
    BurstExampleAt(t);
    BurstFirstAt(t, 0);
  }

  /** A burst text names its shot count twice and targets the first
      directions. */
  lemma BurstTextSpecial(t: string, n: nat, dirs: seq<string>)
    requires ParseAoEEffect(t) == None && ParseRepairEffect(t) == None
    requires ParseBurstEffect(t) == Some(BurstEffect(n, dirs))
    ensures TextSpecial(t) == Some(SpecialResult(Burst,
              NatToString(n) + " выстрела в " + NatToString(n) + " направлениях", None, Some(dirs)))
  {
  }

  lemma BurstExampleNotAoE(t: string)
    requires t == BurstExample
    ensures ParseAoEEffect(t) == None
  {
    assert 'з' !in t && 'З' !in t;
    NoLetterZe(t);
  }

  lemma BurstExampleNotRepair(t: string)
    requires t == BurstExample
    ensures ParseRepairEffect(t) == None
  {
    assert 'м' !in t && 'М' !in t;
    NoLetterEm(t);
  }

  /** "3 выстрела в 3х направлениях" fires in all three directions. */
  lemma BurstTextExample()
    ensures FanSpecial(Some(SpecialText(BurstExample))).Some?
    ensures FanSpecial(Some(SpecialText(BurstExample))).value.kind == Burst
    ensures FanSpecial(Some(SpecialText(BurstExample))).value.targets == Some(Directions)
    ensures |Directions| == 3
  {
    var t := BurstExample;
    assert t != "" by { assert |t| == 28; }
    BurstExampleNotAoE(t);
    BurstExampleNotRepair(t);
    BurstExampleMatch();
    BurstTextSpecial(t, 3, Directions);
  }
}
