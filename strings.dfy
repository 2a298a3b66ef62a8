/** Character classes, decimal numbers and case folding shared by the parsers
    and the display helpers of the model.  JavaScript's `parseInt`, `\d`, `\s`,
    `String(n)` and `toLowerCase` are written out here for the small grammars
    the application uses. */
module Strings {

  datatype Option<T> = None | Some(value: T)

  predicate IsDigit(c: char) { '0' <= c <= '9' }

  predicate AllDigits(s: string) { forall i :: 0 <= i < |s| ==> IsDigit(s[i]) }

  predicate NoDigits(s: string) { forall i :: 0 <= i < |s| ==> !IsDigit(s[i]) }

  /** The characters JavaScript's `\s` class matches. */
  predicate IsSpace(c: char) {
    c == ' ' || c == '\t' || c == '\n' || c == '\U{B}' || c == '\U{C}' || c == '\r'
    || c == '\U{A0}' || c == '\U{1680}' || ('\U{2000}' <= c <= '\U{200A}')
    || c == '\U{2028}' || c == '\U{2029}' || c == '\U{202F}' || c == '\U{205F}'
    || c == '\U{3000}' || c == '\U{FEFF}'
  }

  /** The characters the regular-expression `.` refuses to match. */
  predicate IsLineTerminator(c: char) {
    c == '\n' || c == '\r' || c == '\U{2028}' || c == '\U{2029}'
  }

  function DigitValue(c: char): (v: nat)
    requires IsDigit(c)
    ensures v < 10
  {
    (c as int) - ('0' as int)
  }

  function DigitChar(d: nat): (c: char)
    requires d < 10
    ensures IsDigit(c) && DigitValue(c) == d
  {
    (('0' as int) + d) as char
  }

  /** Whether `s[i..i + n]` is all digits. */
  predicate DigitsAt(s: string, i: nat, n: nat)
  {
    i + n <= |s| && forall j :: i <= j < i + n ==> IsDigit(s[j])
  }

  /** The value of the `n` decimal digits at `i`, most significant first. */
  function DigitsValue(s: string, i: nat, n: nat): nat
    requires DigitsAt(s, i, n)
  {
    if n == 0 then 0 else DigitsValue(s, i, n - 1) * 10 + DigitValue(s[i + n - 1])
  }

  /** The value of a string of decimal digits. */
  function DecimalValue(s: string): nat
    requires AllDigits(s)
  {
    DigitsValue(s, 0, |s|)
  }

  /** A digit string's value depends only on its characters. */
  lemma {:induction false} DigitsValueSame(s: string, i: nat, t: string, j: nat, n: nat)
    requires DigitsAt(s, i, n) && j + n <= |t|
    requires s[i..i + n] == t[j..j + n]
    ensures DigitsAt(t, j, n) && DigitsValue(t, j, n) == DigitsValue(s, i, n)
  {
    forall m | j <= m < j + n ensures IsDigit(t[m]) {
      assert t[m] == t[j..j + n][m - j] == s[i..i + n][m - j] == s[i + (m - j)];
    }
    if n > 0 {
      assert s[i..i + (n - 1)] == s[i..i + n][..n - 1] == t[j..j + n][..n - 1] == t[j..j + (n - 1)];
      DigitsValueSame(s, i, t, j, n - 1);
      assert t[j + n - 1] == t[j..j + n][n - 1] == s[i..i + n][n - 1] == s[i + n - 1];
    }
  }

  /** `String(n)` for a non-negative integer: decimal, no leading zeros. */
  function NatToString(n: nat): (r: string)
    ensures |r| > 0 && AllDigits(r)
    ensures DecimalValue(r) == n
    ensures |r| > 1 ==> r[0] != '0'
  {
    if n < 10 then
      var r := [DigitChar(n)];
      assert DigitsValue(r, 0, 1) == DigitsValue(r, 0, 0) * 10 + DigitValue(r[0]);
      r
    else
      var p := NatToString(n / 10);
      var r := p + [DigitChar(n % 10)];
      assert r[0..|p|] == p;
      DigitsValueSame(p, 0, r, 0, |p|);
      r
  }

  /** `String(i)` for any integer. */
  function IntToString(i: int): (r: string)
    ensures |r| > 0
    ensures i >= 0 ==> r == NatToString(i)
    ensures i < 0 ==> r[0] == '-' && r[1..] == NatToString(-i)
  {
    if i < 0 then "-" + NatToString(-i) else NatToString(i)
  }

  /** Length of the run of characters satisfying `p` that starts at `i`
      (what a greedy `[...]+` or `[...]*` consumes). */
  function RunLength(s: string, i: nat, p: char -> bool): (k: nat)
    requires i <= |s|
    ensures i + k <= |s|
    ensures forall j {:trigger p(s[j])} :: i <= j < i + k ==> p(s[j])
    ensures i + k == |s| || !p(s[i + k])
    decreases |s| - i
  {
    if i < |s| && p(s[i]) then 1 + RunLength(s, i + 1, p) else 0
  }

  function DigitRun(s: string, i: nat): (k: nat)
    requires i <= |s|
    ensures DigitsAt(s, i, k)
    ensures i + k == |s| || !IsDigit(s[i + k])
  {
    RunLength(s, i, IsDigit)
  }

  function SpaceRun(s: string, i: nat): (k: nat)
    requires i <= |s|
    ensures i + k <= |s|
    ensures forall j {:trigger IsSpace(s[j])} :: i <= j < i + k ==> IsSpace(s[j])
    ensures i + k == |s| || !IsSpace(s[i + k])
  {
    RunLength(s, i, IsSpace)
  }

  /** A maximal run is determined by where it starts: a digit string followed
      by a non-digit is exactly the run `DigitRun` finds. */
  lemma DigitRunIs(s: string, i: nat, a: string)
    requires i + |a| <= |s| && AllDigits(a) && s[i..i + |a|] == a
    requires i + |a| == |s| || !IsDigit(s[i + |a|])
    ensures DigitRun(s, i) == |a| && DigitsValue(s, i, |a|) == DecimalValue(a)
  {
    assert a[0..|a|] == a;
    DigitsValueSame(a, 0, s, i, |a|);
  }

  /** Where the number of `parseInt` starts: after leading white space and
      an optional sign; `neg` tells whether the sign was a minus. */
  function NumberStart(s: string): (r: (nat, bool))
    ensures r.0 <= |s|
  {
    var i := SpaceRun(s, 0);
    if i < |s| && (s[i] == '-' || s[i] == '+') then (i + 1, s[i] == '-') else (i, false)
  }

  /** JavaScript's `parseInt(s, 10)`: leading white space, an optional
      sign, then the longest run of decimal digits; None (NaN) when there
      is no digit.  Values too large for a double are not rounded. */
  function ParseDecimal(s: string): (r: Option<int>)
  {
    var (j, neg) := NumberStart(s);
    var k := DigitRun(s, j);
    if k == 0 then None
    else Some(if neg then 0 - DigitsValue(s, j, k) else DigitsValue(s, j, k))
  }

  predicate IsHexDigit(c: char) { IsDigit(c) || 'a' <= c <= 'f' || 'A' <= c <= 'F' }

  function HexDigitValue(c: char): (v: nat)
    requires IsHexDigit(c)
    ensures v < 16
    ensures IsDigit(c) ==> v == DigitValue(c)
  {
    if IsDigit(c) then DigitValue(c)
    else if 'a' <= c <= 'f' then (c as int) - ('a' as int) + 10
    else (c as int) - ('A' as int) + 10
  }

  /** The value of the `n` hexadecimal digits at `i`. */
  function HexValue(s: string, i: nat, n: nat): nat
    requires i + n <= |s| && forall j {:trigger IsHexDigit(s[j])} :: i <= j < i + n ==> IsHexDigit(s[j])
  {
    if n == 0 then 0 else HexValue(s, i, n - 1) * 16 + HexDigitValue(s[i + n - 1])
  }

  /** Whether a `0x` or `0X` prefix starts at `j`. */
  predicate HexPrefixAt(s: string, j: nat)
  {
    j + 1 < |s| && s[j] == '0' && (s[j + 1] == 'x' || s[j + 1] == 'X')
  }

  /** JavaScript's `parseInt(s)` with no radix: like `ParseDecimal`, except
      that a `0x`/`0X` prefix after the sign switches to hexadecimal. */
  function ParseInt(s: string): (r: Option<int>)
    ensures !HexPrefixAt(s, NumberStart(s).0) ==> r == ParseDecimal(s)
  {
    var (j, neg) := NumberStart(s);
    if HexPrefixAt(s, j) then
      var k := RunLength(s, j + 2, IsHexDigit);
      if k == 0 then None
      else Some(if neg then 0 - HexValue(s, j + 2, k) else HexValue(s, j + 2, k))
    else ParseDecimal(s)
  }

  /** Both parsers read back what `String(n)` writes. */
  lemma ParseIntToString(n: int)
    ensures ParseDecimal(IntToString(n)) == Some(n)
    ensures ParseInt(IntToString(n)) == Some(n)
  {
    var s := IntToString(n);
    var j: nat := if n < 0 then 1 else 0;
    var digits := NatToString(if n < 0 then -n else n);
    assert s[j..] == digits;
    assert !IsSpace(s[0]);
    assert SpaceRun(s, 0) == 0;
    assert NumberStart(s) == (j, n < 0);
    assert s[j..j + |digits|] == digits;
    DigitRunIs(s, j, digits);
    assert !HexPrefixAt(s, j) by {
      if |digits| > 1 {
        assert s[j + 1] == digits[1];
      }
    }
  }

  /** Length of the run of characters satisfying `p` that ends the text. */
  function TrailingRun(s: string, p: char -> bool): (k: nat)
    ensures k <= |s|
    ensures forall j {:trigger p(s[j])} :: |s| - k <= j < |s| ==> p(s[j])
    ensures k == |s| || !p(s[|s| - k - 1])
    decreases |s|
  {
    if s != [] && p(s[|s| - 1]) then
      var k := TrailingRun(s[..|s| - 1], p);
      assert forall j :: 0 <= j < |s| - 1 ==> s[..|s| - 1][j] == s[j];
      1 + k
    else 0
  }

  /** `s.trim()`: the text without its leading and trailing white space. */
  function Trim(s: string): (r: string)
    ensures r == [] || (!IsSpace(r[0]) && !IsSpace(r[|r| - 1]))
    ensures r == [] <==> forall i :: 0 <= i < |s| ==> IsSpace(s[i])
    ensures exists i :: OccursAt(s, r, i) && SpacesOutside(s, i, i + |r|)
  {
    var a := SpaceRun(s, 0);
    if a == |s| then
      assert OccursAt(s, [], 0) && SpacesOutside(s, 0, 0);
      []
    else
      var b := TrailingRun(s, IsSpace);
      assert !IsSpace(s[a]);
      var r := s[a..|s| - b];
      assert OccursAt(s, r, a) && SpacesOutside(s, a, a + |r|);
      r
  }

  /** Everything before `i` and from `j` on is white space. */
  predicate SpacesOutside(s: string, i: nat, j: nat)
  {
    (forall k :: 0 <= k < i && k < |s| ==> IsSpace(s[k]))
    && (forall k :: j <= k < |s| ==> IsSpace(s[k]))
  }

  predicate OccursAt(s: string, t: string, i: int) {
    0 <= i && i + |t| <= |s| && s[i..i + |t|] == t
  }

  /** `s.includes(t)`. */
  function Contains(s: string, t: string): (r: bool)
    ensures r <==> exists i :: OccursAt(s, t, i)
    decreases |s|
  {
    if |t| > |s| then false
    else if s[..|t|] == t then
      assert OccursAt(s, t, 0);
      true
    else
      var r := Contains(s[1..], t);
      assert forall i :: OccursAt(s[1..], t, i) <==> OccursAt(s, t, i + 1) by {
        forall i ensures OccursAt(s[1..], t, i) <==> OccursAt(s, t, i + 1) {
          if 0 <= i && i + 1 + |t| <= |s| {
            assert s[1..][i..i + |t|] == s[i + 1..i + 1 + |t|];
          }
        }
      }
      assert !OccursAt(s, t, 0);
      assert forall i :: OccursAt(s, t, i) ==> i == 0 || OccursAt(s[1..], t, i - 1);
      r
  }

  /** `toLowerCase` on the letters the application's texts use: Latin A-Z and
      the Cyrillic capitals U+0400-U+042F. */
  function ToLowerChar(c: char): (r: char)
  {
    if 'A' <= c <= 'Z' then (c as int + 32) as char
    else if '\U{410}' <= c <= '\U{42F}' then (c as int + 32) as char
    else if '\U{400}' <= c <= '\U{40F}' then (c as int + 0x50) as char
    else c
  }

  function ToLower(s: string): (r: string)
    ensures |r| == |s|
    ensures forall i :: 0 <= i < |s| ==> r[i] == ToLowerChar(s[i])
  {
    seq(|s|, i requires 0 <= i < |s| => ToLowerChar(s[i]))
  }

  /** Equality under the regular-expression `i` flag. */
  predicate SameLetter(a: char, b: char) { ToLowerChar(a) == ToLowerChar(b) }

  /** Whether the literal `lit` occurs at `i`, ignoring case. */
  predicate LiteralAt(s: string, i: nat, lit: string) {
    i + |lit| <= |s| && forall j :: 0 <= j < |lit| ==> SameLetter(s[i + j], lit[j])
  }

  /** A literal that contains the letter `c` (ignoring case) cannot occur in
      a text that lacks it. */
  lemma LiteralNeedsLetter(s: string, i: nat, lit: string, k: nat, c: char)
    requires k < |lit| && SameLetter(lit[k], c)
    requires forall j :: 0 <= j < |s| ==> !SameLetter(s[j], c)
    ensures !LiteralAt(s, i, lit)
  {
  }

  /** The first success in `ms` from position `i` on: how a regular
      expression without the `g` flag picks its match, given the outcome of
      trying the pattern at every position. */
  function Leftmost<T>(ms: seq<Option<T>>, i: nat): Option<T>
    requires i <= |ms|
    decreases |ms| - i
  {
    if i == |ms| then None
    else if ms[i].Some? then ms[i]
    else Leftmost(ms, i + 1)
  }

  /** The search returns the first success. */
  lemma {:induction false} LeftmostAt<T>(ms: seq<Option<T>>, i: nat, k: nat)
    requires i <= k < |ms| && ms[k].Some?
    requires forall j :: i <= j < k ==> ms[j].None?
    ensures Leftmost(ms, i) == ms[k]
    decreases k - i
  {
    if i < k {
      LeftmostAt(ms, i + 1, k);
    }
  }

  /** The search fails exactly when every position fails, and a success is
      the outcome at the leftmost successful position. */
  lemma {:induction false} LeftmostIsFirst<T>(ms: seq<Option<T>>, i: nat)
    requires i <= |ms|
    ensures Leftmost(ms, i).None? <==> forall j :: i <= j < |ms| ==> ms[j].None?
    ensures Leftmost(ms, i).Some? ==>
              exists j :: i <= j < |ms| && Leftmost(ms, i) == ms[j]
                          && forall k :: i <= k < j ==> ms[k].None?
    decreases |ms| - i
  {
    if i < |ms| && ms[i].None? {
      LeftmostIsFirst(ms, i + 1);
      if Leftmost(ms, i).Some? {
        var j :| i + 1 <= j < |ms| && Leftmost(ms, i + 1) == ms[j]
                 && forall k :: i + 1 <= k < j ==> ms[k].None?;
        assert forall k :: i <= k < j ==> ms[k].None?;
      }
    }
  }
}
