/** The encoding repair of the PDF text extraction script: Cyrillic text whose
    Windows-1251 bytes 0xC0-0xFF were decoded as ISO 8859-1 shows up as the
    characters U+00C0-U+00FF; `FixEncoding` maps them back to U+0410-U+044F. */
module EncodingRepair {

  /** The fixed remapping table, À..ß to А..Я and à..ÿ to а..я, written as
      four runs of sixteen letters. */
  const CapitalsLow: map<char, char> :=
    map[
      '\U{C0}' := 'А', '\U{C1}' := 'Б', '\U{C2}' := 'В', '\U{C3}' := 'Г',
      '\U{C4}' := 'Д', '\U{C5}' := 'Е', '\U{C6}' := 'Ж', '\U{C7}' := 'З',
      '\U{C8}' := 'И', '\U{C9}' := 'Й', '\U{CA}' := 'К', '\U{CB}' := 'Л',
      '\U{CC}' := 'М', '\U{CD}' := 'Н', '\U{CE}' := 'О', '\U{CF}' := 'П'
    ]

  const CapitalsHigh: map<char, char> :=
    map[
      '\U{D0}' := 'Р', '\U{D1}' := 'С', '\U{D2}' := 'Т', '\U{D3}' := 'У',
      '\U{D4}' := 'Ф', '\U{D5}' := 'Х', '\U{D6}' := 'Ц', '\U{D7}' := 'Ч',
      '\U{D8}' := 'Ш', '\U{D9}' := 'Щ', '\U{DA}' := 'Ъ', '\U{DB}' := 'Ы',
      '\U{DC}' := 'Ь', '\U{DD}' := 'Э', '\U{DE}' := 'Ю', '\U{DF}' := 'Я'
    ]

  const SmallLow: map<char, char> :=
    map[
      '\U{E0}' := 'а', '\U{E1}' := 'б', '\U{E2}' := 'в', '\U{E3}' := 'г',
      '\U{E4}' := 'д', '\U{E5}' := 'е', '\U{E6}' := 'ж', '\U{E7}' := 'з',
      '\U{E8}' := 'и', '\U{E9}' := 'й', '\U{EA}' := 'к', '\U{EB}' := 'л',
      '\U{EC}' := 'м', '\U{ED}' := 'н', '\U{EE}' := 'о', '\U{EF}' := 'п'
    ]

  const SmallHigh: map<char, char> :=
    map[
      '\U{F0}' := 'р', '\U{F1}' := 'с', '\U{F2}' := 'т', '\U{F3}' := 'у',
      '\U{F4}' := 'ф', '\U{F5}' := 'х', '\U{F6}' := 'ц', '\U{F7}' := 'ч',
      '\U{F8}' := 'ш', '\U{F9}' := 'щ', '\U{FA}' := 'ъ', '\U{FB}' := 'ы',
      '\U{FC}' := 'ь', '\U{FD}' := 'э', '\U{FE}' := 'ю', '\U{FF}' := 'я'
    ]

  const Capitals: map<char, char> := CapitalsLow + CapitalsHigh

  const SmallLetters: map<char, char> := SmallLow + SmallHigh

  const CharMap: map<char, char> := Capitals + SmallLetters

  /** What happens to one character: ASCII and the Cyrillic block are kept,
      anything else is looked up in the table and kept when absent. */
  function FixChar(c: char): char
  {
    if (c as int) < 128 then c
    else if '\U{400}' <= c <= '\U{4FF}' then c
    else if c in CharMap then CharMap[c]
    else c
  }

  /** The whole text, character by character. */
  function FixText(s: string): (r: string)
    ensures |r| == |s|
    ensures forall i :: 0 <= i < |s| ==> r[i] == FixedChar(s[i])
  {
    var r := seq(|s|, i requires 0 <= i < |s| => FixChar(s[i]));
    forall i | 0 <= i < |s| ensures r[i] == FixedChar(s[i]) {
      FixCharIsOffset(s[i]);
    }
    r
  }

  /** `fix_encoding`: builds the result one appended character per input
      character. */
  method FixEncoding(text: string) returns (fixed: string)
    ensures |fixed| == |text|
    ensures forall i :: 0 <= i < |text| && (text[i] as int) < 128 ==> fixed[i] == text[i]
    ensures forall i :: 0 <= i < |text| && '\U{400}' <= text[i] <= '\U{4FF}' ==> fixed[i] == text[i]
    ensures forall i :: 0 <= i < |text| && '\U{C0}' <= text[i] <= '\U{FF}' ==>
              fixed[i] as int == text[i] as int + 0x350
    ensures forall i :: 0 <= i < |text| && 128 <= text[i] as int && !('\U{C0}' <= text[i] <= '\U{4FF}') ==>
              fixed[i] == text[i]
    ensures fixed == FixText(text)
  {
    fixed := [];
    var k := 0;
    while k < |text|
      invariant 0 <= k <= |text|
      invariant |fixed| == k
      invariant forall i :: 0 <= i < k ==> fixed[i] == FixChar(text[i])
    {
      var c := text[k];
      if (c as int) < 128 {
        fixed := fixed + [c];
      } else if '\U{400}' <= c <= '\U{4FF}' {
        fixed := fixed + [c];
      } else {
        fixed := fixed + [if c in CharMap then CharMap[c] else c];
      }
      k := k + 1;
    }
    forall i | 0 <= i < |text| ensures FixChar(text[i]) == FixedChar(text[i]) {
      FixCharIsOffset(text[i]);
    }
  }

  lemma CapitalsLowEntries(c: char)
    ensures c in CapitalsLow <==> '\U{C0}' <= c <= '\U{CF}'
    ensures c in CapitalsLow ==> CapitalsLow[c] as int == c as int + 0x350
  {
  }

  lemma CapitalsHighEntries(c: char)
    ensures c in CapitalsHigh <==> '\U{D0}' <= c <= '\U{DF}'
    ensures c in CapitalsHigh ==> CapitalsHigh[c] as int == c as int + 0x350
  {
  }

  lemma SmallLowEntries(c: char)
    ensures c in SmallLow <==> '\U{E0}' <= c <= '\U{EF}'
    ensures c in SmallLow ==> SmallLow[c] as int == c as int + 0x350
  {
  }

  lemma SmallHighEntries(c: char)
    ensures c in SmallHigh <==> '\U{F0}' <= c <= '\U{FF}'
    ensures c in SmallHigh ==> SmallHigh[c] as int == c as int + 0x350
  {
  }

  lemma CapitalsEntries(c: char)
    ensures c in Capitals <==> '\U{C0}' <= c <= '\U{DF}'
    ensures c in Capitals ==> Capitals[c] as int == c as int + 0x350
  {
    CapitalsLowEntries(c);
    CapitalsHighEntries(c);
  }

  lemma SmallLettersEntries(c: char)
    ensures c in SmallLetters <==> '\U{E0}' <= c <= '\U{FF}'
    ensures c in SmallLetters ==> SmallLetters[c] as int == c as int + 0x350
  {
    SmallLowEntries(c);
    SmallHighEntries(c);
  }

  /** The table's keys are exactly U+00C0-U+00FF, and every entry moves its
      key up by 0x350, onto U+0410-U+044F. */
  lemma TableEntries(c: char)
    ensures c in CharMap <==> '\U{C0}' <= c <= '\U{FF}'
    ensures c in CharMap ==> CharMap[c] as int == c as int + 0x350
    ensures c in CharMap ==> '\U{410}' <= CharMap[c] <= '\U{44F}'
  {
    CapitalsEntries(c);
    SmallLettersEntries(c);
  }

  /** The closed form of the per-character map. */
  function FixedChar(c: char): char
  {
    if '\U{C0}' <= c <= '\U{FF}' then (c as int + 0x350) as char else c
  }

  /** Every output of the table is already Cyrillic. */
  lemma FixedCharIdempotent(c: char)
    ensures FixedChar(FixedChar(c)) == FixedChar(c)
  {
  }

  lemma FixCharIsOffset(c: char)
    ensures FixChar(c) == FixedChar(c)
  {
    TableEntries(c);
  }

  /** Repairing twice is repairing once: every table output lies in the
      Cyrillic block, which is passed through. */
  lemma {:induction false} FixTextIdempotent(s: string)
    ensures FixText(FixText(s)) == FixText(s)
  {
    var r := FixText(s);
    var q := FixText(r);
    forall i | 0 <= i < |s| ensures q[i] == r[i] {
      FixedCharIdempotent(s[i]);
    }
  }

  /** The repair works character by character, so it distributes over
      concatenation. */
  lemma FixTextConcat(s: string, t: string)
    ensures FixText(s + t) == FixText(s) + FixText(t)
  {
    var r, q := FixText(s + t), FixText(s) + FixText(t);
    forall i | 0 <= i < |r| ensures r[i] == q[i] {
      if i < |s| {
        assert (s + t)[i] == s[i] && q[i] == FixText(s)[i];
      } else {
        assert (s + t)[i] == t[i - |s|] && q[i] == FixText(t)[i - |s|];
      }
    }
  }

  /** Text already made of ASCII and Cyrillic characters is a fixed point. */
  lemma FixTextKeepsCorrectText(s: string)
    requires forall i :: 0 <= i < |s| ==> (s[i] as int) < 128 || '\U{400}' <= s[i] <= '\U{4FF}'
    ensures FixText(s) == s
  {
  }

  lemma FixTextKeepsCyrillicExample()
    ensures FixText("Привет") == "Привет"
  {
    FixTextKeepsCorrectText("Привет");
  }
}
