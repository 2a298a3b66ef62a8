/** The armlist editor: the id it derives from a unit's name, the records
    it sends to the stores when saving, and the buttons that edit a squad's
    soldiers and props and a machine's weapons and speed sectors. */
module ArmlistEditor {
  import opened Strings
  import opened Types
  import ArmlistRoutes

  const DefaultFaction := "polaris"
  const MaxSoldiers := 6

  /** The characters `[a-zа-я0-9]` keeps; every other character is part of
      a run that becomes one '_'. */
  predicate IsSlugChar(c: char)
  {
    'a' <= c <= 'z' || '\U{430}' <= c <= '\U{44F}' || '0' <= c <= '9'
  }

  predicate IsUnderscore(c: char) { c == '_' }

  /** What a slug may look like: slug characters and single '_' separators,
      with no '_' at either end. */
  predicate IsSlug(s: string)
  {
    && (forall i :: 0 <= i < |s| ==> IsSlugChar(s[i]) || s[i] == '_')
    && (forall i :: 0 <= i < |s| - 1 ==> !(s[i] == '_' && s[i + 1] == '_'))
    && (s == [] || (s[0] != '_' && s[|s| - 1] != '_'))
  }

  /** `replace(/[^a-zа-я0-9]+/g, '_')`: each maximal run of other
      characters becomes one '_'; `inRun` tells whether the text before `s`
      ended inside such a run (whose '_' is already written). */
  function CollapseRuns(s: string, inRun: bool): (r: string)
    ensures forall i :: 0 <= i < |r| ==> IsSlugChar(r[i]) || r[i] == '_'
    ensures forall i :: 0 <= i < |r| - 1 ==> !(r[i] == '_' && r[i + 1] == '_')
    ensures inRun && r != [] ==> r[0] != '_'
    ensures !inRun && s != [] && !IsSlugChar(s[0]) ==> r != [] && r[0] == '_'
    ensures |r| <= |s|
  {
    if s == [] then []
    else if IsSlugChar(s[0]) then [s[0]] + CollapseRuns(s[1..], false)
    else if inRun then CollapseRuns(s[1..], true)
    else ['_'] + CollapseRuns(s[1..], true)
  }

  /** Collapsing keeps every slug character, in order, and adds none. */
  lemma {:induction false} CollapseKeepsChars(s: string, inRun: bool)
    ensures SlugChars(CollapseRuns(s, inRun)) == SlugChars(s)
  {
    if s != [] {
      var rest := CollapseRuns(s[1..], !IsSlugChar(s[0]));
      CollapseKeepsChars(s[1..], !IsSlugChar(s[0]));
      if IsSlugChar(s[0]) {
        assert ([s[0]] + rest)[1..] == rest;
      } else if !inRun {
        assert (['_'] + rest)[1..] == rest;
      }
    }
  }

  /** The slug characters of a text, in order. */
  function SlugChars(s: string): (r: string)
    ensures forall i :: 0 <= i < |r| ==> IsSlugChar(r[i])
    ensures |r| <= |s|
  {
    if s == [] then []
    else if IsSlugChar(s[0]) then [s[0]] + SlugChars(s[1..])
    else SlugChars(s[1..])
  }

  /** Everything before `i` and from `j` on is '_'. */
  predicate UnderscoresOutside(s: string, i: nat, j: nat)
  {
    (forall k :: 0 <= k < i && k < |s| ==> IsUnderscore(s[k]))
    && (forall k :: j <= k < |s| ==> IsUnderscore(s[k]))
  }

  /** `replace(/^_+|_+$/g, '')`: the leading and the trailing run of '_'
      go. */
  function StripUnderscores(s: string): (r: string)
    ensures r == [] || (r[0] != '_' && r[|r| - 1] != '_')
    ensures exists i :: OccursAt(s, r, i) && UnderscoresOutside(s, i, i + |r|)
    ensures (s == [] || (s[0] != '_' && s[|s| - 1] != '_')) ==> r == s
  {
    var a := RunLength(s, 0, IsUnderscore);
    if a == |s| then
      assert OccursAt(s, [], 0) && UnderscoresOutside(s, 0, 0);
      []
    else
      var b := TrailingRun(s, IsUnderscore);
      assert !IsUnderscore(s[a]);
      var r := s[a..|s| - b];
      assert OccursAt(s, r, a) && UnderscoresOutside(s, a, a + |r|);
      r
  }

  /** The slug of a name: lower-cased, runs of other characters turned into
      single '_', outer '_' stripped. */
  function Slug(name: string): (r: string)
    ensures IsSlug(r)
  {
    var t := CollapseRuns(ToLower(name), false);
    StripKeepsSlug(t);
    StripUnderscores(t)
  }

  /** Stripping the outer '_' of collapsed text leaves a slug. */
  lemma StripKeepsSlug(t: string)
    requires forall i :: 0 <= i < |t| ==> IsSlugChar(t[i]) || t[i] == '_'
    requires forall i :: 0 <= i < |t| - 1 ==> !(t[i] == '_' && t[i + 1] == '_')
    ensures IsSlug(StripUnderscores(t))
  {
    var r := StripUnderscores(t);
    var i :| OccursAt(t, r, i);
    assert forall j :: 0 <= j < |r| ==> r[j] == t[i + j];
  }

  /** `generateId`: the faction, '_' and the slug of the name. */
  function GenerateId(name: string, faction: string): (r: string)
    ensures |r| == |faction| + 1 + |Slug(name)|
    ensures r[..|faction|] == faction && r[|faction|] == '_'
    ensures r[|faction| + 1..] == Slug(name) && IsSlug(r[|faction| + 1..])
  {
    faction + "_" + Slug(name)
  }

  /** The slug keeps every letter and digit of the lower-cased name, in
      order: only the other characters are replaced or dropped. */
  lemma SlugKeepsChars(name: string)
    ensures SlugChars(Slug(name)) == SlugChars(ToLower(name))
  {
    CollapseKeepsChars(ToLower(name), false);
    StripKeepsChars(CollapseRuns(ToLower(name), false));
  }

  /** Stripping the outer '_' keeps every slug character. */
  lemma StripKeepsChars(t: string)
    ensures SlugChars(StripUnderscores(t)) == SlugChars(t)
  {
    var r := StripUnderscores(t);
    var i :| OccursAt(t, r, i) && UnderscoresOutside(t, i, i + |r|);
    SlugCharsBetweenUnderscores(t, r, i);
  }

  lemma SlugCharsBetweenUnderscores(t: string, r: string, i: nat)
    requires OccursAt(t, r, i) && UnderscoresOutside(t, i, i + |r|)
    ensures SlugChars(t) == SlugChars(r)
  {
    var lead, trail := t[..i], t[i + |r|..];
    assert t == lead + r + trail by {
      assert t == t[..i] + t[i..i + |r|] + t[i + |r|..];
    }
    assert forall k :: 0 <= k < |lead| ==> IsUnderscore(t[k]) && lead[k] == t[k];
    assert forall k :: 0 <= k < |trail| ==> IsUnderscore(t[i + |r| + k]) && trail[k] == t[i + |r| + k];
    SlugCharsAround(lead, r, trail);
  }

  lemma SlugCharsAround(lead: string, r: string, trail: string)
    requires forall k :: 0 <= k < |lead| ==> IsUnderscore(lead[k])
    requires forall k :: 0 <= k < |trail| ==> IsUnderscore(trail[k])
    ensures SlugChars(lead + r + trail) == SlugChars(r)
  {
    SlugCharsConcat(lead + r, trail);
    SlugCharsConcat(lead, r);
    SlugCharsOfUnderscores(lead);
    SlugCharsOfUnderscores(trail);
  }

  lemma {:induction false} SlugCharsConcat(a: string, b: string)
    ensures SlugChars(a + b) == SlugChars(a) + SlugChars(b)
  {
    if a != [] {
      assert (a + b)[1..] == a[1..] + b;
      SlugCharsConcat(a[1..], b);
    } else {
      assert a + b == b;
    }
  }

  lemma {:induction false} SlugCharsOfUnderscores(a: string)
    requires forall k :: 0 <= k < |a| ==> IsUnderscore(a[k])
    ensures SlugChars(a) == []
  {
    if a != [] {
      SlugCharsOfUnderscores(a[1..]);
    }
  }

  /** Case folding leaves slug characters and '_' alone. */
  lemma ToLowerKeepsSlug(s: string)
    requires forall i :: 0 <= i < |s| ==> IsSlugChar(s[i]) || s[i] == '_'
    ensures ToLower(s) == s
  {
  }

  /** Collapsing runs changes nothing in a text whose only other character
      is a single '_' between slug characters. */
  lemma {:induction false} CollapseKeepsSlug(s: string, inRun: bool)
    requires forall i :: 0 <= i < |s| ==> IsSlugChar(s[i]) || s[i] == '_'
    requires forall i :: 0 <= i < |s| - 1 ==> !(s[i] == '_' && s[i + 1] == '_')
    requires inRun ==> s == [] || s[0] != '_'
    ensures CollapseRuns(s, inRun) == s
  {
    if s != [] {
      assert forall i :: 0 <= i < |s| - 1 ==> s[1..][i] == s[i + 1];
      CollapseKeepsSlug(s[1..], !IsSlugChar(s[0]));
    }
  }

  predicate AllSlugChars(w: string)
  {
    forall k :: 0 <= k < |w| ==> IsSlugChar(w[k])
  }

  predicate NoSlugChars(x: string)
  {
    forall k :: 0 <= k < |x| ==> !IsSlugChar(x[k])
  }

  /** One step of `CollapseRuns`. */
  lemma CollapseStep(s: string, inRun: bool)
    requires s != []
    ensures CollapseRuns(s, inRun)
            == if IsSlugChar(s[0]) then [s[0]] + CollapseRuns(s[1..], false)
               else if inRun then CollapseRuns(s[1..], true)
               else "_" + CollapseRuns(s[1..], true)
  {
  }

  /** A run of slug characters is copied as it is, and ends any run of
      other characters. */
  lemma {:induction false} CollapseSlugRun(w: string, t: string, inRun: bool)
    requires w != [] && AllSlugChars(w)
    ensures CollapseRuns(w + t, inRun) == w + CollapseRuns(t, false)
    decreases |w|
  {
    var s := w + t;
    assert s[0] == w[0] && s[1..] == w[1..] + t;
    assert IsSlugChar(s[0]);
    CollapseStep(s, inRun);
    var rest := CollapseRuns(t, false);
    if |w| > 1 {
      assert AllSlugChars(w[1..]) by {
        forall k | 0 <= k < |w[1..]| ensures IsSlugChar(w[1..][k]) {
          assert w[1..][k] == w[k + 1];
        }
      }
      CollapseSlugRun(w[1..], t, false);
      assert [w[0]] + w[1..] == w;
      assert [w[0]] + (w[1..] + rest) == ([w[0]] + w[1..]) + rest;
    } else {
      assert w[1..] + t == t && [w[0]] == w;
    }
  }

  /** A run of other characters that starts a run becomes one '_'. */
  lemma CollapseOtherRun(x: string, t: string)
    requires x != [] && NoSlugChars(x)
    ensures CollapseRuns(x + t, false) == "_" + CollapseRuns(t, true)
  {
    var s := x + t;
    assert s[0] == x[0] && s[1..] == x[1..] + t;
    CollapseStep(s, false);
    CollapseRunContinues(x[1..], t);
  }

  /** Inside a run, further characters other than slug characters add
      nothing. */
  lemma {:induction false} CollapseRunContinues(x: string, t: string)
    requires NoSlugChars(x)
    ensures CollapseRuns(x + t, true) == CollapseRuns(t, true)
    decreases |x|
  {
    if x == [] {
      assert x + t == t;
    } else {
      var s := x + t;
      assert s[0] == x[0] && s[1..] == x[1..] + t;
      CollapseStep(s, true);
      CollapseRunContinues(x[1..], t);
    }
  }

  /** Two words of slug characters joined by a run of other characters
      collapse to the words joined by one '_'. */
  lemma CollapseWords(w1: string, y: string, w2: string)
    requires w1 != [] && AllSlugChars(w1) && w2 != [] && AllSlugChars(w2)
    requires y != [] && NoSlugChars(y)
    ensures CollapseRuns(w1 + y + w2, false) == w1 + "_" + w2
  {
    assert w1 + y + w2 == w1 + (y + w2);
    CollapseSlugRun(w1, y + w2, false);
    CollapseOtherRun(y, w2);
    CollapseSlugRun(w2, [], true);
    assert w2 + [] == w2;
    assert w1 + ("_" + w2) == w1 + "_" + w2;
  }

  /** A trailing run of other characters after a word leaves a trailing
      '_', which `StripUnderscores` then drops. */
  lemma CollapseTrailingRun(w: string, x: string)
    requires w != [] && AllSlugChars(w) && x != [] && NoSlugChars(x)
    ensures CollapseRuns(w + x, false) == w + "_"
  {
    CollapseSlugRun(w, x, false);
    CollapseOtherRun(x, []);
    assert x + [] == x;
  }

  /** "a b" becomes "a_b". */
  lemma SlugWordsExample()
    ensures Slug("a" + " " + "b") == "a" + "_" + "b"
  {
    assert ToLower(" ") == [ToLowerChar(' ')];
    SlugOfWords("a", " ", "b");
  }

  /** "ab!" collapses to "ab_". */
  lemma CollapseTrailingExample()
    ensures CollapseRuns("ab" + "!", false) == "ab" + "_"
  {
    CollapseTrailingRun("ab", "!");
  }

  /** Two lower-case words joined by characters that stay other characters
      after lower-casing give the words joined by one '_'. */
  lemma SlugOfWords(w1: string, x: string, w2: string)
    requires w1 != [] && AllSlugChars(w1) && w2 != [] && AllSlugChars(w2)
    requires x != [] && NoSlugChars(ToLower(x))
    ensures Slug(w1 + x + w2) == w1 + "_" + w2
  {
    var y := ToLower(x);
    LowerWords(w1, x, w2);
    CollapseWords(w1, y, w2);
    var t := w1 + "_" + w2;
    assert t[0] == w1[0] && t[|t| - 1] == w2[|w2| - 1];
    SlugSteps(w1 + x + w2);
  }

  /** Lower-casing leaves the words alone. */
  lemma LowerWords(w1: string, x: string, w2: string)
    requires AllSlugChars(w1) && AllSlugChars(w2)
    ensures ToLower(w1 + x + w2) == w1 + ToLower(x) + w2
  {
    ToLowerKeepsSlug(w1);
    ToLowerKeepsSlug(w2);
    ToLowerConcat(w1 + x, w2);
    ToLowerConcat(w1, x);
  }

  /** Lower-casing works character by character. */
  lemma ToLowerConcat(a: string, b: string)
    ensures ToLower(a + b) == ToLower(a) + ToLower(b)
  {
    assert forall k :: 0 <= k < |a + b| ==> ToLower(a + b)[k] == (ToLower(a) + ToLower(b))[k];
  }

  /** A slug is its own slug, so an id generated from a slugged name is the
      one generated from the name. */
  lemma SlugIdempotent(name: string)
    ensures Slug(Slug(name)) == Slug(name)
  {
    var s := Slug(name);
    ToLowerKeepsSlug(s);
    CollapseKeepsSlug(s, false);
  }

  /** A name with a capital, a run of two marks and a trailing mark. */
  lemma SlugExample()
    ensures Slug("T-!34.") == "t_34"
    ensures GenerateId("T-!34.", "polaris") == "polaris" + "_" + "t_34"
  {
    SlugExampleSlug();
  }

  lemma SlugExampleSlug()
    ensures Slug("T-!34.") == "t_34"
  {
    SlugExampleLower();
    SlugExampleCollapse();
    SlugExampleStrip();
    SlugSteps("T-!34.");
  }

  /** The three steps of `Slug`, one after the other. */
  lemma SlugSteps(name: string)
    ensures Slug(name) == StripUnderscores(CollapseRuns(ToLower(name), false))
  {
  }

  lemma SlugExampleLower()
    ensures ToLower("T-!34.") == "t-!34."
  {
  }

  lemma SlugExampleCollapse()
    ensures CollapseRuns("t-!34.", false) == "t_34_"
  {
    assert CollapseRuns(".", false) == "_" by { assert "."[1..] == []; }
    assert CollapseRuns("4.", false) == "4_" by { assert "4."[1..] == "."; }
    assert CollapseRuns("34.", true) == "34_" by { assert "34."[1..] == "4."; }
    assert CollapseRuns("!34.", true) == "34_" by { assert "!34."[1..] == "34."; }
    assert CollapseRuns("-!34.", false) == "_34_" by { assert "-!34."[1..] == "!34."; }
    assert "t-!34."[1..] == "-!34.";
  }

  lemma SlugExampleStrip()
    ensures StripUnderscores("t_34_") == "t_34"
  {
    var t := "t_34_";
    assert RunLength(t, 0, IsUnderscore) == 0;
    assert TrailingRun(t, IsUnderscore) == 1 by {
      assert t[..4] == "t_34";
    }
  }

  /** The editor's squad form: every field may be missing. */
  datatype SquadDraft = SquadDraft(
    id: Option<string>, name: Option<string>, faction: Option<string>, cost: Option<int>,
    soldiers: Option<seq<Soldier>>, image: Option<string>, originalUrl: Option<string>)

  /** The editor's machine form: every field may be missing. */
  datatype MachineDraft = MachineDraft(
    id: Option<string>, name: Option<string>, faction: Option<string>, cost: Option<int>,
    rank: Option<int>, fireRate: Option<int>, ammoMax: Option<int>, durabilityMax: Option<int>,
    speedSectors: Option<seq<SpeedSector>>, weapons: Option<seq<Weapon>>,
    image: Option<string>, originalUrl: Option<string>)

  /** The forms as the editor opens them. */
  const EmptySquad := SquadDraft(Some(""), Some(""), Some(DefaultFaction), Some(0), Some([]), Some(""), Some(""))
  const EmptyMachine := MachineDraft(
    Some(""), Some(""), Some(DefaultFaction), Some(0), Some(2), Some(1), Some(0), Some(0),
    Some([]), Some([]), Some(""), Some(""))

  /** `text || fallback`: a missing or empty text gives the fallback. */
  function TextOr(o: Option<string>, fallback: string): (r: string)
    ensures o.Some? && o.value != "" ==> r == o.value
    ensures o.None? || o.value == "" ==> r == fallback
  {
    if o.Some? && o.value != "" then o.value else fallback
  }

  /** `number || fallback`: a missing or zero number gives the fallback. */
  function NumberOr(o: Option<int>, fallback: int): (r: int)
    ensures o.Some? && o.value != 0 ==> r == o.value
    ensures o.None? || o.value == 0 ==> r == fallback
  {
    if o.Some? && o.value != 0 then o.value else fallback
  }

  function ListOr<T>(o: Option<seq<T>>): seq<T>
  {
    if o.Some? then o.value else []
  }

  /** The id a save uses: the form's own when it has one, else one made
      from the name and the faction. */
  function SaveId(id: Option<string>, name: Option<string>, faction: Option<string>): (r: string)
    ensures id.Some? && id.value != "" ==> r == id.value
    ensures id.None? || id.value == "" ==>
              r == GenerateId(TextOr(name, ""), TextOr(faction, DefaultFaction))
    ensures r != ""
  {
    if id.Some? && id.value != "" then id.value
    else GenerateId(TextOr(name, ""), TextOr(faction, DefaultFaction))
  }

  /** The record `handleSaveSquad` sends. */
  function SavedSquad(d: SquadDraft): (r: Squad)
    ensures r.id == SaveId(d.id, d.name, d.faction) && r.id != ""
    ensures r.name == TextOr(d.name, "")
    ensures r.faction != "" && r.faction == TextOr(d.faction, DefaultFaction)
    ensures r.cost == NumberOr(d.cost, 0)
    ensures r.soldiers == ListOr(d.soldiers)
    ensures r.image == d.image && r.originalUrl == d.originalUrl
  {
    Squad(SaveId(d.id, d.name, d.faction), TextOr(d.name, ""), TextOr(d.faction, DefaultFaction),
          NumberOr(d.cost, 0), ListOr(d.soldiers), d.image, d.originalUrl)
  }

  /** The record `handleSaveMachine` sends: cost 0, rank 2, fire rate 1,
      ammo 0 and durability 0 stand in for missing or zero values. */
  function SavedMachine(d: MachineDraft): (r: Machine)
    ensures r.id == SaveId(d.id, d.name, d.faction) && r.id != ""
    ensures r.name == TextOr(d.name, "")
    ensures r.faction != "" && r.faction == TextOr(d.faction, DefaultFaction)
    ensures r.cost == NumberOr(d.cost, 0) && r.rank == NumberOr(d.rank, 2)
    ensures r.fireRate == NumberOr(d.fireRate, 1)
    ensures r.ammoMax == NumberOr(d.ammoMax, 0) && r.durabilityMax == NumberOr(d.durabilityMax, 0)
    ensures r.rank != 0 && r.fireRate != 0
    ensures r.speedSectors == ListOr(d.speedSectors) && r.weapons == ListOr(d.weapons)
    ensures r.image == d.image && r.originalUrl == d.originalUrl
  {
    Machine(SaveId(d.id, d.name, d.faction), TextOr(d.name, ""), TextOr(d.faction, DefaultFaction),
            NumberOr(d.cost, 0), NumberOr(d.rank, 2), NumberOr(d.fireRate, 1),
            NumberOr(d.ammoMax, 0), NumberOr(d.durabilityMax, 0),
            ListOr(d.speedSectors), ListOr(d.weapons), d.image, d.originalUrl)
  }

  /** The save button of the squad form is enabled: not saving, a name, a
      faction and at least one soldier. */
  predicate CanSaveSquad(d: SquadDraft, saving: bool)
  {
    !saving && TextOr(d.name, "") != "" && TextOr(d.faction, "") != "" && |ListOr(d.soldiers)| > 0
  }

  /** The save button of the machine form is enabled: not saving, a name
      and a faction. */
  predicate CanSaveMachine(d: MachineDraft, saving: bool)
  {
    !saving && TextOr(d.name, "") != "" && TextOr(d.faction, "") != ""
  }

  /** The add-soldier button is enabled below six soldiers. */
  predicate CanAddSoldier(d: SquadDraft)
  {
    |ListOr(d.soldiers)| < MaxSoldiers
  }

  /** A squad the form lets one save passes the store's check; a saved
      squad without a name or soldiers is refused by it. */
  lemma SavedSquadAccepted(d: SquadDraft, saving: bool)
    ensures CanSaveSquad(d, saving) ==> !ArmlistRoutes.MissingRequired(ArmlistRoutes.SquadRecord(SavedSquad(d)))
    ensures ArmlistRoutes.MissingRequired(ArmlistRoutes.SquadRecord(SavedSquad(d))) <==>
              TextOr(d.name, "") == "" || |ListOr(d.soldiers)| == 0
  {
  }

  /** A machine the form lets one save passes the store's check; without a
      name it is refused. */
  lemma SavedMachineAccepted(d: MachineDraft, saving: bool)
    ensures CanSaveMachine(d, saving) ==> !ArmlistRoutes.MissingRequired(ArmlistRoutes.MachineRecord(SavedMachine(d)))
    ensures ArmlistRoutes.MissingRequired(ArmlistRoutes.MachineRecord(SavedMachine(d))) <==> TextOr(d.name, "") == ""
  {
  }

  /** `filter((_, i) => i !== index)`: the list without its element at
      `index`; an index outside the list removes nothing. */
  function RemoveAt<T>(s: seq<T>, index: int): (r: seq<T>)
    ensures 0 <= index < |s| ==> |r| == |s| - 1
    ensures !(0 <= index < |s|) ==> r == s
    ensures forall j :: 0 <= j < |r| && j < index ==> r[j] == s[j]
    ensures forall j :: 0 <= index <= j < |r| ==> r[j] == s[j + 1]
  {
    if s == [] then []
    else
      var rest := RemoveAt(s[1..], index - 1);
      assert forall j :: 0 <= j < |s| - 1 ==> s[1..][j] == s[j + 1];
      (if index == 0 then [] else [s[0]]) + rest
  }

  /** Removing the element just added restores the list. */
  lemma RemoveLastAdded<T>(s: seq<T>, x: T)
    ensures RemoveAt(s + [x], |s|) == s
  {
  }

  /** The soldier `addSoldier` appends. */
  const NewSoldier := Soldier(2, 4, "D6", "1D6", 0, [], 2, None)

  /** The weapon `addWeapon` appends. */
  const NewWeapon := Weapon("", "", "", None)

  /** The sector `addSpeedSector` appends. */
  const NewSpeedSector := SpeedSector(1, 0, 1)

  /** One field of a soldier and the value written into it. */
  datatype SoldierEdit =
    | RankEdit(rank: int) | SpeedEdit(speed: int) | RangeEdit(range: string) | PowerEdit(power: string)
    | MeleeEdit(melee: int) | ArmorEdit(armor: int) | ImageEdit(image: Option<string>)

  function EditSoldier(s: Soldier, e: SoldierEdit): Soldier
  {
    match e
    case RankEdit(v) => s.(rank := v)
    case SpeedEdit(v) => s.(speed := v)
    case RangeEdit(v) => s.(range := v)
    case PowerEdit(v) => s.(power := v)
    case MeleeEdit(v) => s.(melee := v)
    case ArmorEdit(v) => s.(armor := v)
    case ImageEdit(v) => s.(image := v)
  }

  /** An edit changes only its own field, which then holds the new value. */
  lemma EditSoldierChangesOneField(s: Soldier, e: SoldierEdit)
    ensures e.RankEdit? ==> EditSoldier(s, e) == s.(rank := e.rank)
    ensures e.SpeedEdit? ==> EditSoldier(s, e) == s.(speed := e.speed)
    ensures e.RangeEdit? ==> EditSoldier(s, e) == s.(range := e.range)
    ensures e.PowerEdit? ==> EditSoldier(s, e) == s.(power := e.power)
    ensures e.MeleeEdit? ==> EditSoldier(s, e) == s.(melee := e.melee)
    ensures e.ArmorEdit? ==> EditSoldier(s, e) == s.(armor := e.armor)
    ensures e.ImageEdit? ==> EditSoldier(s, e) == s.(image := e.image)
    ensures EditSoldier(s, e).props == s.props
  {
  }

  /** `addSoldierProp`'s list: the prop is added at the end unless the
      soldier already has it. */
  function WithProp(props: seq<string>, prop: string): (r: seq<string>)
    ensures prop in r
    ensures forall p :: p in r <==> p in props || p == prop
    ensures |r| == if prop in props then |props| else |props| + 1
    ensures r[..|props|] == props
  {
    if prop in props then props else props + [prop]
  }

  /** Adding props never creates a duplicate, and adding one twice is
      adding it once. */
  lemma WithPropKeepsDistinct(props: seq<string>, prop: string)
    requires forall i, j :: 0 <= i < j < |props| ==> props[i] != props[j]
    ensures var r := WithProp(props, prop); forall i, j :: 0 <= i < j < |r| ==> r[i] != r[j]
    ensures WithProp(WithProp(props, prop), prop) == WithProp(props, prop)
  {
  }

  /** The prop the input field submits: its trimmed text, when any is left. */
  function PropToAdd(text: string): (r: Option<string>)
    ensures r.None? <==> forall i :: 0 <= i < |text| ==> IsSpace(text[i])
    ensures r.Some? ==> r.value != [] && !IsSpace(r.value[0]) && !IsSpace(r.value[|r.value| - 1])
    ensures r.Some? ==> exists i :: OccursAt(text, r.value, i) && SpacesOutside(text, i, i + |r.value|)
  {
    var t := Trim(text);
    if t == "" then None else Some(t)
  }

  /** One text field of a weapon. */
  datatype WeaponField = NameField | RangeField | PowerField | SpecialField

  /** `updateWeapon`: the text goes into its field; a special that is blank
      after trimming is stored as no special. */
  function EditWeapon(w: Weapon, field: WeaponField, value: string): (r: Weapon)
    ensures field == SpecialField ==>
              r.special == (if Trim(value) == "" then None else Some(SpecialText(value)))
              && r.name == w.name && r.range == w.range && r.power == w.power
    ensures field == SpecialField && (forall i :: 0 <= i < |value| ==> IsSpace(value[i])) ==> r.special.None?
    ensures field != SpecialField ==> r.special == w.special
    ensures field == NameField ==> r.name == value
    ensures field == RangeField ==> r.range == value
    ensures field == PowerField ==> r.power == value
  {
    match field
    case NameField => w.(name := value)
    case RangeField => w.(range := value)
    case PowerField => w.(power := value)
    case SpecialField => w.(special := if Trim(value) == "" then None else Some(SpecialText(value)))
  }

  /** One number of a speed sector. */
  datatype SectorField = MinDurabilityField | MaxDurabilityField | SpeedField

  function EditSector(s: SpeedSector, field: SectorField, value: int): SpeedSector
  {
    match field
    case MinDurabilityField => s.(minDurability := value)
    case MaxDurabilityField => s.(maxDurability := value)
    case SpeedField => s.(speed := value)
  }

  /** The editor's two forms; each button replaces a form with an edited
      copy. */
  class Editor {
    var squadData: SquadDraft
    var machineData: MachineDraft

    constructor()
      ensures squadData == EmptySquad && machineData == EmptyMachine
    {
      squadData := EmptySquad;
      machineData := EmptyMachine;
    }

    function Soldiers(): seq<Soldier>
      reads this
    {
      ListOr(squadData.soldiers)
    }

    function Weapons(): seq<Weapon>
      reads this
    {
      ListOr(machineData.weapons)
    }

    function Sectors(): seq<SpeedSector>
      reads this
    {
      ListOr(machineData.speedSectors)
    }

    /** `addSoldier`: a default soldier joins at the end. */
    method AddSoldier()
      modifies this
      ensures squadData == old(squadData).(soldiers := Some(old(Soldiers()) + [NewSoldier]))
      ensures machineData == old(machineData)
    {
      var soldiers := Soldiers();
      squadData := squadData.(soldiers := Some(soldiers + [NewSoldier]));
    }

    /** `removeSoldier`: the soldier at `index` goes. */
    method RemoveSoldier(index: int)
      modifies this
      ensures squadData == old(squadData).(soldiers := Some(RemoveAt(old(Soldiers()), index)))
      ensures machineData == old(machineData)
    {
      var soldiers := Soldiers();
      squadData := squadData.(soldiers := Some(RemoveAt(soldiers, index)));
    }

    /** `updateSoldier`: one field of one soldier is overwritten. */
    method UpdateSoldier(index: nat, e: SoldierEdit)
      requires index < |Soldiers()|
      modifies this
      ensures |Soldiers()| == |old(Soldiers())|
      ensures Soldiers()[index] == EditSoldier(old(Soldiers())[index], e)
      ensures forall j :: 0 <= j < |Soldiers()| && j != index ==> Soldiers()[j] == old(Soldiers())[j]
      ensures squadData.(soldiers := old(squadData).soldiers) == old(squadData)
      ensures machineData == old(machineData)
    {
      var updated := Soldiers();
      updated := updated[index := EditSoldier(updated[index], e)];
      squadData := squadData.(soldiers := Some(updated));
    }

    /** `addSoldierProp`: the prop joins the soldier's props unless the
        soldier already has it, in which case the form is left alone. */
    method AddSoldierProp(soldierIndex: nat, prop: string)
      requires soldierIndex < |Soldiers()|
      modifies this
      ensures prop in old(Soldiers())[soldierIndex].props ==> squadData == old(squadData)
      ensures |Soldiers()| == |old(Soldiers())|
      ensures Soldiers()[soldierIndex] ==
                old(Soldiers())[soldierIndex].(props := WithProp(old(Soldiers())[soldierIndex].props, prop))
      ensures forall j :: 0 <= j < |Soldiers()| && j != soldierIndex ==> Soldiers()[j] == old(Soldiers())[j]
      ensures squadData.(soldiers := old(squadData).soldiers) == old(squadData)
      ensures machineData == old(machineData)
    {
      var updated := Soldiers();
      var props := updated[soldierIndex].props;
      if prop !in props {
        updated := updated[soldierIndex := updated[soldierIndex].(props := props + [prop])];
        squadData := squadData.(soldiers := Some(updated));
      }
    }

    /** `removeSoldierProp`: the prop at `propIndex` goes from one soldier. */
    method RemoveSoldierProp(soldierIndex: nat, propIndex: int)
      requires soldierIndex < |Soldiers()|
      modifies this
      ensures |Soldiers()| == |old(Soldiers())|
      ensures Soldiers()[soldierIndex] ==
                old(Soldiers())[soldierIndex].(props := RemoveAt(old(Soldiers())[soldierIndex].props, propIndex))
      ensures forall j :: 0 <= j < |Soldiers()| && j != soldierIndex ==> Soldiers()[j] == old(Soldiers())[j]
      ensures squadData.(soldiers := old(squadData).soldiers) == old(squadData)
      ensures machineData == old(machineData)
    {
      var updated := Soldiers();
      var props := RemoveAt(updated[soldierIndex].props, propIndex);
      updated := updated[soldierIndex := updated[soldierIndex].(props := props)];
      squadData := squadData.(soldiers := Some(updated));
    }

    /** `addWeapon`: a blank weapon joins at the end. */
    method AddWeapon()
      modifies this
      ensures machineData == old(machineData).(weapons := Some(old(Weapons()) + [NewWeapon]))
      ensures squadData == old(squadData)
    {
      var weapons := Weapons();
      machineData := machineData.(weapons := Some(weapons + [NewWeapon]));
    }

    /** `removeWeapon`: the weapon at `index` goes. */
    method RemoveWeapon(index: int)
      modifies this
      ensures machineData == old(machineData).(weapons := Some(RemoveAt(old(Weapons()), index)))
      ensures squadData == old(squadData)
    {
      var weapons := Weapons();
      machineData := machineData.(weapons := Some(RemoveAt(weapons, index)));
    }

    /** `updateWeapon`: one text field of one weapon is overwritten. */
    method UpdateWeapon(index: nat, field: WeaponField, value: string)
      requires index < |Weapons()|
      modifies this
      ensures |Weapons()| == |old(Weapons())|
      ensures Weapons()[index] == EditWeapon(old(Weapons())[index], field, value)
      ensures forall j :: 0 <= j < |Weapons()| && j != index ==> Weapons()[j] == old(Weapons())[j]
      ensures machineData.(weapons := old(machineData).weapons) == old(machineData)
      ensures squadData == old(squadData)
    {
      var updated := Weapons();
      updated := updated[index := EditWeapon(updated[index], field, value)];
      machineData := machineData.(weapons := Some(updated));
    }

    /** `addSpeedSector`: the sector 1..0 at speed 1 joins at the end. */
    method AddSpeedSector()
      modifies this
      ensures machineData == old(machineData).(speedSectors := Some(old(Sectors()) + [NewSpeedSector]))
      ensures squadData == old(squadData)
    {
      var sectors := Sectors();
      machineData := machineData.(speedSectors := Some(sectors + [NewSpeedSector]));
    }

    /** `removeSpeedSector`: the sector at `index` goes. */
    method RemoveSpeedSector(index: int)
      modifies this
      ensures machineData == old(machineData).(speedSectors := Some(RemoveAt(old(Sectors()), index)))
      ensures squadData == old(squadData)
    {
      var sectors := Sectors();
      machineData := machineData.(speedSectors := Some(RemoveAt(sectors, index)));
    }

    /** `updateSpeedSector`: one number of one sector is overwritten. */
    method UpdateSpeedSector(index: nat, field: SectorField, value: int)
      requires index < |Sectors()|
      modifies this
      ensures |Sectors()| == |old(Sectors())|
      ensures Sectors()[index] == EditSector(old(Sectors())[index], field, value)
      ensures forall j :: 0 <= j < |Sectors()| && j != index ==> Sectors()[j] == old(Sectors())[j]
      ensures machineData.(speedSectors := old(machineData).speedSectors) == old(machineData)
      ensures squadData == old(squadData)
    {
      var updated := Sectors();
      updated := updated[index := EditSector(updated[index], field, value)];
      machineData := machineData.(speedSectors := Some(updated));
    }
  }
}
