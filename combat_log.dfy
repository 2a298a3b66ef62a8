/** The combat history panel: the entries newest first, the label of each
    kind of attack and the one-line summary of each result. */
module CombatLog {
  import opened Strings
  import opened Types
  import opened GameLogic
  import opened CombatFlow
  import opened CombatFlowController

  /** Puts an entry into a newest-first list before the first entry that
      is not newer, so that it stays ahead of entries of the same time. */
  function InsertByTime(e: LogEntry, sorted: seq<LogEntry>): (r: seq<LogEntry>)
    requires NewestFirst(sorted)
    ensures NewestFirst(r)
    ensures multiset(r) == multiset(sorted) + multiset{e}
    ensures |r| == |sorted| + 1
    ensures r[0] == e || (|sorted| > 0 && r[0] == sorted[0])
  {
    if sorted == [] || sorted[0].timestamp <= e.timestamp then
      PrependKeepsNewestFirst(sorted, e);
      [e] + sorted
    else
      TailNewestFirst(sorted);
      var rest := InsertByTime(e, sorted[1..]);
      InsertBehindFirst(e, sorted, rest);
      [sorted[0]] + rest
  }

  /** The step of `InsertByTime` that keeps the newest entry in front of
      the insertion into the others. */
  lemma InsertBehindFirst(e: LogEntry, sorted: seq<LogEntry>, rest: seq<LogEntry>)
    requires sorted != [] && sorted[0].timestamp > e.timestamp
    requires NewestFirst(rest)
    requires multiset(rest) == multiset(sorted[1..]) + multiset{e}
    requires |rest| == |sorted|
    requires rest[0] == e || (|sorted| > 1 && rest[0] == sorted[1])
    requires NewestFirst(sorted)
    ensures NewestFirst([sorted[0]] + rest)
    ensures multiset([sorted[0]] + rest) == multiset(sorted) + multiset{e}
  {
    assert rest[0].timestamp <= sorted[0].timestamp by {
      if rest[0] != e {
        assert 0 < 1 < |sorted|;
      }
    }
    PrependKeepsNewestFirst(rest, sorted[0]);
    assert sorted == [sorted[0]] + sorted[1..];
  }

  /** Dropping the newest entry keeps the rest newest first. */
  lemma TailNewestFirst(log: seq<LogEntry>)
    requires NewestFirst(log) && log != []
    ensures NewestFirst(log[1..])
  {
    var tail := log[1..];
    forall i, j | 0 <= i < j < |tail| ensures tail[i].timestamp >= tail[j].timestamp {
      assert tail[i] == log[i + 1] && tail[j] == log[j + 1];
    }
  }

  /** `sortedEntries`: a newest-first copy of the entries; entries of the
      same time keep their order (the sort is stable). */
  function SortNewestFirst(entries: seq<LogEntry>): (r: seq<LogEntry>)
    ensures NewestFirst(r)
    ensures multiset(r) == multiset(entries)
    ensures |r| == |entries|
  {
    if entries == [] then []
    else
      assert entries == [entries[0]] + entries[1..];
      InsertByTime(entries[0], SortNewestFirst(entries[1..]))
  }

  /** The entries of time `t`, in their order. */
  function AtTime(log: seq<LogEntry>, t: int): seq<LogEntry>
  {
    if log == [] then []
    else (if log[0].timestamp == t then [log[0]] else []) + AtTime(log[1..], t)
  }

  /** The inserted entry goes ahead of every entry of its own time and
      leaves the order of each time's entries alone. */
  lemma {:induction false} InsertByTimeStable(e: LogEntry, sorted: seq<LogEntry>, t: int)
    requires NewestFirst(sorted)
    ensures AtTime(InsertByTime(e, sorted), t)
            == (if e.timestamp == t then [e] else []) + AtTime(sorted, t)
  {
    if sorted == [] || sorted[0].timestamp <= e.timestamp {
      assert ([e] + sorted)[1..] == sorted;
    } else {
      TailNewestFirst(sorted);
      var rest := InsertByTime(e, sorted[1..]);
      InsertByTimeStable(e, sorted[1..], t);
      assert ([sorted[0]] + rest)[1..] == rest;
      assert e.timestamp == t ==> sorted[0].timestamp != t;
    }
  }

  /** The sort is stable: the entries of each time come out in the order
      they went in. */
  lemma {:induction false} SortStable(entries: seq<LogEntry>, t: int)
    ensures AtTime(SortNewestFirst(entries), t) == AtTime(entries, t)
  {
    if entries != [] {
      SortStable(entries[1..], t);
      InsertByTimeStable(entries[0], SortNewestFirst(entries[1..]), t);
    }
  }

  /** Entries already newest first are left as they are, so the order of
      entries with the same time is kept. */
  lemma {:induction false} SortSortedUnchanged(entries: seq<LogEntry>)
    requires NewestFirst(entries)
    ensures SortNewestFirst(entries) == entries
  {
    if entries != [] {
      var tail := entries[1..];
      TailNewestFirst(entries);
      SortSortedUnchanged(tail);
      if tail != [] {
        assert entries[0].timestamp >= entries[1].timestamp;
      }
      assert [entries[0]] + tail == entries;
    }
  }

  /** Sorting twice is sorting once. */
  lemma SortIdempotent(entries: seq<LogEntry>)
    ensures SortNewestFirst(SortNewestFirst(entries)) == SortNewestFirst(entries)
  {
    SortSortedUnchanged(SortNewestFirst(entries));
  }

  /** The kind of attack as the log stores it. */
  function ActionTypeName(t: ActionType): string
  {
    match t
    case Shot => "shot"
    case MeleeAction => "melee"
    case Grenade => "grenade"
  }

  const ShotLabel := "Выстрел"
  const MeleeLabel := "Ближний бой"
  const GrenadeLabel := "Граната"

  /** `getActionLabel`: the Russian label of a known kind; any other text
      is shown as it is. */
  function GetActionLabel(actionType: string): (shown: string)
    ensures actionType == "shot" ==> shown == ShotLabel
    ensures actionType == "melee" ==> shown == MeleeLabel
    ensures actionType == "grenade" ==> shown == GrenadeLabel
    ensures actionType !in {"shot", "melee", "grenade"} ==> shown == actionType
  {
    if actionType == "shot" then ShotLabel
    else if actionType == "melee" then MeleeLabel
    else if actionType == "grenade" then GrenadeLabel
    else actionType
  }

  /** The three kinds get three different labels, none of them a stored
      name. */
  lemma ActionLabelsDistinct(t: ActionType, u: ActionType)
    ensures GetActionLabel(ActionTypeName(t)) in {ShotLabel, MeleeLabel, GrenadeLabel}
    ensures GetActionLabel(ActionTypeName(t)) == GetActionLabel(ActionTypeName(u)) <==> t == u
    ensures GetActionLabel(ActionTypeName(t)) != ActionTypeName(u)
  {
  }

  const VictorySummary := "Победа"
  const CounterSummary := "Контратака"
  const DrawSummary := "Ничья"
  const MissSummary := "Промах"
  const BlockedSummary := "Не пробито"
  const DoneSummary := "Завершено"

  /** The word after a damage figure: hit points of a machine, wounds of
      anything else. */
  function DamageUnit(k: UnitKind): string
  {
    if k == MachineKind then " HP" else " ранений"
  }

  /** `getResultSummary`. */
  function GetResultSummary(result: CombatResult): (s: string)
    ensures result.actionType == MeleeAction && result.meleeResult.Some? ==>
              s == match result.meleeResult.value.winner
                   case Attacker => VictorySummary
                   case Defender => CounterSummary
                   case Draw => DrawSummary
    ensures !(result.actionType == MeleeAction && result.meleeResult.Some?) && result.hitResult.Some? ==>
              && (!result.hitResult.value.success ==> s == MissSummary)
              && ((result.hitResult.value.success && result.damageResult.Some?
                   && result.damageResult.value.damage == 0) ==> s == BlockedSummary)
              && (result.hitResult.value.success && result.damageResult.None? ==> s == DoneSummary)
    ensures !(result.actionType == MeleeAction && result.meleeResult.Some?) && result.hitResult.None? ==>
              s == DoneSummary
  {
    if result.actionType == MeleeAction && result.meleeResult.Some? then
      match result.meleeResult.value.winner
      case Attacker => VictorySummary
      case Defender => CounterSummary
      case Draw => DrawSummary
    else if result.hitResult.Some? then
      if !result.hitResult.value.success then MissSummary
      else if result.damageResult.Some? then
        var dmg := result.damageResult.value.damage;
        if dmg == 0 then BlockedSummary
        else "-" + IntToString(dmg) + DamageUnit(result.unitType)
      else DoneSummary
    else DoneSummary
  }

  /** A hit that did damage is summarised by minus the damage, which
      `parseInt` reads back, followed by the unit's word. */
  lemma DamageSummaryReadsBack(result: CombatResult)
    requires result.actionType != MeleeAction || result.meleeResult.None?
    requires result.hitResult.Some? && result.hitResult.value.success
    requires result.damageResult.Some? && result.damageResult.value.damage > 0
    ensures var s := GetResultSummary(result);
            var d := result.damageResult.value.damage;
            && s == "-" + NatToString(d) + DamageUnit(result.unitType)
            && ParseDecimal(s) == Some(-(d as int))
  {
    var d := result.damageResult.value.damage;
    ParseNegativeWithSuffix(d, DamageUnit(result.unitType));
  }

  /** `parseInt` of a minus, a number and text starting with a space. */
  lemma ParseNegativeWithSuffix(n: nat, suffix: string)
    requires |suffix| > 0 && suffix[0] == ' '
    ensures ParseDecimal("-" + NatToString(n) + suffix) == Some(-(n as int))
  {
    var digits := NatToString(n);
    var s := "-" + digits + suffix;
    assert s[0] == '-' && !IsSpace(s[0]);
    assert SpaceRun(s, 0) == 0;
    assert NumberStart(s) == (1, true);
    assert s[1..1 + |digits|] == digits;
    assert s[1 + |digits|] == ' ';
    DigitRunIs(s, 1, digits);
  }

  /** The log's summary and the game logic's result text agree on a miss
      and on a result with no hit, and both call a defender's win a
      counter-attack. */
  lemma SummaryAgreesWithFormat(result: CombatResult, hit: Option<BaseHit>)
    requires hit.Some? <==> result.hitResult.Some?
    requires hit.Some? ==> hit.value.success == result.hitResult.value.success
    ensures !(result.actionType == MeleeAction && result.meleeResult.Some?) && result.hitResult.Some?
            && !result.hitResult.value.success ==>
              GetResultSummary(result) == MissSummary
              == FormatCombatResult(result.actionType, hit, None, result.meleeResult)
    ensures !(result.actionType == MeleeAction && result.meleeResult.Some?) && result.hitResult.None? ==>
              GetResultSummary(result) == DoneSummary
              == FormatCombatResult(result.actionType, hit, None, result.meleeResult)
    ensures result.actionType == MeleeAction && result.meleeResult.Some?
            && result.meleeResult.value.winner == Defender ==>
              GetResultSummary(result) == CounterSummary
              == FormatCombatResult(result.actionType, hit, None, result.meleeResult)
  {
  }
}
