/** The combat controller: the combat flow hook together with the history of
    resolved attacks, newest first. */
module CombatFlowController {
  import opened Strings
  import opened CombatFlow

  datatype LogEntry = LogEntry(id: string, timestamp: int, result: CombatResult, applied: bool)

  /** The entry recorded for a result: its id is the unit id, the
      timestamp and a random suffix joined by '-'. */
  function EntryFor(result: CombatResult, applied: bool, suffix: string): (e: LogEntry)
    ensures e.timestamp == result.timestamp && e.result == result && e.applied == applied
    ensures |e.id| > |result.unitId| && e.id[..|result.unitId| + 1] == result.unitId + "-"
  {
    var id := result.unitId + "-" + IntToString(result.timestamp) + "-" + suffix;
    assert id[..|result.unitId| + 1] == result.unitId + "-";
    LogEntry(id, result.timestamp, result, applied)
  }

  /** The log lists later attacks before earlier ones. */
  predicate NewestFirst(log: seq<LogEntry>)
  {
    forall i, j :: 0 <= i < j < |log| ==> log[i].timestamp >= log[j].timestamp
  }

  /** Prepending a result no older than the newest entry keeps the log in
      newest-first order. */
  lemma PrependKeepsNewestFirst(log: seq<LogEntry>, e: LogEntry)
    requires NewestFirst(log)
    requires |log| > 0 ==> e.timestamp >= log[0].timestamp
    ensures NewestFirst([e] + log)
  {
    var l := [e] + log;
    forall i, j | 0 <= i < j < |l| ensures l[i].timestamp >= l[j].timestamp {
      if i == 0 {
        assert l[j] == log[j - 1];
        assert log[0].timestamp >= log[j - 1].timestamp || j - 1 == 0;
      } else {
        assert l[i] == log[i - 1] && l[j] == log[j - 1];
      }
    }
  }

  /** `useCombatFlowController`: the flow hook, unchanged, and the log. */
  class Controller {
    const flow: CombatFlowHook
    var log: seq<LogEntry>

    constructor()
      ensures fresh(flow) && flow.state == Initial && log == []
    {
      flow := new CombatFlowHook();
      log := [];
    }

    /** `addToCombatLog`: the new entry goes in front of the earlier ones. */
    method AddToCombatLog(result: CombatResult, applied: Option<bool>, suffix: string)
      modifies this
      ensures log == [EntryFor(result, if applied.Some? then applied.value else false, suffix)] + old(log)
      ensures |log| == |old(log)| + 1 && log[1..] == old(log)
      ensures log[0].timestamp == result.timestamp
      ensures applied.None? ==> !log[0].applied
      ensures NewestFirst(old(log)) && (|old(log)| > 0 ==> result.timestamp >= old(log)[0].timestamp)
              ==> NewestFirst(log)
    {
      var entry := EntryFor(result, if applied.Some? then applied.value else false, suffix);
      if NewestFirst(log) && (|log| > 0 ==> result.timestamp >= log[0].timestamp) {
        PrependKeepsNewestFirst(log, entry);
      }
      log := [entry] + log;
    }

    /** `clearCombatLog`. */
    method ClearCombatLog()
      modifies this
      ensures log == []
    {
      log := [];
    }
  }
}
