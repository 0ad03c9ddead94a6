/**
 * What a lawful log says about tool calls: every call that started has ended before its turn's
 * results are reported, and a call executes only while nothing it must wait for is unfinished.
 */
module ToolHistory {
  import opened Wrappers
  import opened AgentProtocol
  import opened ToolScheduling
  import opened AgentHistory

  /** Positions of calls with a tool_execution_start and no tool_execution_end yet. */
  function OpenCalls(log: seq<Entry>): set<nat> {
    if log == [] then {}
    else
      match Last(log)
      case ToolStart(k, _) => OpenCalls(Front(log)) + {k}
      case ToolEnd(k, _, _) => OpenCalls(Front(log)) - {k}
      case _ => OpenCalls(Front(log))
  }

  /** The ids a listener tracks, as `processEvents` does; the end of a run forgets them. */
  function PendingIds(log: seq<Entry>): set<nat> {
    if log == [] then {}
    else
      match Last(log)
      case ToolStart(_, id) => PendingIds(Front(log)) + {id}
      case ToolEnd(_, id, _) => PendingIds(Front(log)) - {id}
      case Finished => {}
      case _ => PendingIds(Front(log))
  }

  /** Calls of the current batch that have begun to execute. */
  function Begun(log: seq<Entry>): set<nat> {
    if log == [] || Last(log).BatchBegun? then {}
    else if Last(log).Executing? then Begun(Front(log)) + {Last(log).k}
    else Begun(Front(log))
  }

  /** How many calls of the current batch have started. */
  function Launched(log: seq<Entry>): nat {
    if log == [] || Last(log).BatchBegun? then 0
    else Launched(Front(log)) + if Last(log).ToolStart? then 1 else 0
  }

  /** Calls of the current batch that have passed preflight. */
  function Cleared(log: seq<Entry>): set<nat> {
    if log == [] || Last(log).BatchBegun? then {}
    else if Last(log).Admitted? then Cleared(Front(log)) + {Last(log).k}
    else Cleared(Front(log))
  }

  /** Which scheduled calls of the current batch are sequential. */
  function Flags(log: seq<Entry>): seq<bool> {
    if log == [] || Last(log).BatchBegun? then []
    else if Last(log).Scheduled? then Flags(Front(log)) + [Last(log).sequential]
    else Flags(Front(log))
  }

  function Mode(log: seq<Entry>): Option<BatchMode> {
    if log == [] then None else if Last(log).BatchBegun? then Some(Last(log).mode) else Mode(Front(log))
  }

  ghost predicate ToolsAgree(m: Monitor, log: seq<Entry>) {
    BatchAgrees(m.turn.batch, log) && m.totals.pending == PendingIds(log)
  }

  ghost predicate BatchAgrees(b: Batch, log: seq<Entry>) {
    && b.running == OpenCalls(log)
    && (b.mode.Some? ==>
          && b.started == Launched(log) && b.admitted == Cleared(log) && b.executed == Begun(log)
          && b.flags == Flags(log) && b.mode == Mode(log))
  }

  /** While a call executes, every other unfinished call may run beside it. */
  ghost predicate Exclusive(b: Batch) {
    if b.mode == Some(Parallel) then
      && (forall j <- b.executed :: j < |b.flags|)
      && forall i, j | i in b.running && j in b.running && j in b.executed && i < j :: !Barrier(b.flags, i, j)
    else forall k <- b.running :: b.started == k + 1 && |b.results| == k
  }

  ghost predicate Tracked(m: Monitor) {
    && (m.turn.batch.mode == None ==> m.turn.batch == NO_BATCH)
    && (m.turn.batch.running != {} ==> m.stage == Answering)
    && (forall k <- m.turn.batch.running :: k < m.turn.batch.started <= |Calls(m.turn)|)
    && |m.turn.batch.flags| <= m.turn.batch.started
    && (m.stage.Reporting? ==> m.turn.batch.mode.Some?)
  }

  /** Every pending id is the id of an open call. */
  ghost predicate IdsTracked(m: Monitor) {
    forall id <- m.totals.pending :: exists k <- m.turn.batch.running :: HasId(m.turn, k, id)
  }

  predicate HasId(t: Turn, k: nat, id: nat) {
    k < |Calls(t)| && Calls(t)[k].id == id
  }

  lemma ToolsStep(m: Monitor, log: seq<Entry>, e: Entry, n: Monitor)
    requires ToolsAgree(m, log) && Tracked(m) && Leads(m, e, n)
    ensures ToolsAgree(n, log + [e])
  {
    if OfTools(e) {
      ToolsMove(m, log, e, n);
    } else {
      ToolsRest(m, log, e, n);
    }
  }

  lemma ToolsMove(m: Monitor, log: seq<Entry>, e: Entry, n: Monitor)
    requires ToolsAgree(m, log) && Tracked(m) && Leads(m, e, n) && OfTools(e)
    ensures ToolsAgree(n, log + [e])
  {
    BatchMoves(m, e, n);
    BatchMove(m.turn.batch, m.stage, log, e);
    PendingMove(m.totals, m.stage, log, e);
  }

  lemma BatchMoves(m: Monitor, e: Entry, n: Monitor)
    requires Tracked(m) && Leads(m, e, n) && OfTools(e)
    ensures n.turn == m.turn.(batch := NextBatch(m.turn.batch, m.stage, e)) && n.totals == NextTotals(m.totals, m.stage, e)
    ensures e.BatchBegun? ==> m.turn.batch == NO_BATCH
  {
    assert Stepped(0);
  }

  lemma BatchMove(b: Batch, s: Stage, log: seq<Entry>, e: Entry)
    requires BatchAgrees(b, log) && OfTools(e) && (e.BatchBegun? ==> b == NO_BATCH)
    ensures BatchAgrees(NextBatch(b, s, e), log + [e])
  {
    OpenMove(log, e);
    LaunchedMove(log, e);
    ClearedMove(log, e);
    BegunMove(log, e);
    FlagsMove(log, e);
    ModeMove(log, e);
  }

  lemma OpenMove(log: seq<Entry>, e: Entry)
    ensures OpenCalls(log + [e])
      == if e.ToolStart? then OpenCalls(log) + {e.k} else if e.ToolEnd? then OpenCalls(log) - {e.k} else OpenCalls(log)
  {
    assert Front(log + [e]) == log && Last(log + [e]) == e;
  }

  lemma LaunchedMove(log: seq<Entry>, e: Entry)
    ensures Launched(log + [e]) == if e.BatchBegun? then 0 else if e.ToolStart? then Launched(log) + 1 else Launched(log)
  {
    assert Front(log + [e]) == log && Last(log + [e]) == e;
  }

  lemma ClearedMove(log: seq<Entry>, e: Entry)
    ensures Cleared(log + [e]) == if e.BatchBegun? then {} else if e.Admitted? then Cleared(log) + {e.k} else Cleared(log)
  {
    assert Front(log + [e]) == log && Last(log + [e]) == e;
  }

  lemma BegunMove(log: seq<Entry>, e: Entry)
    ensures Begun(log + [e]) == if e.BatchBegun? then {} else if e.Executing? then Begun(log) + {e.k} else Begun(log)
  {
    assert Front(log + [e]) == log && Last(log + [e]) == e;
  }

  lemma FlagsMove(log: seq<Entry>, e: Entry)
    ensures Flags(log + [e]) == if e.BatchBegun? then [] else if e.Scheduled? then Flags(log) + [e.sequential] else Flags(log)
  {
    assert Front(log + [e]) == log && Last(log + [e]) == e;
  }

  lemma ModeMove(log: seq<Entry>, e: Entry)
    ensures Mode(log + [e]) == if e.BatchBegun? then Some(e.mode) else Mode(log)
  {
    assert Front(log + [e]) == log && Last(log + [e]) == e;
  }

  lemma PendingMove(t: Totals, s: Stage, log: seq<Entry>, e: Entry)
    requires t.pending == PendingIds(log)
    ensures NextTotals(t, s, e).pending == PendingIds(log + [e])
  {
    PendingGain(log, e);
    PendingNext(t, s, e);
  }

  function PendingAfter(pending: set<nat>, e: Entry): set<nat> {
    match e
    case ToolStart(_, id) => pending + {id}
    case ToolEnd(_, id, _) => pending - {id}
    case Finished => {}
    case _ => pending
  }

  lemma PendingGain(log: seq<Entry>, e: Entry)
    ensures PendingIds(log + [e]) == PendingAfter(PendingIds(log), e)
  {
    assert Front(log + [e]) == log && Last(log + [e]) == e;
  }

  lemma PendingNext(t: Totals, s: Stage, e: Entry)
    ensures NextTotals(t, s, e).pending == PendingAfter(t.pending, e)
  {
  }

  lemma ToolsRest(m: Monitor, log: seq<Entry>, e: Entry, n: Monitor)
    requires ToolsAgree(m, log) && Tracked(m) && Leads(m, e, n) && !OfTools(e)
    ensures ToolsAgree(n, log + [e])
  {
    BatchRests(m, e, n);
    PendingMove(m.totals, m.stage, log, e);
    OpenMove(log, e);
    LaunchedMove(log, e);
    ClearedMove(log, e);
    BegunMove(log, e);
    FlagsMove(log, e);
    ModeMove(log, e);
  }

  /** Other entries leave a batch's calls alone, or put an end to it when none is open. */
  lemma BatchRests(m: Monitor, e: Entry, n: Monitor)
    requires Tracked(m) && Leads(m, e, n) && !OfTools(e)
    ensures n.totals == NextTotals(m.totals, m.stage, e)
    ensures var b, c := m.turn.batch, n.turn.batch;
      && c.running == b.running
      && (c.mode.Some? ==> c.started == b.started && c.admitted == b.admitted && c.executed == b.executed && c.flags == b.flags && c.mode == b.mode)
  {
    if e.MessageEnd? || e.TurnStart? {
      NothingRuns(m, e, n);
    }
    RestBatch(m, e, n);
  }

  lemma RestBatch(m: Monitor, e: Entry, n: Monitor)
    requires Leads(m, e, n) && !OfTools(e)
    ensures n.totals == NextTotals(m.totals, m.stage, e)
    ensures n.turn.batch
      == if e.TurnStart? then NO_BATCH
         else if e.MessageEnd? && m.stage.Streaming? then NO_BATCH
         else if e.MessageEnd? && m.stage.Reporting? then m.turn.batch.(results := m.turn.batch.results + [e.message])
         else m.turn.batch
  {
    assert Stepped(0);
  }

  lemma NothingRuns(m: Monitor, e: Entry, n: Monitor)
    requires Tracked(m) && Leads(m, e, n) && (e.MessageEnd? || e.TurnStart?)
    ensures m.turn.batch.running == {}
  {
    assert Stepped(0);
  }

  lemma ExclusiveStep(m: Monitor, e: Entry, n: Monitor)
    requires Exclusive(m.turn.batch) && Tracked(m) && Leads(m, e, n)
    ensures Exclusive(n.turn.batch)
  {
    if OfTools(e) {
      ExclusiveTool(m, e, n);
    } else {
      ExclusiveRest(m, e, n);
    }
  }

  lemma ExclusiveTool(m: Monitor, e: Entry, n: Monitor)
    requires Exclusive(m.turn.batch) && Tracked(m) && Leads(m, e, n) && OfTools(e)
    ensures Exclusive(n.turn.batch)
  {
    if e.Scheduled? || e.Executing? {
      ExclusiveMove(m, e, n);
    } else {
      ExclusiveBound(m, e, n);
    }
  }

  lemma ExclusiveMove(m: Monitor, e: Entry, n: Monitor)
    requires Exclusive(m.turn.batch) && Tracked(m) && Leads(m, e, n) && (e.Scheduled? || e.Executing?)
    ensures Exclusive(n.turn.batch)
  {
    assert Stepped(0);
    if e.Scheduled? {
      ScheduledExclusive(m.turn.batch, e.sequential);
    } else {
      ExecutingExclusive(m.turn, e.k);
    }
  }

  lemma ExclusiveBound(m: Monitor, e: Entry, n: Monitor)
    requires Exclusive(m.turn.batch) && Tracked(m) && Leads(m, e, n) && OfTools(e) && !e.Scheduled? && !e.Executing?
    ensures Exclusive(n.turn.batch)
  {
    BatchMoves(m, e, n);
    if e.ToolStart? {
      StartAlone(m, e, n);
    }
  }

  /** A call starts as the next one, and outside a parallel batch when all before it have results. */
  lemma StartAlone(m: Monitor, e: Entry, n: Monitor)
    requires Tracked(m) && Leads(m, e, n) && e.ToolStart?
    ensures var b := m.turn.batch;
      && n.turn.batch == b.(started := b.started + 1, running := b.running + {b.started})
      && (b.mode != Some(Parallel) ==> |b.results| == b.started)
  {
    assert Stepped(0);
  }

  lemma ExclusiveRest(m: Monitor, e: Entry, n: Monitor)
    requires Exclusive(m.turn.batch) && Tracked(m) && Leads(m, e, n) && !OfTools(e)
    ensures Exclusive(n.turn.batch)
  {
    BatchRests(m, e, n);
    ResultsRest(m, e, n);
  }

  lemma ResultsRest(m: Monitor, e: Entry, n: Monitor)
    requires Tracked(m) && Leads(m, e, n) && !OfTools(e)
    ensures m.turn.batch.running == {} || n.turn.batch == m.turn.batch
  {
    assert Stepped(0);
  }

  lemma ScheduledExclusive(b: Batch, sequential: bool)
    requires Exclusive(b) && b.mode == Some(Parallel)
    ensures Exclusive(b.(flags := b.flags + [sequential]))
  {
    forall i, j | i in b.running && j in b.running && j in b.executed && i < j
      ensures !Barrier(b.flags + [sequential], i, j)
    {
      assert !Barrier(b.flags, i, j);
    }
  }

  lemma ExecutingExclusive(t: Turn, k: nat)
    requires Exclusive(t.batch) && MayExecute(t.batch, k)
    ensures Exclusive(t.batch.(executed := t.batch.executed + {k}))
  {
  }

  lemma TrackedStep(m: Monitor, e: Entry, n: Monitor)
    requires Tracked(m) && Leads(m, e, n)
    ensures Tracked(n)
  {
    if OfTools(e) {
      TrackedTool(m, e, n);
    } else {
      TrackedRest(m, e, n);
    }
  }

  lemma TrackedTool(m: Monitor, e: Entry, n: Monitor)
    requires Tracked(m) && Leads(m, e, n) && OfTools(e)
    ensures Tracked(n)
  {
    BatchMoves(m, e, n);
    ToolsAllowed(m, e, n);
  }

  /** Calls start, are scheduled, judged and executed in a batch, and only those that run end. */
  lemma ToolsAllowed(m: Monitor, e: Entry, n: Monitor)
    requires Leads(m, e, n) && OfTools(e)
    ensures n.stage == Answering
    ensures e.ToolStart? || e.Scheduled? || e.Admitted? || e.Executing? ==> m.turn.batch.mode.Some?
    ensures e.ToolStart? ==> e.k == m.turn.batch.started < |Calls(m.turn)|
    ensures e.Scheduled? ==> |m.turn.batch.flags| < m.turn.batch.started
    ensures e.ToolEnd? || e.ToolUpdate? ==> e.k in m.turn.batch.running
  {
    assert Stepped(0);
  }

  lemma TrackedRest(m: Monitor, e: Entry, n: Monitor)
    requires Tracked(m) && Leads(m, e, n) && !OfTools(e)
    ensures Tracked(n)
  {
    RestBatch(m, e, n);
    RestStage(m, e, n);
  }

  /** While calls run nothing moves on; a result is reported only of a batch. */
  lemma RestStage(m: Monitor, e: Entry, n: Monitor)
    requires Tracked(m) && Leads(m, e, n) && !OfTools(e)
    ensures m.turn.batch.running == {} || (n.stage == m.stage && n.turn == m.turn)
    ensures n.stage.Reporting? ==> m.turn.batch.mode.Some? && n.turn.batch == m.turn.batch
    ensures e.MessageEnd? && m.stage.Reporting? ==> m.turn.batch.mode.Some?
  {
    assert Stepped(0);
  }

  lemma IdsStep(m: Monitor, e: Entry, n: Monitor)
    requires Tracked(m) && IdsTracked(m) && Leads(m, e, n)
    ensures IdsTracked(n)
  {
    PendingNext(m.totals, m.stage, e);
    if OfTools(e) {
      BatchMoves(m, e, n);
      IdsMove(m, e, n);
    } else {
      RestBatch(m, e, n);
      RestStage(m, e, n);
      IdsRest(m, n);
    }
  }

  lemma IdsMove(m: Monitor, e: Entry, n: Monitor)
    requires IdsTracked(m) && Leads(m, e, n) && OfTools(e)
    requires n.turn == m.turn.(batch := NextBatch(m.turn.batch, m.stage, e)) && n.totals.pending == PendingAfter(m.totals.pending, e)
    requires e.BatchBegun? ==> m.turn.batch == NO_BATCH
    ensures IdsTracked(n)
  {
    if e.ToolStart? || e.ToolEnd? {
      OwnId(m, e, n);
    }
    forall id | id in n.totals.pending
      ensures exists k <- n.turn.batch.running :: HasId(n.turn, k, id)
    {
      if e.ToolStart? && id == e.id {
        assert HasId(n.turn, e.k, id);
      } else {
        var k :| k in m.turn.batch.running && HasId(m.turn, k, id);
        assert HasId(n.turn, k, id);
      }
    }
  }

  /** The events of a call carry its id. */
  lemma OwnId(m: Monitor, e: Entry, n: Monitor)
    requires Leads(m, e, n) && (e.ToolStart? || e.ToolEnd?)
    ensures HasId(m.turn, e.k, e.id)
  {
    assert Stepped(0);
  }

  lemma IdsRest(m: Monitor, n: Monitor)
    requires IdsTracked(m) && n.totals.pending <= m.totals.pending && (m.turn.batch.running == {} || n.turn == m.turn)
    ensures IdsTracked(n)
  {
    forall id | id in n.totals.pending
      ensures exists k <- n.turn.batch.running :: HasId(n.turn, k, id)
    {
      var k :| k in m.turn.batch.running && HasId(m.turn, k, id);
    }
  }

  lemma ToolSummary(log: seq<Entry>)
    requires Observe(log).Some?
    ensures var m := Observe(log).value; ToolsAgree(m, log) && Tracked(m) && IdsTracked(m) && Exclusive(m.turn.batch)
  {
    var m := Observed(log);
    LawfulTools(log, m);
  }

  lemma {:induction false} LawfulTools(log: seq<Entry>, m: Monitor)
    requires Lawful(log, m)
    ensures ToolsAgree(m, log) && Tracked(m) && IdsTracked(m) && Exclusive(m.turn.batch)
  {
    if log == [] {
      LawfulStart();
      LawfulOnce(log, m, START);
    } else {
      var before, e := Front(log), Last(log);
      assert before + [e] == log;
      var k := LawfulBefore(before, e, m);
      LawfulTools(before, k);
      ToolsStep(k, before, e, m);
      TrackedStep(k, e, m);
      IdsStep(k, e, m);
      ExclusiveStep(k, e, m);
    }
  }

  /** Results are reported, and a turn ends, only when no call is open; then no id is pending either. */
  lemma ToolsSettleFirst(log: seq<Entry>, e: Entry)
    requires Observe(log + [e]).Some?
    requires e.TurnEnd? || e.AgentEnd? || e.Requested? || (e.MessageStart? && e.message.ToolResult?)
    ensures OpenCalls(log) == {} && PendingIds(log) == {}
  {
    LastStep(log, e);
    ToolSummary(log);
  }

  /** While a call executes, an earlier call with a sequential one in between, or at either end, is finished. */
  lemma NeverTogether(log: seq<Entry>, i: nat, j: nat)
    requires Observe(log).Some? && i < j && i in OpenCalls(log) && j in OpenCalls(log) && j in Begun(log)
    ensures Mode(log) == Some(Parallel) && j < |Flags(log)| && !Barrier(Flags(log), i, j)
  {
    ToolSummary(log);
  }

  /** A call starts once, ends once, and executes once in between if it passed preflight, and never otherwise. */
  lemma ToolEventsPair(log: seq<Entry>, e: Entry)
    requires Observe(log + [e]).Some?
    ensures e.ToolStart? ==> e.k !in OpenCalls(log) && e.k == Launched(log)
    ensures e.ToolEnd? ==> e.k in OpenCalls(log) && (e.k in Cleared(log) ==> e.k in Begun(log))
    ensures e.Executing? ==> e.k in OpenCalls(log) && e.k in Cleared(log) && e.k !in Begun(log)
    ensures e.ToolUpdate? ==> e.k in OpenCalls(log) && e.k in Begun(log)
  {
    LastStep(log, e);
    ToolSummary(log);
  }
}
