/**
 * What a lawful log says, in terms of the log alone. The functions here are defined on logs
 * without the protocol's automaton; the lemmas connect the two and draw the promises of
 * packages/agent/src/types.ts from them.
 */
module AgentHistory {
  import opened Wrappers
  import opened AgentProtocol
  import opened ToolScheduling

  function Last(log: seq<Entry>): Entry
    requires log != []
  {
    log[|log| - 1]
  }

  function Front(log: seq<Entry>): seq<Entry>
    requires log != []
  {
    log[..|log| - 1]
  }

  /** The payloads of all message_end events. */
  function Ends(log: seq<Entry>): seq<Message> {
    if log == [] then [] else Ends(Front(log)) + if Last(log).MessageEnd? then [Last(log).message] else []
  }

  /** The tickets of the messages that were injected from a queue. */
  function Tickets(log: seq<Entry>, queue: QueueName): seq<nat> {
    if log == [] then []
    else
      var e := Last(log);
      Tickets(Front(log), queue)
      + if e.MessageEnd? && e.origin.Queued? && e.origin.queue == queue then [e.origin.ticket] else []
  }

  /** Those messages with their tickets. */
  function Deliveries(log: seq<Entry>, queue: QueueName): seq<Delivery> {
    if log == [] then []
    else
      var e := Last(log);
      Deliveries(Front(log), queue)
      + if e.MessageEnd? && e.origin.Queued? && e.origin.queue == queue then [Delivery(e.origin.ticket, e.message)] else []
  }

  /** How often a message started before the one before it had ended. */
  function Doubles(log: seq<Entry>): nat {
    if log == [] then 0 else Doubles(Front(log)) + if Last(log).MessageStart? && Unfinished(Front(log)) then 1 else 0
  }

  /** Everything after the last agent_start. */
  function Run(log: seq<Entry>): seq<Entry> {
    if log == [] || Last(log).AgentStart? then [] else Run(Front(log)) + [Last(log)]
  }

  /** How many loop invocations have begun. */
  function Invocations(log: seq<Entry>): nat {
    if log == [] then 0 else Invocations(Front(log)) + if Last(log).AgentStart? then 1 else 0
  }

  /** How many turns have ended. */
  function TurnEnds(log: seq<Entry>): nat {
    if log == [] then 0 else TurnEnds(Front(log)) + if Last(log).TurnEnd? then 1 else 0
  }

  /** The transcript a loop should work on: the one it began with or last installed, and what ended since. */
  function Installed(log: seq<Entry>): seq<Message> {
    if log == [] then []
    else
      match Last(log)
      case AgentStart(context, _, _, _) => context
      case Prepared(true, Some(context)) => context
      case MessageEnd(message, _) => Installed(Front(log)) + [message]
      case _ => Installed(Front(log))
  }

  /** A message has started and not ended. */
  predicate Unfinished(log: seq<Entry>) {
    log != [] && (Last(log).MessageStart? || (!Last(log).MessageEnd? && Unfinished(Front(log))))
  }

  /** The message that has started and not ended, as it was last shown. */
  function Showing(log: seq<Entry>): (m: Option<Message>)
    ensures Unfinished(log) ==> m.Some?
  {
    if log == [] || Last(log).MessageEnd? then None
    else if Last(log).MessageStart? || Last(log).MessageUpdate? then Some(Last(log).message)
    else Showing(Front(log))
  }

  /** What a loop does send: a message that starts again before it ended leaves its last showing behind. */
  function Actual(log: seq<Entry>): seq<Message> {
    if log == [] then []
    else
      match Last(log)
      case AgentStart(context, _, _, _) => context
      case Prepared(true, Some(context)) => context
      case MessageEnd(message, _) => Actual(Front(log)) + [message]
      case MessageStart(_) => Actual(Front(log)) + if Unfinished(Front(log)) then [Showing(Front(log)).value] else []
      case _ => Actual(Front(log))
  }

  /** A message started again before it ended, since the context was installed. */
  predicate Restarted(log: seq<Entry>) {
    log != []
    && match Last(log)
       case AgentStart(_, _, _, _) => false
       case Prepared(true, Some(_)) => false
       case MessageStart(_) => Unfinished(Front(log)) || Restarted(Front(log))
       case _ => Restarted(Front(log))
  }

  /** prepareNextTurn has thrown in this loop invocation. */
  predicate Broke(log: seq<Entry>) {
    log != [] && !Last(log).AgentStart? && ((Last(log).Prepared? && !Last(log).ok) || Broke(Front(log)))
  }

  predicate MessageOpen(s: Stage) {
    s.Injecting? || s.Streaming? || s.Reporting? || s.Failed1?
  }

  predicate Failing(s: Stage) {
    s.Failed0? || s.Failed1? || s.Failed2? || s.Failed3?
  }

  /** The log's own functions give the monitor's totals. */
  ghost predicate TotalsAgree(m: Monitor, log: seq<Entry>) {
    && m.totals.transcript == Ends(log)
    && m.totals.steered == Deliveries(log, Steering) && m.totals.followed == Deliveries(log, FollowUp)
  }

  ghost predicate RunAgrees(m: Monitor, log: seq<Entry>) {
    && m.run.ended == Ends(Run(log)) && m.run.number == Invocations(log) && m.run.turns == TurnEnds(Run(log))
    && m.run.context == Actual(log)
  }

  ghost predicate StagesAgree(m: Monitor, log: seq<Entry>) {
    && StageAgrees(m.stage, Unfinished(log), Showing(log), Broke(log))
    && (Restarted(log) <==> m.run.restarts > 0) && m.totals.doubles == Doubles(log)
  }

  predicate StageAgrees(s: Stage, unfinished: bool, showing: Option<Message>, broke: bool) {
    && (unfinished <==> MessageOpen(s))
    && (s.Streaming? ==> showing == Some(s.partial))
    && (Failing(s) ==> broke) && (broke ==> Failing(s) || s == Idle)
  }

  lemma LogSummary(log: seq<Entry>)
    requires Observe(log).Some?
    ensures var m := Observe(log).value; TotalsAgree(m, log) && RunAgrees(m, log) && StagesAgree(m, log)
  {
    var m := Observed(log);
    LawfulSummary(log, m);
  }

  lemma {:induction false} LawfulSummary(log: seq<Entry>, m: Monitor)
    requires Lawful(log, m)
    ensures TotalsAgree(m, log) && RunAgrees(m, log) && StagesAgree(m, log)
  {
    if log == [] {
      LawfulStart();
      LawfulOnce(log, m, START);
    } else {
      var before, e := Front(log), Last(log);
      assert before + [e] == log;
      var k := LawfulBefore(before, e, m);
      LawfulSummary(before, k);
      TotalsStep(k, before, e, m);
      RunStep(k, before, e, m);
      StagesStep(k, before, e, m);
    }
  }

  lemma TotalsStep(m: Monitor, log: seq<Entry>, e: Entry, n: Monitor)
    requires TotalsAgree(m, log) && Leads(m, e, n)
    ensures TotalsAgree(n, log + [e])
  {
    QueuedInjects(m, e, n);
    TotalsGain(m.totals, m.stage, e);
    EndsMove(log, e);
    DeliveriesMove(log, e, Steering);
    DeliveriesMove(log, e, FollowUp);
  }

  lemma QueuedInjects(m: Monitor, e: Entry, n: Monitor)
    requires Leads(m, e, n)
    ensures n.totals == NextTotals(m.totals, m.stage, e) && (e.MessageEnd? && e.origin.Queued? ==> m.stage.Injecting?)
  {
    assert Stepped(0);
  }

  function Delivered(ds: seq<Delivery>, e: Entry, queue: QueueName): seq<Delivery> {
    if e.MessageEnd? && e.origin.Queued? && e.origin.queue == queue then ds + [Delivery(e.origin.ticket, e.message)] else ds
  }

  lemma TotalsGain(t: Totals, s: Stage, e: Entry)
    requires e.MessageEnd? && e.origin.Queued? ==> s.Injecting?
    ensures var n := NextTotals(t, s, e);
      && n.transcript == (if e.MessageEnd? then t.transcript + [e.message] else t.transcript)
      && n.steered == Delivered(t.steered, e, Steering) && n.followed == Delivered(t.followed, e, FollowUp)
  {
  }

  lemma EndsMove(log: seq<Entry>, e: Entry)
    ensures Ends(log + [e]) == if e.MessageEnd? then Ends(log) + [e.message] else Ends(log)
  {
    assert Front(log + [e]) == log && Last(log + [e]) == e;
  }

  lemma DeliveriesMove(log: seq<Entry>, e: Entry, queue: QueueName)
    ensures Deliveries(log + [e], queue) == Delivered(Deliveries(log, queue), e, queue)
  {
    assert Front(log + [e]) == log && Last(log + [e]) == e;
  }

  lemma RunStep(m: Monitor, log: seq<Entry>, e: Entry, n: Monitor)
    requires RunAgrees(m, log) && StagesAgree(m, log) && Leads(m, e, n)
    ensures RunAgrees(n, log + [e])
  {
    StartsUnfinished(m, e, n);
    RunMove(log, e);
    ContextMove(m.run, m.stage, m.totals.transcript, log, e);
    CountsMove(m.run, m.stage, m.totals.transcript, e);
  }

  /** An entry in or at the start of a loop invocation. */
  lemma RunMove(log: seq<Entry>, e: Entry)
    ensures var next := log + [e];
      && Ends(Run(next)) == (if e.AgentStart? then [] else if e.MessageEnd? then Ends(Run(log)) + [e.message] else Ends(Run(log)))
      && TurnEnds(Run(next)) == (if e.AgentStart? then 0 else if e.TurnEnd? then TurnEnds(Run(log)) + 1 else TurnEnds(Run(log)))
      && Invocations(next) == if e.AgentStart? then Invocations(log) + 1 else Invocations(log)
  {
    var next := log + [e];
    assert Front(next) == log && Last(next) == e;
    if !e.AgentStart? {
      assert Front(Run(next)) == Run(log) && Last(Run(next)) == e;
    }
  }

  lemma CountsMove(r: RunPart, s: Stage, transcript: seq<Message>, e: Entry)
    ensures var n := NextRun(r, s, transcript, e);
      && n.ended == (if e.AgentStart? then [] else if e.MessageEnd? then r.ended + [e.message] else r.ended)
      && n.turns == (if e.AgentStart? then 0 else if e.TurnEnd? then r.turns + 1 else r.turns)
      && n.number == if e.AgentStart? then r.number + 1 else r.number
  {
  }

  lemma ContextMove(r: RunPart, s: Stage, transcript: seq<Message>, log: seq<Entry>, e: Entry)
    requires r.context == Actual(log)
    requires e.MessageStart? ==> (Unfinished(log) <==> s.Streaming?) && (s.Streaming? ==> Showing(log) == Some(s.partial))
    ensures NextRun(r, s, transcript, e).context == Actual(log + [e])
  {
    var next := log + [e];
    assert Front(next) == log && Last(next) == e;
  }

  /** The only message that starts before one has ended is a reply that starts again. */
  lemma StartsUnfinished(m: Monitor, e: Entry, n: Monitor)
    requires Leads(m, e, n)
    ensures n.run == NextRun(m.run, m.stage, m.totals.transcript, e)
    ensures e.MessageStart? ==> (MessageOpen(m.stage) <==> m.stage.Streaming?)
  {
    assert Stepped(0);
  }

  lemma StagesStep(m: Monitor, log: seq<Entry>, e: Entry, n: Monitor)
    requires StagesAgree(m, log) && Leads(m, e, n)
    ensures StagesAgree(n, log + [e])
  {
    if e.MessageStart? || e.MessageEnd? {
      StagesMessage(m, log, e, n);
    } else {
      StagesOther(m, log, e, n);
    }
  }

  lemma StagesMessage(m: Monitor, log: seq<Entry>, e: Entry, n: Monitor)
    requires StagesAgree(m, log) && Leads(m, e, n) && (e.MessageStart? || e.MessageEnd?)
    ensures StagesAgree(n, log + [e])
  {
    MessageMoves(m, e, n);
    MessagesMove(log, e);
    BrokeMove(log, e);
  }

  /** A message opens and closes; the one that is open when another starts is a reply. */
  lemma MessageMoves(m: Monitor, e: Entry, n: Monitor)
    requires Leads(m, e, n) && (e.MessageStart? || e.MessageEnd?)
    ensures var s, t, again := m.stage, n.stage, if e.MessageStart? && m.stage.Streaming? then 1 else 0;
      && s != Idle && (MessageOpen(t) <==> e.MessageStart?) && (Failing(t) <==> Failing(s))
      && (e.MessageStart? ==> (MessageOpen(s) <==> s.Streaming?)) && (t.Streaming? ==> e.MessageStart? && t.partial == e.message)
      && n.run.restarts == m.run.restarts + again && n.totals.doubles == m.totals.doubles + again
  {
    assert Stepped(0);
  }

  lemma MessagesMove(log: seq<Entry>, e: Entry)
    requires e.MessageStart? || e.MessageEnd?
    ensures Unfinished(log + [e]) <==> e.MessageStart?
    ensures Doubles(log + [e]) == if e.MessageStart? && Unfinished(log) then Doubles(log) + 1 else Doubles(log)
    ensures Showing(log + [e]) == if e.MessageStart? then Some(e.message) else None
    ensures Restarted(log + [e]) <==> (e.MessageStart? && Unfinished(log)) || Restarted(log)
  {
    assert Front(log + [e]) == log && Last(log + [e]) == e;
  }

  lemma StagesOther(m: Monitor, log: seq<Entry>, e: Entry, n: Monitor)
    requires StagesAgree(m, log) && Leads(m, e, n) && !e.MessageStart? && !e.MessageEnd?
    ensures StagesAgree(n, log + [e])
  {
    StageMoves(m, e, n);
    RestartsMove(m, e, n);
    MessagesStay(log, e);
    RestartedMove(log, e);
    BrokeMove(log, e);
  }

  /** Which stages an entry that is no message event leads between. */
  lemma StageMoves(m: Monitor, e: Entry, n: Monitor)
    requires Leads(m, e, n) && !e.MessageStart? && !e.MessageEnd?
    ensures var s, t := m.stage, n.stage;
      && (MessageOpen(t) <==> MessageOpen(s))
      && (if e.Prepared? then Failing(t) <==> !e.ok else if e.AgentEnd? then t == Idle else Failing(t) <==> Failing(s))
      && (t == Idle <==> (s == Idle && !e.AgentStart?) || e.AgentEnd?)
      && (e.Prepared? ==> s == Between) && (e.AgentStart? ==> s == Idle)
      && (t.Streaming? ==> s.Streaming? && t.partial == if e.MessageUpdate? then e.message else s.partial)
  {
    assert Stepped(0);
  }

  lemma RestartsMove(m: Monitor, e: Entry, n: Monitor)
    requires Leads(m, e, n) && !e.MessageStart? && !e.MessageEnd?
    ensures n.totals.doubles == m.totals.doubles && n.run.restarts == if Installs(e) then 0 else m.run.restarts
  {
    assert Stepped(0);
  }

  /** The loop works on a new context from here on. */
  predicate Installs(e: Entry) {
    e.AgentStart? || (e.Prepared? && e.ok && e.replaced.Some?)
  }

  lemma MessagesStay(log: seq<Entry>, e: Entry)
    requires !e.MessageStart? && !e.MessageEnd?
    ensures Unfinished(log + [e]) == Unfinished(log) && Doubles(log + [e]) == Doubles(log)
    ensures Showing(log + [e]) == if e.MessageUpdate? then Some(e.message) else Showing(log)
  {
    assert Front(log + [e]) == log && Last(log + [e]) == e;
  }

  lemma RestartedMove(log: seq<Entry>, e: Entry)
    requires !e.MessageStart?
    ensures Restarted(log + [e]) <==> Restarted(log) && !Installs(e)
  {
    assert Front(log + [e]) == log && Last(log + [e]) == e;
  }

  lemma BrokeMove(log: seq<Entry>, e: Entry)
    ensures Broke(log + [e]) <==> !e.AgentStart? && ((e.Prepared? && !e.ok) || Broke(log))
  {
    assert Front(log + [e]) == log && Last(log + [e]) == e;
  }

  /** The state an entry was allowed in. */
  lemma LastStep(log: seq<Entry>, e: Entry)
    requires Observe(log + [e]).Some?
    ensures Observe(log).Some? && Allowed(Observe(log).value, e)
    ensures Observe(log + [e]) == Some(After(Observe(log).value, e))
  {
    assert Front(log + [e]) == log;
  }

  /** Each entry of a lawful log was allowed where it stands. */
  lemma LawfulAt(log: seq<Entry>, m: Monitor, i: nat)
    requires Lawful(log, m) && i < |log|
    ensures Observe(log[..i] + [log[i]]).Some?
  {
    var k := LawfulPrefix(log, m, i + 1);
    assert log[..i + 1] == log[..i] + [log[i]];
    LawfulObserved(log[..i] + [log[i]], k);
  }

  lemma LawfulObserved(log: seq<Entry>, m: Monitor)
    requires Lawful(log, m)
    ensures Observe(log) == Some(m)
  {
    assert Replayed(0);
  }

  lemma {:induction false} LawfulPrefix(log: seq<Entry>, m: Monitor, i: nat) returns (k: Monitor)
    requires Lawful(log, m) && i <= |log|
    ensures Lawful(log[..i], k)
  {
    if i == |log| {
      assert log[..i] == log;
      k := m;
    } else {
      assert Front(log) + [Last(log)] == log && Front(log)[..i] == log[..i];
      var n := LawfulBefore(Front(log), Last(log), m);
      k := LawfulPrefix(Front(log), n, i);
    }
  }

  lemma {:induction false} PrefixLawful(log: seq<Entry>, rest: seq<Entry>)
    requires Observe(log + rest).Some?
    ensures Observe(log).Some?
  {
    if rest == [] {
      assert log + rest == log;
    } else {
      assert Front(log + rest) == log + Front(rest);
      PrefixLawful(log, Front(rest));
    }
  }

  /** The context this loop invocation began with. */
  function Began(log: seq<Entry>): seq<Message> {
    if log == [] then [] else if Last(log).AgentStart? then Last(log).context else Began(Front(log))
  }

  /** prepareNextTurn has replaced the context in this loop invocation. */
  predicate Replaced(log: seq<Entry>) {
    log != [] && !Last(log).AgentStart?
      && ((Last(log).Prepared? && Last(log).ok && Last(log).replaced.Some?) || Replaced(Front(log)))
  }

  lemma {:induction false} InstalledUnreplaced(log: seq<Entry>)
    requires !Replaced(log)
    ensures Installed(log) == Began(log) + Ends(Run(log))
  {
    if log != [] {
      var before, e := Front(log), Last(log);
      assert before + [e] == log;
      InstalledGain(before, e);
      if !e.AgentStart? {
        InstalledUnreplaced(before);
        EndsStep(before, e);
        Regroup(Began(before), Ends(Run(before)), e);
      }
    }
  }

  lemma Regroup(began: seq<Message>, ended: seq<Message>, e: Entry)
    ensures e.MessageEnd? ==> began + (ended + [e.message]) == began + ended + [e.message]
    ensures ended + [] == ended
  {
  }

  lemma InstalledGain(log: seq<Entry>, e: Entry)
    ensures Installed(log + [e])
      == if e.AgentStart? then e.context
         else if Installs(e) then e.replaced.value
         else if e.MessageEnd? then Installed(log) + [e.message]
         else Installed(log)
    ensures Began(log + [e]) == if e.AgentStart? then e.context else Began(log)
    ensures Replaced(log + [e]) <==> !e.AgentStart? && (Installs(e) || Replaced(log))
    ensures e.AgentStart? ==> Run(log + [e]) == []
  {
    assert Front(log + [e]) == log && Last(log + [e]) == e;
  }

  /** Messages left behind are all that separates what is sent from what should be. */
  lemma {:induction false} LeftBehind(log: seq<Entry>)
    ensures if Restarted(log) then |Actual(log)| > |Installed(log)| else Actual(log) == Installed(log)
  {
    if log != [] {
      LeftBehind(Front(log));
    }
  }

  /**
   * A request carries what the log says the loop works on; that is the transcript exactly, unless a
   * response started twice, and without a replacement it is the initial context and everything
   * that ended in this loop invocation.
   */
  lemma RequestSendsTranscript(log: seq<Entry>, sent: seq<Message>)
    requires Observe(log + [Requested(sent)]).Some?
    ensures sent == Actual(log)
    ensures sent == Installed(log) <==> !Restarted(log)
    ensures !Restarted(log) && !Replaced(log) ==> sent == Began(log) + Ends(Run(log))
  {
    LastStep(log, Requested(sent));
    var m := Observed(log);
    RequestSends(m, sent);
    SentIs(log, m);
    LeftBehind(log);
    if !Replaced(log) {
      InstalledUnreplaced(log);
    }
  }

  lemma RequestSends(m: Monitor, sent: seq<Message>)
    requires Allowed(m, Requested(sent))
    ensures sent == m.run.context
  {
  }

  /** The run part of the automaton, in terms of the log. */
  lemma SentIs(log: seq<Entry>, m: Monitor)
    requires Lawful(log, m)
    ensures m.run.context == Actual(log) && m.run.ended == Ends(Run(log))
  {
    LawfulSummary(log, m);
  }

  lemma BrokeIs(log: seq<Entry>, m: Monitor)
    requires Lawful(log, m)
    ensures (Failing(m.stage) ==> Broke(log)) && (Broke(log) ==> Failing(m.stage) || m.stage == Idle)
  {
    LawfulSummary(log, m);
  }

  /** agent_end reports every message that ended in its loop invocation; a failed run reports only the last. */
  lemma AgentEndCarriesRun(log: seq<Entry>, messages: seq<Message>)
    requires Observe(log + [AgentEnd(messages)]).Some?
    ensures Ends(Run(log)) != [] || !Broke(log)
    ensures messages == if Broke(log) then [Ends(Run(log))[|Ends(Run(log))| - 1]] else Ends(Run(log))
  {
    var m := EndingStep(log, messages);
    SentIs(log, m);
    BrokeIs(log, m);
    FailureEnded(log, m);
  }

  /** The state in which agent_end is emitted. */
  lemma EndingStep(log: seq<Entry>, messages: seq<Message>) returns (m: Monitor)
    requires Observe(log + [AgentEnd(messages)]).Some?
    ensures Lawful(log, m) && m.stage != Idle && (Failing(m.stage) <==> m.stage.Failed3?)
    ensures messages == if m.stage.Failed3? then [m.stage.failure] else m.run.ended
  {
    LastStep(log, AgentEnd(messages));
    m := Observed(log);
  }

  lemma EndsStep(log: seq<Entry>, e: Entry)
    requires !e.AgentStart?
    ensures Ends(Run(log + [e])) == if e.MessageEnd? then Ends(Run(log)) + [e.message] else Ends(Run(log))
  {
    RunMove(log, e);
  }

  /** A failure that was reported is the last message that ended. */
  ghost predicate FailureLast(m: Monitor, log: seq<Entry>) {
    m.stage.Failed2? || m.stage.Failed3? ==> Ends(Run(log)) != [] && Ends(Run(log))[|Ends(Run(log))| - 1] == m.stage.failure
  }

  lemma FailureStep(m: Monitor, log: seq<Entry>, e: Entry, n: Monitor)
    requires FailureLast(m, log) && Leads(m, e, n)
    ensures FailureLast(n, log + [e])
  {
    if n.stage.Failed2? || n.stage.Failed3? {
      FailureMoves(m, e, n);
      EndsStep(log, e);
    }
  }

  /** A failure is reported by its message_end, and no message ends after that. */
  lemma FailureMoves(m: Monitor, e: Entry, n: Monitor)
    requires Leads(m, e, n) && (n.stage.Failed2? || n.stage.Failed3?)
    ensures !e.AgentStart?
    ensures if e.MessageEnd? then n.stage == Failed2(e.message)
            else (m.stage.Failed2? || m.stage.Failed3?) && n.stage.failure == m.stage.failure
  {
    assert Stepped(0);
  }

  lemma {:induction false} FailureEnded(log: seq<Entry>, m: Monitor)
    requires Lawful(log, m)
    ensures FailureLast(m, log)
  {
    if log == [] {
      LawfulStart();
      LawfulOnce(log, m, START);
    } else {
      var before, e := Front(log), Last(log);
      assert before + [e] == log;
      var k := LawfulBefore(before, e, m);
      FailureEnded(before, k);
      FailureStep(k, before, e, m);
    }
  }

  /** The calls a transcript still owes results for; none when it is out of order. */
  function Owed(ms: seq<Message>): Option<seq<ToolCall>> {
    if ms == [] then Some([])
    else
      var owed := Owed(ms[..|ms| - 1]);
      match ms[|ms| - 1]
      case Input(_) => if owed == Some([]) then owed else None
      case Assistant(_, calls, _, _) => if owed == Some([]) then Some(calls) else None
      case ToolResult(call, _, _) =>
        if owed.Some? && owed.value != [] && owed.value[0].id == call then Some(owed.value[1..]) else None
  }

  /** The message at `i` answers the call of the assistant message at `a` whose place that is. */
  predicate Answers(ms: seq<Message>, a: nat, i: nat) {
    && a < i < |ms| && ms[a].Assistant? && i - 1 - a < |ms[a].calls|
    && ms[i].ToolResult? && ms[i].call == ms[a].calls[i - 1 - a].id
  }

  /** Every call is answered in its place, up to the calls still owed, and nothing else answers. */
  ghost predicate Paired(ms: seq<Message>, owed: seq<ToolCall>) {
    && (forall a | 0 <= a < |ms| && ms[a].Assistant? :: a + 1 + |ms[a].calls| <= |ms| + |owed|)
    && (forall a, i | 0 <= a < i < |ms| && ms[a].Assistant? && i <= a + |ms[a].calls| :: Answers(ms, a, i))
    && (forall i | 0 <= i < |ms| && ms[i].ToolResult? :: exists a | 0 <= a < i :: Answers(ms, a, i))
    && (owed != [] ==> exists a | 0 <= a < |ms| :: Owes(ms, a, owed))
  }

  /** The last calls of the assistant message at `a` are the ones without answers. */
  predicate Owes(ms: seq<Message>, a: nat, owed: seq<ToolCall>) {
    && a < |ms| && ms[a].Assistant? && a + 1 + |ms[a].calls| == |ms| + |owed|
    && |owed| <= |ms[a].calls| && owed == ms[a].calls[|ms[a].calls| - |owed|..]
  }

  lemma {:induction false} OwedPairs(ms: seq<Message>)
    requires Owed(ms).Some?
    ensures Paired(ms, Owed(ms).value)
  {
    if ms != [] {
      var front, m := ms[..|ms| - 1], ms[|ms| - 1];
      assert front + [m] == ms;
      OwedStep(front, m);
      OwedPairs(front);
      PairedStep(front, Owed(front).value, m, Owed(ms).value);
    }
  }

  lemma PairedStep(ms: seq<Message>, owed: seq<ToolCall>, m: Message, next: seq<ToolCall>)
    requires Paired(ms, owed)
    requires if m.ToolResult? then owed != [] && owed[0].id == m.call && next == owed[1..]
             else owed == [] && next == if m.Assistant? then m.calls else []
    ensures Paired(ms + [m], next)
  {
    if m.ToolResult? {
      PairedResult(ms, owed, m);
    } else {
      PairedOther(ms, m);
    }
  }

  /** A result pays the first debt. */
  lemma PairedResult(ms: seq<Message>, owed: seq<ToolCall>, m: Message)
    requires Paired(ms, owed) && m.ToolResult? && owed != [] && owed[0].id == m.call
    ensures Paired(ms + [m], owed[1..])
  {
    var all, next := ms + [m], owed[1..];
    var a :| 0 <= a < |ms| && Owes(ms, a, owed);
    assert Answers(all, a, |ms|);
    assert next != [] ==> Owes(all, a, next);
    CallsAnswered(ms, owed, m, a);
    ResultsPaired(ms, owed, m, a);
    assert forall b | 0 <= b < |all| && all[b].Assistant? :: b < |ms| && all[b] == ms[b];
  }

  lemma CallsAnswered(ms: seq<Message>, owed: seq<ToolCall>, m: Message, a: nat)
    requires Paired(ms, owed) && a < |ms| && Owes(ms, a, owed) && owed != [] && m.ToolResult? && Answers(ms + [m], a, |ms|)
    ensures var all := ms + [m]; forall b, i | 0 <= b < i < |all| && all[b].Assistant? && i <= b + |all[b].calls| :: Answers(all, b, i)
  {
    var all := ms + [m];
    AnswersStay(ms, m);
    OneDebtor(ms, owed, a);
    forall b, i | 0 <= b < i < |all| && all[b].Assistant? && i <= b + |all[b].calls|
      ensures Answers(all, b, i)
    {
      if i < |ms| {
        assert Answers(ms, b, i);
      } else {
        assert b == a;
      }
    }
  }

  lemma ResultsPaired(ms: seq<Message>, owed: seq<ToolCall>, m: Message, a: nat)
    requires Paired(ms, owed) && a < |ms| && Answers(ms + [m], a, |ms|)
    ensures var all := ms + [m]; forall i | 0 <= i < |all| && all[i].ToolResult? :: exists b | 0 <= b < i :: Answers(all, b, i)
  {
    var all := ms + [m];
    AnswersStay(ms, m);
    forall i | 0 <= i < |all| && all[i].ToolResult?
      ensures exists b | 0 <= b < i :: Answers(all, b, i)
    {
      if i < |ms| {
        var b :| 0 <= b < i && Answers(ms, b, i);
        assert Answers(all, b, i);
      }
    }
  }

  /** No other reply has calls left to answer. */
  lemma OneDebtor(ms: seq<Message>, owed: seq<ToolCall>, a: nat)
    requires Paired(ms, owed) && a < |ms| && Owes(ms, a, owed) && owed != []
    ensures forall b | 0 <= b < |ms| && ms[b].Assistant? && b != a :: b + |ms[b].calls| < |ms|
  {
    forall b | a < b < |ms|
      ensures ms[b].ToolResult?
    {
      assert Answers(ms, a, b);
    }
    forall b | 0 <= b < a && ms[b].Assistant?
      ensures b + |ms[b].calls| < a
    {
      assert !Answers(ms, b, a);
    }
  }

  lemma PairedOther(ms: seq<Message>, m: Message)
    requires Paired(ms, []) && !m.ToolResult?
    ensures Paired(ms + [m], if m.Assistant? then m.calls else [])
  {
    AnswersStay(ms, m);
    assert m.Assistant? && m.calls != [] ==> Owes(ms + [m], |ms|, m.calls);
  }

  lemma AnswersStay(ms: seq<Message>, m: Message)
    ensures forall a, i | 0 <= a < i < |ms| :: Answers(ms, a, i) <==> Answers(ms + [m], a, i)
  {
  }

  /** What the turn under way still owes; a turn may leave debts only if the run must end with it. */
  ghost predicate Solvent(m: Monitor) {
    if m.stage == Answering || m.stage.Reporting? then
      && |m.turn.batch.results| <= |Calls(m.turn)|
      && Owed(m.run.ended) == Some(Calls(m.turn)[|m.turn.batch.results|..])
      && (m.stage.Reporting? ==> MayReport(m.turn, m.stage.result))
    else if m.stage.Injecting? then m.stage.injected.Input? && Owed(m.run.ended) == Some([])
    else m.stage == Idle || Failing(m.stage) || (m.stage == Between && m.turn.mustEnd) || Owed(m.run.ended) == Some([])
  }

  lemma SolventStep(m: Monitor, e: Entry, n: Monitor)
    requires Solvent(m) && Leads(m, e, n)
    ensures Solvent(n)
  {
    if e.MessageEnd? {
      SolventEnd(m, e, n);
    } else if e.TurnEnd? {
      SolventTurn(m, e, n);
    } else {
      SolventOther(m, e, n);
    }
  }

  lemma SolventEnd(m: Monitor, e: Entry, n: Monitor)
    requires Solvent(m) && Leads(m, e, n) && e.MessageEnd?
    ensures Solvent(n)
  {
    assert Stepped(0);
    OwedStep(m.run.ended, e.message);
    if m.stage.Reporting? {
      var k := |m.turn.batch.results|;
      assert Calls(m.turn)[k..][1..] == Calls(m.turn)[k + 1..];
    } else if m.stage.Streaming? {
      assert e.message.calls[0..] == e.message.calls;
    }
  }

  lemma OwedStep(ms: seq<Message>, m: Message)
    ensures Owed(ms + [m]) == match m
      case Input(_) => if Owed(ms) == Some([]) then Owed(ms) else None
      case Assistant(_, calls, _, _) => if Owed(ms) == Some([]) then Some(calls) else None
      case ToolResult(call, _, _) =>
        if Owed(ms).Some? && Owed(ms).value != [] && Owed(ms).value[0].id == call then Some(Owed(ms).value[1..]) else None
  {
    assert (ms + [m])[..|ms|] == ms;
  }

  lemma SolventTurn(m: Monitor, e: Entry, n: Monitor)
    requires Solvent(m) && Leads(m, e, n) && e.TurnEnd?
    ensures Solvent(n)
  {
    assert Stepped(0);
    assert Calls(m.turn)[|Calls(m.turn)|..] == [];
  }

  lemma SolventOther(m: Monitor, e: Entry, n: Monitor)
    requires Solvent(m) && Leads(m, e, n) && !e.MessageEnd? && !e.TurnEnd?
    ensures Solvent(n)
  {
    if OfTools(e) {
      SolventTool(m, e, n);
    } else if e.MessageStart? {
      SolventStart(m, e, n);
    } else {
      SolventRest(m, e, n);
    }
  }

  lemma SolventTool(m: Monitor, e: Entry, n: Monitor)
    requires Solvent(m) && Leads(m, e, n) && OfTools(e)
    ensures Solvent(n)
  {
    assert Stepped(0);
  }

  lemma SolventStart(m: Monitor, e: Entry, n: Monitor)
    requires Solvent(m) && Leads(m, e, n) && e.MessageStart?
    ensures Solvent(n)
  {
    assert Stepped(0);
  }

  lemma SolventRest(m: Monitor, e: Entry, n: Monitor)
    requires Solvent(m) && Leads(m, e, n) && !e.MessageEnd? && !e.TurnEnd? && !e.MessageStart? && !OfTools(e)
    ensures Solvent(n)
  {
    assert Stepped(0);
  }

  lemma AlwaysSolvent(log: seq<Entry>)
    requires Observe(log).Some?
    ensures Solvent(Observe(log).value)
  {
    var m := Observed(log);
    LawfulSolvent(log, m);
  }

  lemma {:induction false} LawfulSolvent(log: seq<Entry>, m: Monitor)
    requires Lawful(log, m)
    ensures Solvent(m)
  {
    if log == [] {
      LawfulStart();
      LawfulOnce(log, m, START);
    } else {
      var before, e := Front(log), Last(log);
      assert before + [e] == log;
      var k := LawfulBefore(before, e, m);
      LawfulSolvent(before, k);
      SolventStep(k, e, m);
    }
  }

  /**
   * When the provider is asked, each call of each reply of this loop invocation has its result,
   * directly after the reply and in the order of the calls, and there are no other results.
   */
  lemma RequestsAreAnswered(log: seq<Entry>, sent: seq<Message>)
    requires Observe(log + [Requested(sent)]).Some?
    ensures var ms := Ends(Run(log));
      && (forall a | 0 <= a < |ms| && ms[a].Assistant? :: a + |ms[a].calls| < |ms|)
      && (forall a, i | 0 <= a < |ms| && ms[a].Assistant? && a < i <= a + |ms[a].calls| :: Answers(ms, a, i))
      && (forall i | 0 <= i < |ms| && ms[i].ToolResult? :: exists a | 0 <= a < i :: Answers(ms, a, i))
  {
    LastStep(log, Requested(sent));
    var m := Observed(log);
    SentIs(log, m);
    AlwaysSolvent(log);
    OwedPairs(Ends(Run(log)));
  }

  lemma {:induction false} DeliveryLogged(log: seq<Entry>, i: nat, queue: QueueName)
    requires i < |log| && log[i].MessageEnd? && log[i].origin.Queued? && log[i].origin.queue == queue
    ensures Delivery(log[i].origin.ticket, log[i].message) in Deliveries(log, queue)
  {
    if i == |log| - 1 {
      var d := [Delivery(log[i].origin.ticket, log[i].message)];
      assert Deliveries(log, queue) == Deliveries(Front(log), queue) + d && d[0] in d;
    } else {
      DeliveryLogged(Front(log), i, queue);
    }
  }

  lemma {:induction false} TicketsOfDeliveries(log: seq<Entry>, queue: QueueName)
    ensures |Tickets(log, queue)| == |Deliveries(log, queue)|
    ensures forall i | 0 <= i < |Tickets(log, queue)| :: Tickets(log, queue)[i] == Deliveries(log, queue)[i].ticket
  {
    if log != [] {
      TicketsOfDeliveries(Front(log), queue);
    }
  }
}
