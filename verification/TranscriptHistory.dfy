/**
 * What a lawful log says about messages: when they start and end by turns, that requests then
 * carry the transcript exactly, and a log in which one does not. It also says how often an
 * invocation ends, and which of them defer their first look at steering.
 */
module TranscriptHistory {
  import opened Wrappers
  import opened AgentProtocol
  import opened AgentHistory
  import opened TurnHistory

  /** The message_start (true) and message_end (false) events. */
  function MessageMarks(log: seq<Entry>): seq<bool> {
    if log == [] then []
    else MessageMarks(Front(log)) + if Last(log).MessageStart? then [true] else if Last(log).MessageEnd? then [false] else []
  }

  /** Without double starts, messages start and end by turns. */
  lemma {:induction false} MessagesAlternate(log: seq<Entry>, m: Monitor)
    requires Lawful(log, m) && Doubles(log) == 0
    ensures Alternates(MessageMarks(log)) && (|MessageMarks(log)| % 2 == 1 <==> Unfinished(log))
  {
    if log != [] {
      var before, e := Front(log), Last(log);
      assert before + [e] == log;
      var k := LawfulBefore(before, e, m);
      MessagesAlternate(before, k);
      LawfulSummary(before, k);
      if e.MessageEnd? {
        EndsFollowStarts(k, e, m);
      }
    }
  }

  lemma EndsFollowStarts(m: Monitor, e: Entry, n: Monitor)
    requires Leads(m, e, n) && e.MessageEnd?
    ensures MessageOpen(m.stage)
  {
    assert Stepped(0);
  }

  lemma {:induction false} NeverRestarted(log: seq<Entry>)
    requires Doubles(log) == 0
    ensures !Restarted(log)
  {
    if log != [] {
      NeverRestarted(Front(log));
    }
  }

  lemma {:induction false} DoublesGrow(log: seq<Entry>, i: nat)
    requires i <= |log|
    ensures Doubles(log[..i]) <= Doubles(log)
  {
    if i == |log| {
      assert log[..i] == log;
    } else {
      assert Front(log)[..i] == log[..i];
      DoublesGrow(Front(log), i);
    }
  }

  /** Without double starts every request is exact. */
  lemma SingleRequests(log: seq<Entry>, m: Monitor, i: nat)
    requires Lawful(log, m) && Doubles(log) == 0 && i < |log| && log[i].Requested?
    ensures log[i].sent == Installed(log[..i])
    ensures !Replaced(log[..i]) ==> log[i].sent == Began(log[..i]) + Ends(Run(log[..i]))
  {
    LawfulAt(log, m, i);
    DoublesGrow(log, i);
    NeverRestarted(log[..i]);
    RequestSendsTranscript(log[..i], log[i].sent);
  }

  /** The invocation works on the empty transcript it began with, and on what has ended. */
  predicate Plain(log: seq<Entry>) {
    !Replaced(log) && Began(log) == []
  }

  lemma Append(log: seq<Entry>, m: Monitor, e: Entry) returns (next: seq<Entry>, n: Monitor)
    requires Lawful(log, m) && Allowed(m, e) && Plain(log)
    requires match e case AgentStart(context, _, _, _) => context == [] case Prepared(_, replaced) => replaced == None case _ => true
    ensures next == log + [e] && n == After(m, e) && Lawful(next, n) && Plain(next)
  {
    LawfulAppend(log, m, e);
    next, n := log + [e], After(m, e);
  }

  const STARTED := Totals(Some([]), [], [], [], {}, 0)

  const REQUESTED := Monitor(Awaiting, false, RunPart(1, 0, false, [], [], [], 0, 1), Flight(Some(Steering), 0),
                             NEW_TURN.(first := true), STARTED)

  /** Up to the first request. */
  lemma FirstRequest() returns (log: seq<Entry>)
    ensures Lawful(log, REQUESTED) && Plain(log)
  {
    var m;
    log, m := FirstTurn();
    log, m := Append(log, m, Polled(Steering, 0));
    log, m := Append(log, m, Requested([]));
  }

  lemma FirstTurn() returns (log: seq<Entry>, m: Monitor)
    ensures Lawful(log, m) && Plain(log)
    ensures m == Monitor(TurnOpen(true), false, RunPart(1, 0, false, [], [], [], 0, 1), Flight(None, 0), NEW_TURN.(first := true), STARTED)
  {
    LawfulStart();
    log, m := [], START;
    log, m := Append(log, m, Activated);
    log, m := Append(log, m, AgentStart([], 0, None, false));
    log, m := Append(log, m, TurnStart);
  }

  /** A response that starts its message twice, and the end of its turn. */
  lemma StartTwice(partial: AssistantMessage, reply: AssistantMessage) returns (log: seq<Entry>, m: Monitor)
    requires reply.calls == [] && !Terminal(reply)
    ensures Lawful(log, m) && Plain(log) && m.stage == Between && !m.aborted
      && m.run == RunPart(1, 1, false, [], [reply], [partial, reply], 1, 1) && m.flight.count == 0
    ensures m.turn == NEW_TURN.(reply := reply)
  {
    log := FirstRequest();
    log, m := StartsTwiceIn(log, partial, reply);
    log, m := ReplyEnds(log, m, reply);
  }

  lemma StartsTwiceIn(log: seq<Entry>, partial: AssistantMessage, reply: AssistantMessage) returns (next: seq<Entry>, n: Monitor)
    requires Lawful(log, REQUESTED) && Plain(log)
    ensures Lawful(next, n) && Plain(next)
    ensures n == REQUESTED.(stage := Streaming(reply), run := REQUESTED.run.(context := [partial], restarts := 1), totals := n.totals)
  {
    next, n := Append(log, REQUESTED, MessageStart(partial));
    next, n := Append(next, n, MessageStart(reply));
  }

  lemma ReplyEnds(log: seq<Entry>, m: Monitor, reply: AssistantMessage) returns (next: seq<Entry>, n: Monitor)
    requires Lawful(log, m) && Plain(log) && reply.calls == [] && !Terminal(reply)
    requires m.stage.Streaming? && !m.aborted && m.turn == NEW_TURN.(first := true)
    ensures Lawful(next, n) && Plain(next) && n.stage == Between && !n.aborted && n.flight == m.flight
      && n.turn == NEW_TURN.(reply := reply)
    ensures n.run == m.run.(turns := m.run.turns + 1, ended := m.run.ended + [reply], context := m.run.context + [reply])
  {
    next, n := Append(log, m, MessageEnd(reply, Generated));
    next, n := Append(next, n, TurnEnd(reply, []));
  }

  /** From one turn_end to the next turn_start, for a steering message. */
  lemma NextTurnStarts(log: seq<Entry>, m: Monitor) returns (next: seq<Entry>, n: Monitor)
    requires Lawful(log, m) && Plain(log) && m.stage == Between && !m.aborted && m.flight.count == 0
      && m.turn == NEW_TURN.(reply := m.turn.reply)
    ensures Lawful(next, n) && Plain(next) && n.stage == TurnOpen(true) && !n.aborted && n.run == m.run
    ensures n.flight == Flight(Some(Steering), 1) && n.turn.polls == Found
  {
    next, n := HooksPass(log, m);
    next, n := Append(next, n, Polled(Steering, 1));
    next, n := Append(next, n, TurnStart);
  }

  lemma HooksPass(log: seq<Entry>, m: Monitor) returns (next: seq<Entry>, n: Monitor)
    requires Lawful(log, m) && Plain(log) && m.stage == Between && !m.aborted && m.turn == NEW_TURN.(reply := m.turn.reply)
    ensures Lawful(next, n) && Plain(next)
    ensures n == m.(turn := m.turn.(prepared := true, asked := true))
  {
    next, n := Append(log, m, Prepared(true, None));
    next, n := Append(next, n, StopAsked(false));
  }

  /** The steering message joins the transcript. */
  lemma SteeringJoins(log: seq<Entry>, m: Monitor, steering: InputMessage) returns (next: seq<Entry>, n: Monitor)
    requires Lawful(log, m) && Plain(log) && m.stage == TurnOpen(true) && m.flight == Flight(Some(Steering), 1)
    ensures Lawful(next, n) && Plain(next) && n.stage == TurnOpen(false) && n.flight.count == 0 && n.turn.polls == m.turn.polls
    ensures n.run == m.run.(ended := m.run.ended + [steering], context := m.run.context + [steering])
  {
    next, n := Append(log, m, MessageStart(steering));
    next, n := Append(next, n, MessageEnd(steering, Queued(Steering, 0)));
  }

  /**
   * A response that starts twice misleads the next request: after a steering message the one
   * request the loop can make carries the first start's message before the reply.
   */
  lemma DoubleStartMisleads(partial: AssistantMessage, reply: AssistantMessage, steering: InputMessage) returns (log: seq<Entry>)
    requires reply.calls == [] && !Terminal(reply)
    ensures Installed(log) == [reply, steering] && Restarted(log)
    ensures forall sent :: Observe(log + [Requested(sent)]).Some? <==> sent == [partial, reply, steering]
  {
    var m;
    log, m := StartTwice(partial, reply);
    log, m := NextTurnStarts(log, m);
    log, m := SteeringJoins(log, m, steering);
    Misled(log, m, [partial, reply, steering]);
    EndsAre(log, m, [reply, steering]);
  }

  lemma Misled(log: seq<Entry>, m: Monitor, context: seq<Message>)
    requires Lawful(log, m) && m.stage == TurnOpen(false) && m.flight.count == 0 && m.turn.polls == Found
    requires m.run.context == context && m.run.restarts == 1
    ensures Restarted(log) && forall sent :: Observe(log + [Requested(sent)]).Some? <==> sent == context
  {
    LawfulObserved(log, m);
    LogSummary(log);
    forall sent
      ensures Observe(log + [Requested(sent)]).Some? <==> sent == context
    {
      assert (log + [Requested(sent)])[..|log|] == log;
    }
  }

  /** In a first invocation without a replacement the transcript is what has ended. */
  lemma EndsAre(log: seq<Entry>, m: Monitor, ended: seq<Message>)
    requires Lawful(log, m) && m.run.ended == ended && Plain(log)
    ensures Installed(log) == ended
  {
    LawfulSummary(log, m);
    InstalledUnreplaced(log);
  }

  /** The context of the first loop invocation. */
  function FirstContext(log: seq<Entry>): Option<seq<Message>> {
    if log == [] then None
    else if FirstContext(Front(log)).Some? then FirstContext(Front(log))
    else if Last(log).AgentStart? then Some(Last(log).context)
    else None
  }

  /** The agent has become active, and no invocation has begun since. */
  predicate Opening(log: seq<Entry>) {
    log != [] && (Last(log).Activated? || (!Last(log).AgentStart? && Opening(Front(log))))
  }

  /** How often the agent has become active. */
  function Activations(log: seq<Entry>): nat {
    if log == [] then 0 else Activations(Front(log)) + if Last(log).Activated? then 1 else 0
  }

  /** Where the invocations of a log come from. */
  ghost predicate OriginsAgree(m: Monitor, log: seq<Entry>) {
    && Coherent(m) && m.totals.initial == FirstContext(log) && m.run.opening == Opening(log) && m.run.activity == Activations(log)
    && (m.totals.initial.Some? ==> Began(log) == m.totals.initial.value + m.run.before)
  }

  lemma OriginsStep(m: Monitor, log: seq<Entry>, e: Entry, n: Monitor)
    requires OriginsAgree(m, log) && Leads(m, e, n)
    ensures OriginsAgree(n, log + [e])
  {
    assert Stepped(0);
    AfterCoherent(m, e);
    OriginMoves(m, e);
    assert Front(log + [e]) == log && Last(log + [e]) == e;
  }

  lemma OriginMoves(m: Monitor, e: Entry)
    requires Coherent(m) && Allowed(m, e)
    ensures var n := After(m, e);
      && n.run.opening == (e.Activated? || (!e.AgentStart? && m.run.opening))
      && n.run.activity == m.run.activity + (if e.Activated? then 1 else 0)
      && (if e.AgentStart? then n.totals.initial.Some? && e.context == n.totals.initial.value + n.run.before
          else n.totals.initial == m.totals.initial && n.run.before == m.run.before)
      && (m.totals.initial.Some? ==> n.totals.initial == m.totals.initial)
      && (m.totals.initial == None && e.AgentStart? ==> n.totals.initial == Some(e.context))
  {
  }

  lemma {:induction false} Origins(log: seq<Entry>, m: Monitor)
    requires Lawful(log, m)
    ensures OriginsAgree(m, log)
  {
    if log == [] {
      LawfulStart();
      LawfulOnce(log, m, START);
    } else {
      var before, e := Front(log), Last(log);
      assert before + [e] == log;
      var k := LawfulBefore(before, e, m);
      Origins(before, k);
      OriginsStep(k, before, e, m);
    }
  }

  /**
   * Each loop invocation begins with everything said before it. Only the first one after the agent
   * became active may do so without input from a queue.
   */
  lemma StartsCarryTranscript(log: seq<Entry>, e: Entry)
    requires Observe(log + [e]).Some? && e.AgentStart?
    ensures FirstContext(log).Some? ==> e.context == FirstContext(log).value + Ends(log)
    ensures if e.from == None then Opening(log) else e.prompts > 0
  {
    LastStep(log, e);
    LogSummary(log);
    Origins(log, Observe(log).value);
  }

  /** Where an invocation may open again, the agent has become active since the last one. */
  lemma {:induction false} OpeningActivates(log: seq<Entry>, i: nat)
    requires i < |log| && log[i].AgentStart?
    ensures Activations(log[..i + 1]) <= Activations(log) && (Opening(log) ==> Activations(log[..i + 1]) < Activations(log))
  {
    if i == |log| - 1 {
      assert log[..i + 1] == log;
    } else {
      assert Front(log)[..i + 1] == log[..i + 1];
      OpeningActivates(Front(log), i);
    }
  }

  lemma {:induction false} ActivationsGrow(log: seq<Entry>, more: seq<Entry>)
    ensures Activations(log) <= Activations(log + more)
  {
    if more == [] {
      assert log + more == log;
    } else {
      ActivationsGrow(log, Front(more));
      assert Front(log + more) == log + Front(more);
    }
  }

  /** As long as the agent does not become active again, each invocation after one begins with input from a queue. */
  lemma LaterFromQueue(log: seq<Entry>, m: Monitor, i: nat, j: nat)
    requires Lawful(log, m) && i < j < |log| && log[i].AgentStart? && log[j].AgentStart?
    requires Activations(log[..i + 1]) == m.run.activity
    ensures log[j].from.Some? && log[j].prompts > 0
  {
    Origins(log, m);
    LawfulAt(log, m, j);
    StartsCarryTranscript(log[..j], log[j]);
    OpeningActivates(log[..j], i);
    assert log[..j][..i + 1] == log[..i + 1] && log[..j] + log[j..] == log;
    ActivationsGrow(log[..j], log[j..]);
  }

  lemma EverythingSaid(log: seq<Entry>, m: Monitor)
    requires Lawful(log, m) && m.stage != Idle
    ensures FirstContext(log).Some? && Began(log) + Ends(Run(log)) == FirstContext(log).value + Ends(log)
  {
    LawfulSummary(log, m);
    Origins(log, m);
    assert m.totals.initial.value + (m.run.before + m.run.ended) == m.totals.initial.value + m.run.before + m.run.ended;
  }

  lemma RequestedInTurn(m: Monitor, sent: seq<Message>)
    requires Allowed(m, Requested(sent))
    ensures m.stage.TurnOpen?
  {
  }

  /** A request of an invocation without a second start or a replacement carries everything said so far. */
  lemma RequestsCarryEverything(log: seq<Entry>, sent: seq<Message>)
    requires Observe(log + [Requested(sent)]).Some? && !Restarted(log) && !Replaced(log)
    ensures FirstContext(log).Some? && sent == FirstContext(log).value + Ends(log)
  {
    LastStep(log, Requested(sent));
    var m := Observed(log);
    RequestedInTurn(m, sent);
    RequestSendsTranscript(log, sent);
    EverythingSaid(log, m);
  }

  lemma {:induction false} EndsGrow(log: seq<Entry>, more: seq<Entry>)
    ensures Ends(log) <= Ends(log + more)
  {
    if more == [] {
      assert log + more == log;
    } else {
      EndsGrow(log, Front(more));
      assert Front(log + more) == log + Front(more);
    }
  }

  lemma {:induction false} FirstStays(log: seq<Entry>, more: seq<Entry>)
    requires FirstContext(log).Some?
    ensures FirstContext(log + more) == FirstContext(log)
  {
    if more == [] {
      assert log + more == log;
    } else {
      FirstStays(log, Front(more));
      assert Front(log + more) == log + Front(more);
    }
  }

  /** How many agent_end events there are. */
  function AgentEnds(log: seq<Entry>): nat {
    if log == [] then 0 else AgentEnds(Front(log)) + if Last(log).AgentEnd? then 1 else 0
  }

  ghost predicate EndsAgree(m: Monitor, log: seq<Entry>) {
    && Invocations(log) == AgentEnds(log) + (if m.stage == Idle then 0 else 1)
    && AgentEnds(Run(log)) == if m.stage == Idle && Invocations(log) > 0 then 1 else 0
  }

  lemma EndStep(m: Monitor, e: Entry, n: Monitor)
    requires Leads(m, e, n)
    ensures e.AgentStart? ==> m.stage == Idle && n.stage != Idle
    ensures e.AgentEnd? ==> m.stage != Idle && n.stage == Idle
    ensures !e.AgentStart? && !e.AgentEnd? ==> (n.stage == Idle <==> m.stage == Idle)
  {
    assert Stepped(0);
  }

  lemma {:induction false} EndsCount(log: seq<Entry>, m: Monitor)
    requires Lawful(log, m)
    ensures EndsAgree(m, log)
  {
    if log == [] {
      LawfulStart();
      LawfulOnce(log, m, START);
    } else {
      var before, e := Front(log), Last(log);
      assert before + [e] == log;
      var k := LawfulBefore(before, e, m);
      EndsCount(before, k);
      EndStep(k, e, m);
      EndsCounted(before, e);
    }
  }

  lemma EndsCounted(log: seq<Entry>, e: Entry)
    ensures AgentEnds(log + [e]) == if e.AgentEnd? then AgentEnds(log) + 1 else AgentEnds(log)
    ensures Invocations(log + [e]) == if e.AgentStart? then Invocations(log) + 1 else Invocations(log)
    ensures AgentEnds(Run(log + [e])) == if e.AgentStart? then 0 else if e.AgentEnd? then AgentEnds(Run(log)) + 1 else AgentEnds(Run(log))
  {
    var next := log + [e];
    assert Front(next) == log && Last(next) == e;
    if !e.AgentStart? {
      assert Front(Run(next)) == Run(log) && Last(Run(next)) == e;
    }
  }

  /**
   * Each loop invocation has exactly one agent_end: none while it runs, and one for each that has
   * begun whenever another begins or the agent becomes active or idle.
   */
  lemma OneAgentEnd(log: seq<Entry>, e: Entry)
    requires Observe(log + [e]).Some?
    ensures e.AgentEnd? ==> AgentEnds(Run(log)) == 0 && Invocations(log) == AgentEnds(log) + 1
    ensures e.AgentStart? || e.Activated? || e.Finished? ==> Invocations(log) == AgentEnds(log)
    ensures !e.AgentStart? && !e.AgentEnd? && AgentEnds(Run(log)) > 0 ==> e.Activated? || e.Finished? || e.AbortRequested?
  {
    LastStep(log, e);
    EndsCount(log, Observe(log).value);
    IdleOnly(Observe(log).value, e);
  }

  lemma IdleOnly(m: Monitor, e: Entry)
    requires Allowed(m, e)
    ensures m.stage == Idle ==> e.AgentStart? || e.Activated? || e.Finished? || e.AbortRequested?
    ensures e.AgentStart? || e.Activated? || e.Finished? ==> m.stage == Idle
  {
  }

  /** The invocation is to defer its first look at steering, and has not looked yet. */
  predicate Deferring(log: seq<Entry>) {
    log != []
    && if Last(log).AgentStart? then Last(log).deferred else !Last(log).PollDeferred? && Deferring(Front(log))
  }

  predicate HasPolled(log: seq<Entry>) {
    log != [] && (Last(log).Polled? || HasPolled(Front(log)))
  }

  /** The automaton's flag says the same. */
  ghost predicate Defers(m: Monitor, log: seq<Entry>) {
    && m.turn.deferred == Deferring(log)
    && (m.turn.deferred ==> m.turn.polls == NotPolled && !HasPolled(Run(log)))
  }

  lemma DeferStep(t: Turn, s: Stage, aborted: bool, e: Entry)
    requires t.deferred ==> t.polls == NotPolled
    requires e.Polled? ==> !t.deferred
    ensures var n := NextTurn(t, s, aborted, e);
      && n.deferred == (if e.AgentStart? then e.deferred else !e.PollDeferred? && t.deferred)
      && (n.deferred ==> n.polls == NotPolled)
  {
    if OfTools(e) || e.MessageStart? || e.MessageEnd? || e.MessageUpdate? || e.TurnStart? {
      DeferralKept(t, s, aborted, e);
    }
  }

  lemma DeferralKept(t: Turn, s: Stage, aborted: bool, e: Entry)
    requires OfTools(e) || e.MessageStart? || e.MessageEnd? || e.MessageUpdate? || e.TurnStart?
    ensures var n := NextTurn(t, s, aborted, e); n.deferred == t.deferred && n.polls == t.polls
  {
  }

  lemma LooksAllowed(m: Monitor, e: Entry)
    requires Allowed(m, e)
    ensures e.Polled? ==> !m.turn.deferred
    ensures e.PollDeferred? ==> m.turn.deferred
    ensures e.Requested? ==> m.turn.polls != NotPolled
  {
  }

  lemma DefersStep(m: Monitor, log: seq<Entry>, e: Entry, n: Monitor)
    requires Defers(m, log) && Leads(m, e, n)
    ensures Defers(n, log + [e])
  {
    assert Stepped(0);
    LooksAllowed(m, e);
    DeferStep(m.turn, m.stage, m.aborted, e);
    var next := log + [e];
    assert Front(next) == log && Last(next) == e;
    if !e.AgentStart? {
      assert Front(Run(next)) == Run(log) && Last(Run(next)) == e;
    }
  }

  lemma {:induction false} Deferral(log: seq<Entry>, m: Monitor)
    requires Lawful(log, m)
    ensures Defers(m, log)
  {
    if log == [] {
      LawfulStart();
      LawfulOnce(log, m, START);
    } else {
      var before, e := Front(log), Last(log);
      assert before + [e] == log;
      var k := LawfulBefore(before, e, m);
      Deferral(before, k);
      DefersStep(k, before, e, m);
    }
  }

  /** A deferred look takes the place of the first one, before the first request, and is the only one. */
  lemma FirstLook(log: seq<Entry>, e: Entry)
    requires Observe(log + [e]).Some?
    ensures e.PollDeferred? ==> Deferring(log) && !HasPolled(Run(log)) && !Deferring(log + [e])
    ensures e.Polled? || e.Requested? ==> !Deferring(log)
  {
    LastStep(log, e);
    Deferral(log, Observe(log).value);
    LooksAllowed(Observe(log).value, e);
    assert Last(log + [e]) == e;
  }
}
