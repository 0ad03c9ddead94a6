/**
 * What a lawful log says about turns: how they are bracketed, when the queues are polled between
 * them, and which turn is the last.
 */
module TurnHistory {
  import opened Wrappers
  import opened AgentProtocol
  import opened AgentHistory

  /** The turn_start (true) and turn_end (false) events of this loop invocation. */
  function Marks(log: seq<Entry>): seq<bool> {
    if log == [] || Last(log).AgentStart? then []
    else if Last(log).TurnStart? then Marks(Front(log)) + [true]
    else if Last(log).TurnEnd? then Marks(Front(log)) + [false]
    else Marks(Front(log))
  }

  predicate Alternates(marks: seq<bool>) {
    forall i | 0 <= i < |marks| :: marks[i] == (i % 2 == 0)
  }

  /** The abort signal of the active run. */
  predicate AbortSeen(log: seq<Entry>) {
    log != [] && !Last(log).Activated? && (Last(log).AbortRequested? || AbortSeen(Front(log)))
  }

  /** The last entry that is not a user's abort. */
  function LastCall(log: seq<Entry>): Option<Entry> {
    if log == [] then None else if Last(log).AbortRequested? then LastCall(Front(log)) else Some(Last(log))
  }

  /** Since the last turn ended the stop hook was asked, and let the run go on. */
  predicate Passed(log: seq<Entry>) {
    log != [] && !Last(log).AgentStart? && !Last(log).TurnEnd?
    && if Last(log).StopAsked? then !Last(log).stop else Passed(Front(log))
  }

  predicate InTurn(s: Stage) {
    s.TurnOpen? || s.Injecting? || s == Awaiting || s.Streaming? || s == Answering || s.Reporting?
  }

  ghost predicate MarksAgree(m: Monitor, log: seq<Entry>) {
    m.aborted == AbortSeen(log) && MarksHold(m, Marks(log), Passed(log))
  }

  ghost predicate MarksHold(m: Monitor, marks: seq<bool>, passed: bool) {
    && (InTurn(m.stage) || m.stage == Between ==>
          && Alternates(marks) && (|marks| % 2 == 1 <==> InTurn(m.stage))
          && (m.turn.first <==> |marks| < 2))
    && (m.stage == Between || InTurn(m.stage) ==> m.turn.first || !m.turn.asked || m.turn.mustEnd || passed)
  }

  ghost predicate PollsAgree(m: Monitor, log: seq<Entry>) {
    && (m.turn.first ==> !m.turn.asked && !m.turn.prepared)
    && (m.turn.polls == BothEmpty ==> !m.turn.more)
    && (m.stage == Between && m.turn.polls != NotPolled ==> m.turn.asked)
    && (InTurn(m.stage) && !m.turn.first ==> m.turn.asked)
    && (m.turn.polls == SteeringEmpty || m.turn.polls == BothEmpty ==>
          && m.flight.count == 0
          && (m.stage.TurnOpen? && m.turn.polls == BothEmpty ==> LastCall(log) == Some(Polled(FollowUp, 0)))
          && ((m.stage == Between || m.stage.TurnOpen?) && m.turn.polls == SteeringEmpty && !m.turn.more ==>
                LastCall(log) == Some(Polled(Steering, 0)) || LastCall(log) == Some(PollDeferred))
          && !m.stage.Injecting?)
  }

  lemma MarksStep(m: Monitor, log: seq<Entry>, e: Entry, n: Monitor)
    requires MarksAgree(m, log) && Leads(m, e, n)
    ensures MarksAgree(n, log + [e])
  {
    if e.TurnStart? || e.TurnEnd? || e.AgentStart? {
      MarksMove(m, log, e, n);
    } else {
      MarksStay(m, log, e, n);
    }
  }

  lemma MarksMove(m: Monitor, log: seq<Entry>, e: Entry, n: Monitor)
    requires MarksAgree(m, log) && Leads(m, e, n) && (e.TurnStart? || e.TurnEnd? || e.AgentStart?)
    ensures MarksAgree(n, log + [e])
  {
    TurnsMove(m, e, n);
    MarksGain(log, e);
    AbortGain(log, e);
    PassedGain(log, e);
    HoldsOn(m, Marks(log), Passed(log), e, n);
  }

  lemma HoldsOn(m: Monitor, marks: seq<bool>, passed: bool, e: Entry, n: Monitor)
    requires MarksHold(m, marks, passed) && Leads(m, e, n)
    ensures e.AgentStart? ==> MarksHold(n, [], false)
    ensures e.TurnStart? ==> MarksHold(n, marks + [true], passed)
    ensures e.TurnEnd? ==> MarksHold(n, marks + [false], false)
  {
    if e.TurnStart? || e.TurnEnd? || e.AgentStart? {
      TurnsMove(m, e, n);
    }
  }

  /** Where turns and invocations begin and end. */
  lemma TurnsMove(m: Monitor, e: Entry, n: Monitor)
    requires Leads(m, e, n) && (e.TurnStart? || e.TurnEnd? || e.AgentStart?)
    ensures n.aborted == m.aborted
    ensures e.AgentStart? ==> n.stage == Between && n.turn.first && !n.turn.asked
    ensures e.TurnStart? ==> m.stage == Between && InTurn(n.stage) && n.turn == m.turn.(reply := n.turn.reply, batch := n.turn.batch)
    ensures e.TurnEnd? ==> (InTurn(m.stage) && n.stage == Between && !n.turn.first && !n.turn.asked) || n.stage.Failed3?
  {
    assert Stepped(0);
  }

  lemma MarksGain(log: seq<Entry>, e: Entry)
    ensures Marks(log + [e])
      == if e.AgentStart? then [] else if e.TurnStart? then Marks(log) + [true] else if e.TurnEnd? then Marks(log) + [false] else Marks(log)
  {
    assert Front(log + [e]) == log && Last(log + [e]) == e;
  }

  lemma AbortGain(log: seq<Entry>, e: Entry)
    ensures AbortSeen(log + [e]) <==> !e.Activated? && (e.AbortRequested? || AbortSeen(log))
  {
    assert Front(log + [e]) == log && Last(log + [e]) == e;
  }

  lemma PassedGain(log: seq<Entry>, e: Entry)
    ensures Passed(log + [e]) <==> !e.AgentStart? && !e.TurnEnd? && if e.StopAsked? then !e.stop else Passed(log)
  {
    assert Front(log + [e]) == log && Last(log + [e]) == e;
  }

  lemma MarksStay(m: Monitor, log: seq<Entry>, e: Entry, n: Monitor)
    requires MarksAgree(m, log) && Leads(m, e, n) && !e.TurnStart? && !e.TurnEnd? && !e.AgentStart?
    ensures MarksAgree(n, log + [e])
  {
    MarksRest(m, e, n);
    HooksRest(m, e, n);
    MarksGain(log, e);
    AbortGain(log, e);
    PassedGain(log, e);
  }

  /** Other entries do not move between turns, except to end the invocation. */
  lemma MarksRest(m: Monitor, e: Entry, n: Monitor)
    requires Leads(m, e, n) && !e.TurnStart? && !e.TurnEnd? && !e.AgentStart?
    ensures
      && (InTurn(n.stage) <==> InTurn(m.stage) && !e.AgentEnd?) && (n.stage == Between ==> m.stage == Between)
      && n.turn.first == m.turn.first
  {
    assert Stepped(0);
  }

  /** Among them only the hooks change whether the run must end, and the stop hook whether it has been asked. */
  lemma HooksRest(m: Monitor, e: Entry, n: Monitor)
    requires Leads(m, e, n) && !e.TurnStart? && !e.TurnEnd? && !e.AgentStart?
    ensures n.aborted == if e.Activated? then false else e.AbortRequested? || m.aborted
    ensures if e.StopAsked? then n.turn.mustEnd == e.stop else n.turn.asked == m.turn.asked
    ensures if e.Prepared? then !m.turn.mustEnd else e.StopAsked? || n.turn.mustEnd == m.turn.mustEnd
  {
    assert Stepped(0);
  }

  predicate Hook(e: Entry) {
    e.Polled? || e.PollDeferred? || e.StopAsked? || e.Prepared? || e.Restored? || e.Requested?
  }

  lemma PollsStep(m: Monitor, log: seq<Entry>, e: Entry, n: Monitor)
    requires PollsAgree(m, log) && Leads(m, e, n)
    ensures PollsAgree(n, log + [e])
  {
    if Hook(e) {
      PollsMove(m, log, e, n);
    } else {
      PollsRest(m, log, e, n);
    }
  }

  lemma PollsMove(m: Monitor, log: seq<Entry>, e: Entry, n: Monitor)
    requires PollsAgree(m, log) && Leads(m, e, n) && Hook(e)
    ensures PollsAgree(n, log + [e])
  {
    assert Stepped(0);
    var next := log + [e];
    assert Front(next) == log && Last(next) == e;
  }

  lemma PollsRest(m: Monitor, log: seq<Entry>, e: Entry, n: Monitor)
    requires PollsAgree(m, log) && Leads(m, e, n) && !Hook(e)
    ensures PollsAgree(n, log + [e])
  {
    assert Stepped(0);
    var next := log + [e];
    assert Front(next) == log && Last(next) == e;
  }

  lemma TurnSummary(log: seq<Entry>)
    requires Observe(log).Some?
    ensures MarksAgree(Observe(log).value, log) && PollsAgree(Observe(log).value, log)
  {
    var m := Observed(log);
    LawfulTurns(log, m);
  }

  lemma {:induction false} LawfulTurns(log: seq<Entry>, m: Monitor)
    requires Lawful(log, m)
    ensures MarksAgree(m, log) && PollsAgree(m, log)
  {
    if log == [] {
      LawfulStart();
      LawfulOnce(log, m, START);
    } else {
      var before, e := Front(log), Last(log);
      assert before + [e] == log;
      var k := LawfulBefore(before, e, m);
      LawfulTurns(before, k);
      MarksStep(k, before, e, m);
      PollsStep(k, before, e, m);
    }
  }

  /**
   * At agent_end the turns of the loop invocation are bracketed, there was at least one, and the
   * last one lacks its turn_end only if a fresh look at both queues has just found them empty.
   */
  lemma EventGrammar(log: seq<Entry>, messages: seq<Message>)
    requires Observe(log + [AgentEnd(messages)]).Some? && !Broke(log)
    ensures Alternates(Marks(log)) && |Marks(log)| >= 2
    ensures |Marks(log)| % 2 == 1 ==> LastCall(log) == Some(Polled(FollowUp, 0))
  {
    LastStep(log, AgentEnd(messages));
    LogSummary(log);
    TurnSummary(log);
  }

  /** Follow-ups are looked for only directly after steering was found empty. */
  lemma FollowUpsComeLast(log: seq<Entry>, count: nat)
    requires Observe(log + [Polled(FollowUp, count)]).Some?
    ensures LastCall(log) == Some(Polled(Steering, 0)) || LastCall(log) == Some(PollDeferred)
  {
    LastStep(log, Polled(FollowUp, count));
    TurnSummary(log);
  }

  /** Once a turn has ended no queue is polled before the stop hook has let the run go on. */
  lemma StopComesFirst(log: seq<Entry>, e: Entry)
    requires Observe(log + [e]).Some? && (e.Polled? || e.PollDeferred? || e.TurnStart?)
    ensures Passed(log) || |Marks(log)| < 2
  {
    LastStep(log, e);
    TurnSummary(log);
  }

  /** The entries after which a loop invocation only ends. */
  predicate Final(log: seq<Entry>, e: Entry) {
    || (e.TurnEnd? && (Terminal(e.message) || AbortSeen(log)))
    || (e.StopAsked? && e.stop)
    || (e.Prepared? && e.ok && AbortSeen(log))
  }

  /** Entries that belong to no turn. */
  predicate Outer(e: Entry) {
    e.AbortRequested? || e.Restored? || e.AgentEnd? || e.Finished? || e.Activated?
  }

  predicate Closing(m: Monitor) {
    (m.stage == Between && m.turn.mustEnd) || m.stage == Idle || m.stage.Failed3?
  }

  lemma ClosingStep(m: Monitor, e: Entry, n: Monitor)
    requires Closing(m) && Leads(m, e, n) && !e.AgentStart?
    ensures Closing(n) && Outer(e)
  {
    assert Stepped(0);
  }

  lemma {:induction false} ClosingStays(log: seq<Entry>, m: Monitor, rest: seq<Entry>, n: Monitor)
    requires Lawful(log, m) && Closing(m) && Lawful(log + rest, n)
    requires forall e <- rest :: !e.AgentStart?
    ensures Closing(n) && forall e <- rest :: Outer(e)
  {
    if rest == [] {
      assert log + rest == log;
      LawfulOnce(log, m, n);
    } else {
      var e := Last(rest);
      assert log + rest == log + Front(rest) + [e] && rest == Front(rest) + [e];
      var k := LawfulBefore(log + Front(rest), e, n);
      ClosingStays(log, m, Front(rest), k);
      ClosingStep(k, e, n);
    }
  }

  lemma FinalCloses(m: Monitor, log: seq<Entry>, e: Entry, n: Monitor)
    requires Leads(m, e, n) && Final(log, e) && m.aborted == AbortSeen(log)
    ensures Closing(n)
  {
    assert Stepped(0);
  }

  /** After a terminal reply, a seen abort or a stop, the invocation asks, polls and runs nothing more. */
  lemma LastTurn(log: seq<Entry>, e: Entry, rest: seq<Entry>)
    requires Final(log, e) && Observe(log + [e] + rest).Some?
    requires forall x <- rest :: !x.AgentStart?
    ensures forall x <- rest :: Outer(x)
  {
    PrefixLawful(log + [e], rest);
    LastStep(log, e);
    TurnSummary(log);
    FinalCloses(Observe(log).value, log, e, Observe(log + [e]).value);
    ClosingStays(log + [e], Observe(log + [e]).value, rest, Observe(log + [e] + rest).value);
  }

  ghost predicate ResultsAnswer(m: Monitor) {
    m.stage == Answering || m.stage.Reporting? ==>
      && (Terminal(m.turn.reply) ==> m.turn.batch == NO_BATCH)
      && |m.turn.batch.results| <= |Calls(m.turn)|
      && forall k | 0 <= k < |m.turn.batch.results| ::
        m.turn.batch.results[k].ToolResult? && m.turn.batch.results[k].call == Calls(m.turn)[k].id
  }

  lemma ResultsStep(m: Monitor, e: Entry, n: Monitor)
    requires ResultsAnswer(m) && Solvent(m) && Leads(m, e, n)
    ensures ResultsAnswer(n)
  {
    if e.MessageEnd? || e.MessageStart? {
      ResultsMove(m, e, n);
    } else {
      ResultsStay(m, e, n);
    }
  }

  lemma ResultsMove(m: Monitor, e: Entry, n: Monitor)
    requires ResultsAnswer(m) && Solvent(m) && Leads(m, e, n) && (e.MessageEnd? || e.MessageStart?)
    ensures ResultsAnswer(n)
  {
    assert Stepped(0);
  }

  lemma ResultsStay(m: Monitor, e: Entry, n: Monitor)
    requires ResultsAnswer(m) && Leads(m, e, n) && !e.MessageEnd? && !e.MessageStart?
    ensures ResultsAnswer(n)
  {
    assert Stepped(0);
  }

  lemma {:induction false} LawfulResults(log: seq<Entry>, m: Monitor)
    requires Lawful(log, m)
    ensures ResultsAnswer(m)
  {
    if log == [] {
      LawfulStart();
      LawfulOnce(log, m, START);
    } else {
      var before, e := Front(log), Last(log);
      assert before + [e] == log;
      var k := LawfulBefore(before, e, m);
      LawfulResults(before, k);
      LawfulSolvent(before, k);
      ResultsStep(k, e, m);
    }
  }

  /** A turn's results answer a prefix of the reply's calls, and all of them unless the run was aborted. */
  lemma TurnResults(log: seq<Entry>, message: Message, results: seq<Message>)
    requires Observe(log + [TurnEnd(message, results)]).Some? && !Broke(log)
    ensures message.Assistant? && |results| <= |message.calls|
    ensures forall k | 0 <= k < |results| :: results[k].ToolResult? && results[k].call == message.calls[k].id
    ensures if Terminal(message) then results == []
            else |results| < |message.calls| ==> AbortSeen(log) && results != []
  {
    LastStep(log, TurnEnd(message, results));
    LogSummary(log);
    TurnSummary(log);
    LawfulResults(log, Observe(log).value);
    RepliesAreAssistant(log, Observe(log).value);
    TurnEndAnswers(Observe(log).value, message, results);
  }

  lemma TurnEndAnswers(m: Monitor, message: Message, results: seq<Message>)
    requires Allowed(m, TurnEnd(message, results)) && m.stage == Answering && ResultsAnswer(m) && message.Assistant?
    ensures |results| <= |message.calls|
    ensures forall k | 0 <= k < |results| :: results[k].ToolResult? && results[k].call == message.calls[k].id
    ensures if Terminal(message) then results == []
            else |results| < |message.calls| ==> m.aborted && results != []
  {
  }

  ghost predicate ReplyIsAssistant(m: Monitor) {
    m.stage == Answering || m.stage.Reporting? ==> m.turn.reply.Assistant?
  }

  lemma ReplyStep(m: Monitor, e: Entry, n: Monitor)
    requires Leads(m, e, n) && ReplyIsAssistant(m)
    ensures ReplyIsAssistant(n)
  {
    assert Stepped(0);
  }

  lemma {:induction false} RepliesAreAssistant(log: seq<Entry>, m: Monitor)
    requires Lawful(log, m)
    ensures ReplyIsAssistant(m)
  {
    if log == [] {
      LawfulStart();
      LawfulOnce(log, m, START);
    } else {
      var before, e := Front(log), Last(log);
      assert before + [e] == log;
      var k := LawfulBefore(before, e, m);
      RepliesAreAssistant(before, k);
      ReplyStep(k, e, m);
    }
  }
}
