/**
 * The run lifecycle of packages/agent/src/agent.ts: which input starts a run, the drain loop after
 * agent_end, the report of a failed run, and the return to idle.
 */
module AgentRuns {
  import opened Wrappers
  import opened AgentProtocol
  import opened PendingMessages
  import opened UserHistory
  import opened AgentState
  import opened AgentLoop
  import opened AgentHistory
  import opened ToolHistory
  import opened TurnHistory
  import opened TranscriptHistory

  datatype Task = Prompts(messages: seq<InputMessage>) | FromQueue(queue: QueueName) | Continuation(deferQueued: bool)

  /** How many loop invocations and how many turns of each are observed. */
  datatype Budget = Budget(loops: nat, turns: nat)

  datatype Admission = Busy | NoMessages | WrongRole | Ran(exit: Exit)

  /** After a terminal error or abort the queues are left for an external owner. */
  predicate CanDrain(messages: seq<Message>) {
    messages == [] || !messages[|messages| - 1].Assistant? || messages[|messages| - 1].stop !in {Error, Aborted}
  }

  /** An agent without an active run is idle. */
  ghost predicate Resting(agent: Agent)
    reads agent, agent.steeringQueue, agent.followUpQueue
  {
    agent.Valid() && (agent.active || agent.mon.stage == Idle)
  }

  ghost predicate Running(agent: Agent)
    reads agent, agent.steeringQueue, agent.followUpQueue
  {
    agent.Valid() && agent.active && agent.mon.aborted == agent.aborted
  }

  /** Neither a loop invocation nor an activity has begun. */
  twostate predicate SameRun(agent: Agent)
    reads agent
  {
    agent.mon.run.number == old(agent.mon.run.number) && agent.mon.run.activity == old(agent.mon.run.activity)
  }

  /** Every loop invocation after the one begun at `i` takes its first messages from a queue. */
  ghost predicate LaterTakeQueued(log: seq<Entry>, i: nat) {
    forall j | i < j < |log| && log[j].AgentStart? :: log[j].from.Some? && log[j].prompts > 0
  }

  lemma LaterOnes(agent: Agent, before: seq<Entry>, e: Entry)
    requires agent.Valid() && before + [e] <= agent.log && e.AgentStart? && Activations(before) == agent.mon.run.activity
    ensures LaterTakeQueued(agent.log, |before|)
  {
    var i := |before|;
    assert agent.log[..i + 1] == before + [e] && Front(before + [e]) == before && Last(before + [e]) == e;
    forall j | i < j < |agent.log| && agent.log[j].AgentStart?
      ensures agent.log[j].from.Some? && agent.log[j].prompts > 0
    {
      LaterFromQueue(agent.log, agent.mon, i, j);
    }
  }

  /** Where a loop invocation may leave the agent. */
  ghost predicate LeftLoop(agent: Agent, exit: Exit)
    reads agent, agent.steeringQueue, agent.followUpQueue
  {
    && agent.Valid()
    && (exit == Completed ==> Running(agent) && agent.mon.stage == Idle)
    && (exit == Threw ==> Running(agent) && agent.mon.stage == Failed0 && agent.mon.flight.count == 0)
    && exit != Continues
  }

  /** The agent_start of a task; only steering-fed runs and continuations that ask for it defer the first look at steering. */
  function Beginning(task: Task, messages: seq<Message>, share: nat): Entry {
    match task
    case Prompts(ms) => AgentStart(messages, |ms|, None, false)
    case FromQueue(queue) => AgentStart(messages, share, Some(queue), queue == Steering)
    case Continuation(deferQueued) => AgentStart(messages, 0, None, deferQueued)
  }

  /** The messages an invocation is given: the caller's, or what it takes from its queue. */
  ghost function Given(agent: Agent, task: Task): seq<InputMessage>
    reads agent, agent.steeringQueue, agent.followUpQueue
  {
    match task
    case Prompts(ms) => ms
    case FromQueue(queue) => agent.Queue(queue).messages[..agent.Queue(queue).View().Share()]
    case Continuation(_) => []
  }

  ghost function FirstEntry(agent: Agent, task: Task): Entry
    reads agent, agent.steeringQueue, agent.followUpQueue
  {
    Beginning(task, agent.messages, |Given(agent, task)|)
  }

  /** Follow-ups start a run only when there is no steering, and what takes no queue must open the activity. */
  ghost predicate Admissible(agent: Agent, task: Task)
    reads agent, agent.steeringQueue, agent.followUpQueue
  {
    if task.FromQueue? then agent.Queue(task.queue).HasItems() && (task.queue == FollowUp ==> !agent.steeringQueue.HasItems())
    else agent.active ==> agent.mon.run.opening
  }

  /** The transcript is the one the invocation began with, and what has ended in it. */
  lemma TranscriptParts(agent: Agent)
    requires agent.Valid()
    ensures agent.messages == agent.initial + agent.mon.totals.transcript
    ensures agent.mon.totals.transcript == agent.mon.run.before + agent.mon.run.ended
  {
    assert Exposed(0);
  }

  /** agent_start is out, and the first turn may open. */
  ghost predicate Begun(agent: Agent, count: nat, skip: bool)
    reads agent, agent.steeringQueue, agent.followUpQueue
  {
    && Running(agent) && agent.mon.stage == Between && agent.mon.turn.first && !agent.mon.turn.mustEnd
    && agent.mon.turn.deferred == skip && agent.mon.flight.count == count
  }

  ghost function FreshRun(agent: Agent): RunPart
    reads agent
  {
    RunPart(agent.mon.run.number + 1, 0, false, agent.mon.totals.transcript, [], agent.messages, 0, agent.mon.run.activity)
  }

  /** agent_start, and the messages the invocation begins with. */
  method Begin(agent: Agent, task: Task) returns (prompts: seq<InputMessage>, skip: bool)
    requires Running(agent) && agent.mon.stage == Idle && Admissible(agent, task)
    modifies agent`log, agent`logs, agent`acts, agent`mon, agent.steeringQueue, agent.followUpQueue
    ensures Begun(agent, |prompts|, skip) && prompts == old(Given(agent, task)) && agent.mon.run == old(FreshRun(agent))
    ensures agent.mon.flight.source.Some? ==> prompts == agent.View().Held()
    ensures old(agent.log) + [old(FirstEntry(agent, task))] in agent.logs && agent.Onward()
  {
    match task {
      case Prompts(messages) =>
        prompts, skip := messages, false;
        BeginWith(agent, |messages|, false);
      case FromQueue(queue) =>
        skip := queue == Steering;
        prompts := BeginFrom(agent, queue);
      case Continuation(deferQueued) =>
        prompts, skip := [], deferQueued;
        BeginWith(agent, 0, deferQueued);
    }
  }

  ghost method BeginWith(agent: Agent, count: nat, skip: bool)
    requires Running(agent) && agent.mon.stage == Idle && agent.mon.run.opening && (count > 0 ==> !skip)
    modifies agent`log, agent`logs, agent`acts, agent`mon
    ensures Begun(agent, count, skip) && agent.mon.run == old(FreshRun(agent)) && agent.mon.flight.source == None
    ensures old(agent.log) + [AgentStart(agent.messages, count, None, skip)] in agent.logs && agent.Onward()
  {
    agent.BeginPrompted(count, skip);
  }

  method BeginFrom(agent: Agent, name: QueueName) returns (prompts: seq<InputMessage>)
    requires Running(agent) && agent.mon.stage == Idle && Admissible(agent, FromQueue(name))
    modifies agent`log, agent`logs, agent`acts, agent`mon, agent.steeringQueue, agent.followUpQueue
    ensures Begun(agent, |prompts|, name == Steering) && agent.mon.run == old(FreshRun(agent))
    ensures prompts == agent.View().Held() == old(Given(agent, FromQueue(name)))
    ensures old(agent.log) + [AgentStart(agent.messages, |prompts|, Some(name), name == Steering)] in agent.logs && agent.Onward()
  {
    prompts := agent.BeginQueued(name);
  }

  /** One loop invocation; it adds to the transcript what it is given, and then what ended in it. */
  method RunTask(agent: Agent, task: Task, turns: nat) returns (exit: Exit)
    requires Running(agent) && agent.mon.stage == Idle && Admissible(agent, task)
    modifies agent, agent.steeringQueue, agent.followUpQueue
    ensures LeftLoop(agent, exit) && agent.mon.run.number == old(agent.mon.run.number) + 1
      && agent.mon.run.activity == old(agent.mon.run.activity)
    ensures old(Given(agent, task)) <= agent.mon.run.ended && agent.messages == old(agent.messages) + agent.mon.run.ended
    ensures exit == Suspended ==> agent.mon.run.turns == turns
    ensures old(agent.log) + [old(FirstEntry(agent, task))] in agent.logs
    ensures agent.Onward()
  {
    TranscriptParts(agent);
    var prompts, skip := Begin(agent, task);
    exit := Invoke(agent, prompts, skip, turns);
    TranscriptParts(agent);
    assert agent.initial + (agent.mon.run.before + agent.mon.run.ended) == agent.initial + agent.mon.run.before + agent.mon.run.ended;
  }

  /** The loop itself, once agent_start is out. */
  method Invoke(agent: Agent, prompts: seq<InputMessage>, skip: bool, turns: nat) returns (exit: Exit)
    requires Running(agent) && agent.mon.stage == Between && agent.mon.turn.first && !agent.mon.turn.mustEnd
      && agent.mon.turn.deferred == skip
    requires agent.mon.run.turns == 0 && agent.mon.run.ended == [] && agent.mon.run.context == agent.messages
    requires agent.mon.flight.count == |prompts| && (agent.mon.flight.source.Some? ==> prompts == agent.View().Held())
    modifies agent, agent.steeringQueue, agent.followUpQueue
    ensures LeftLoop(agent, exit) && agent.Onward() && prompts <= agent.mon.run.ended
    ensures Count(agent.mon) == old(Count(agent.mon)).(turns := agent.mon.run.turns)
      && (exit == Suspended ==> agent.mon.run.turns == turns)
  {
    var loop := new AgentLoop(agent, skip, agent.messages + prompts, prompts);
    exit := loop.RunAgentLoop(prompts, turns);
    assert Entered(0);
  }

  method RecordFailure(agent: Agent, failure: AssistantMessage)
    requires Running(agent) && agent.mon.stage == Failed0 && agent.mon.flight.count == 0
    modifies agent, agent.steeringQueue, agent.followUpQueue
    ensures Running(agent) && agent.mon.stage == Failed2(failure) && SameRun(agent)
    ensures agent.mon.flight.count == 0
    ensures agent.acts == old(agent.acts) + [MessageStart(failure), MessageEnd(failure, Generated)] && agent.Onward()
  {
    agent.Emit(MessageStart(failure));
    agent.Emit(MessageEnd(failure, Generated));
  }

  /** The four events that report a run which could not finish. */
  method HandleRunFailure(agent: Agent)
    requires Running(agent) && agent.mon.stage == Failed0 && agent.mon.flight.count == 0
    modifies agent, agent.steeringQueue, agent.followUpQueue
    ensures Running(agent) && agent.mon.stage == Idle && SameRun(agent)
    ensures var failure := Assistant(0, [], if old(agent.aborted) then Aborted else Error, false);
      agent.acts == old(agent.acts) + [MessageStart(failure), MessageEnd(failure, Generated), TurnEnd(failure, []), AgentEnd([failure])]
    ensures agent.Onward()
  {
    var failure := Assistant(0, [], if agent.aborted then Aborted else Error, false);
    RecordFailure(agent, failure);
    CloseFailure(agent, failure);
  }

  method CloseFailure(agent: Agent, failure: AssistantMessage)
    requires Running(agent) && agent.mon.stage == Failed2(failure) && agent.mon.flight.count == 0
    modifies agent, agent.steeringQueue, agent.followUpQueue
    ensures Running(agent) && agent.mon.stage == Idle && SameRun(agent)
    ensures agent.acts == old(agent.acts) + [TurnEnd(failure, []), AgentEnd([failure])] && agent.Onward()
  {
    agent.Emit(TurnEnd(failure, []));
    agent.Emit(AgentEnd([failure]));
  }

  predicate MayDrain(agent: Agent)
    reads agent, agent.steeringQueue, agent.followUpQueue
  {
    && !agent.aborted && !agent.suppressQueuedMessageDrain && CanDrain(agent.messages)
    && (agent.steeringQueue.HasItems() || agent.followUpQueue.HasItems())
  }

  /** The observer has seen as many further loop invocations, or as many turns of one, as it asked for. */
  ghost predicate Exhausted(agent: Agent, before: nat, budget: Budget)
    reads agent
  {
    agent.mon.run.number == before + 1 + budget.loops || agent.mon.run.turns == budget.turns
  }

  /**
   * One loop invocation, then another for as long as there are queued messages it may drain. Each
   * one but the first begins with messages taken from a queue.
   */
  method RunAndDrain(agent: Agent, task: Task, budget: Budget) returns (exit: Exit)
    requires Running(agent) && agent.mon.stage == Idle && Admissible(agent, task)
    modifies agent, agent.steeringQueue, agent.followUpQueue
    ensures LeftLoop(agent, exit) && (exit == Completed ==> !MayDrain(agent))
    ensures agent.mon.run.number > old(agent.mon.run.number)
    ensures exit == Suspended ==> Exhausted(agent, old(agent.mon.run.number), budget)
    ensures old(agent.log) + [old(FirstEntry(agent, task))] in agent.logs
    ensures old(agent.messages) + old(Given(agent, task)) <= agent.messages
    ensures agent.mon.run.activity == old(agent.mon.run.activity) && LaterTakeQueued(agent.log, |old(agent.log)|)
    ensures agent.Advanced()
  {
    Origins(agent.log, agent.mon);
    exit := RunTask(agent, task, budget.turns);
    var loops := budget.loops;
    while exit == Completed && MayDrain(agent)
      invariant LeftLoop(agent, exit) && agent.Advanced() && agent.mon.run.activity == old(agent.mon.run.activity)
      invariant agent.mon.run.number == old(agent.mon.run.number) + 1 + budget.loops - loops
      invariant exit == Suspended ==> Exhausted(agent, old(agent.mon.run.number), budget)
      invariant old(agent.log) + [old(FirstEntry(agent, task))] in agent.logs
      invariant old(agent.messages) + old(Given(agent, task)) <= agent.messages
      decreases loops
    {
      if loops == 0 {
        exit := Suspended;
        break;
      }
      loops := loops - 1;
      var queue := if agent.steeringQueue.HasItems() then Steering else FollowUp;
      exit := RunTask(agent, FromQueue(queue), budget.turns);
    }
    Recorded(agent, old(agent.log) + [old(FirstEntry(agent, task))]);
    LaterOnes(agent, old(agent.log), old(FirstEntry(agent, task)));
  }

  /** A run from idle to idle; when it completes, queued messages remain only if they had to be parked. */
  method RunWithLifecycle(agent: Agent, task: Task, budget: Budget) returns (exit: Exit)
    requires Resting(agent) && !agent.active && Admissible(agent, task)
    modifies agent, agent.steeringQueue, agent.followUpQueue
    ensures exit != Suspended ==> Resting(agent) && !agent.active && agent.pendingToolCalls == {}
    ensures exit == Completed ==> !MayDrain(agent)
    ensures exit != Continues && agent.mon.run.number > old(agent.mon.run.number)
    ensures exit == Suspended ==> Exhausted(agent, old(agent.mon.run.number), budget)
    ensures agent.Valid() && agent.Advanced() && old(agent.log) + [Activated, old(FirstEntry(agent, task))] <= agent.log
    ensures old(agent.messages) + old(Given(agent, task)) <= agent.messages && LaterTakeQueued(agent.log, |old(agent.log)| + 1)
  {
    ghost var entry := FirstEntry(agent, task);
    agent.Activate();
    Origins(agent.log, agent.mon);
    exit := RunAndDrain(agent, task, budget);
    assert old(agent.log) + [Activated] + [entry] == old(agent.log) + [Activated, entry];
    if exit != Suspended {
      Conclude(agent, exit);
    }
    Recorded(agent, old(agent.log) + [Activated, entry]);
    LaterOnes(agent, old(agent.log) + [Activated], entry);
  }

  /** What the log once was, it still begins with. */
  lemma Recorded(agent: Agent, log: seq<Entry>)
    requires agent.Valid() && log in agent.logs
    ensures log <= agent.log
  {
    assert Recalled(0);
  }

  /** The report of a failure, if there was one, and the return to idle. */
  method Conclude(agent: Agent, exit: Exit)
    requires LeftLoop(agent, exit) && exit != Suspended && (exit == Completed ==> !MayDrain(agent))
    modifies agent, agent.steeringQueue, agent.followUpQueue
    ensures Resting(agent) && !agent.active && agent.pendingToolCalls == {} && (exit == Completed ==> !MayDrain(agent))
    ensures SameRun(agent) && agent.Advanced() && old(agent.messages) <= agent.messages
  {
    LogKept(agent);
    StateFollowsLog(agent);
    Retire(agent, exit);
    MessagesKept(agent, old(agent.log), old(agent.messages));
  }

  method Retire(agent: Agent, exit: Exit)
    requires LeftLoop(agent, exit) && exit != Suspended && (exit == Completed ==> !MayDrain(agent))
    modifies agent, agent.steeringQueue, agent.followUpQueue
    ensures Resting(agent) && !agent.active && agent.pendingToolCalls == {} && (exit == Completed ==> !MayDrain(agent))
    ensures SameRun(agent) && agent.Advanced()
  {
    ReportThrow(agent, exit);
    agent.Finish();
  }

  method ReportThrow(agent: Agent, exit: Exit)
    requires LeftLoop(agent, exit) && exit != Suspended && (exit == Completed ==> !MayDrain(agent))
    modifies agent, agent.steeringQueue, agent.followUpQueue
    ensures Running(agent) && agent.mon.stage == Idle && (exit == Completed ==> !MayDrain(agent))
    ensures SameRun(agent) && agent.Advanced()
  {
    if exit == Threw {
      HandleRunFailure(agent);
    }
  }

  lemma LogKept(agent: Agent)
    requires agent.Valid()
    ensures agent.log in agent.logs
  {
    assert Recalled(0);
  }

  /** A transcript only grows. */
  lemma MessagesKept(agent: Agent, log: seq<Entry>, messages: seq<Message>)
    requires agent.Valid() && log in agent.logs && messages == agent.initial + Ends(log)
    ensures messages <= agent.messages
  {
    Recorded(agent, log);
    StateFollowsLog(agent);
    EndsGrow(log, agent.log[|log|..]);
    assert log + agent.log[|log|..] == agent.log;
  }

  /** During a call the user acted in the awaits alone. */
  lemma Overheard(agent: Agent, before: seq<UserAction>, from: nat)
    requires agent.Valid() && Attended(before, agent.outside, agent.env.user, agent.since, from) && from <= agent.clock
    ensures agent.history == before + DoneBetween(agent.env.user, from, agent.clock)
  {
    AttendedBetween(before, agent.history, agent.outside, agent.env.user, agent.since, from, agent.clock);
  }

  method Prompt(agent: Agent, messages: seq<InputMessage>, budget: Budget) returns (r: Admission)
    requires Resting(agent)
    modifies agent, agent.steeringQueue, agent.followUpQueue
    ensures r == Busy <==> old(agent.active)
    ensures r == Busy ==> agent.View() == old(agent.View()) && agent.log == old(agent.log)
    ensures r.Ran? ==> agent.mon.run.number > old(agent.mon.run.number) && LaterTakeQueued(agent.log, |old(agent.log)| + 1)
    ensures r.Ran? ==> old(agent.messages) + messages <= agent.messages
    ensures r.Ran? ==> old(agent.log) + [Activated, AgentStart(old(agent.messages), |messages|, None, false)] <= agent.log
    ensures r.Ran? && r.exit != Suspended ==> Resting(agent) && !agent.active && agent.pendingToolCalls == {}
    ensures r.Ran? && r.exit == Suspended ==> Exhausted(agent, old(agent.mon.run.number), budget)
    ensures agent.Valid() && agent.history == old(agent.history) + DoneBetween(agent.env.user, old(agent.clock), agent.clock)
  {
    if agent.active { return Busy; }
    var exit := RunWithLifecycle(agent, Prompts(messages), budget);
    Overheard(agent, old(agent.history), old(agent.clock));
    return Ran(exit);
  }

  /** What continues a transcript: queued input when the last message is a reply, the transcript itself otherwise. */
  function Resumption(agent: Agent, deferQueued: bool): Task
    requires agent.messages != []
    reads agent, agent.steeringQueue, agent.followUpQueue
  {
    if !agent.messages[|agent.messages| - 1].Assistant? then Continuation(deferQueued)
    else FromQueue(if agent.steeringQueue.HasItems() then Steering else FollowUp)
  }

  method Continue(agent: Agent, deferQueued: bool, budget: Budget) returns (r: Admission)
    requires Resting(agent)
    modifies agent, agent.steeringQueue, agent.followUpQueue
    ensures r == Busy <==> old(agent.active)
    ensures r == NoMessages <==> !old(agent.active) && old(agent.messages) == []
    ensures r == WrongRole <==>
      && !old(agent.active) && old(agent.messages) != [] && old(agent.messages)[|old(agent.messages)| - 1].Assistant?
      && !old(agent.steeringQueue.HasItems()) && !old(agent.followUpQueue.HasItems())
    ensures !r.Ran? ==> agent.View() == old(agent.View()) && agent.log == old(agent.log)
    ensures r.Ran? ==> agent.mon.run.number > old(agent.mon.run.number) && LaterTakeQueued(agent.log, |old(agent.log)| + 1)
    ensures r.Ran? ==> old(agent.messages) + old(Given(agent, Resumption(agent, deferQueued))) <= agent.messages
    ensures r.Ran? ==> old(agent.log) + [Activated, old(FirstEntry(agent, Resumption(agent, deferQueued)))] <= agent.log
    ensures r.Ran? && r.exit != Suspended ==> Resting(agent) && !agent.active && agent.pendingToolCalls == {}
    ensures r.Ran? && r.exit == Suspended ==> Exhausted(agent, old(agent.mon.run.number), budget)
    ensures agent.Valid() && agent.history == old(agent.history) + DoneBetween(agent.env.user, old(agent.clock), agent.clock)
  {
    if agent.active { return Busy; }
    if |agent.messages| == 0 { return NoMessages; }
    var task := Continuation(deferQueued);
    if agent.messages[|agent.messages| - 1].Assistant? {
      if agent.steeringQueue.HasItems() {
        task := FromQueue(Steering);
      } else if agent.followUpQueue.HasItems() {
        task := FromQueue(FollowUp);
      } else {
        return WrongRole;
      }
    }
    var exit := RunWithLifecycle(agent, task, budget);
    Overheard(agent, old(agent.history), old(agent.clock));
    return Ran(exit);
  }

  /** Queued input first, whatever the last message is. */
  method ContinueWithQueuedMessages(agent: Agent, deferQueued: bool, budget: Budget) returns (r: Admission)
    requires Resting(agent)
    modifies agent, agent.steeringQueue, agent.followUpQueue
    ensures r == Busy <==> old(agent.active)
    ensures !old(agent.active) && (old(agent.steeringQueue.HasItems()) || old(agent.followUpQueue.HasItems())) ==> r.Ran?
    ensures !r.Ran? ==> agent.View() == old(agent.View()) && agent.log == old(agent.log)
    ensures r.Ran? ==> agent.mon.run.number > old(agent.mon.run.number) && LaterTakeQueued(agent.log, |old(agent.log)| + 1)
    ensures r.Ran? ==> old(agent.messages) + old(Given(agent, QueuedFirst(agent, deferQueued))) <= agent.messages
    ensures r.Ran? ==> old(agent.log) + [Activated, old(FirstEntry(agent, QueuedFirst(agent, deferQueued)))] <= agent.log
    ensures r.Ran? && r.exit != Suspended ==> Resting(agent) && !agent.active && agent.pendingToolCalls == {}
    ensures r.Ran? && r.exit == Suspended ==> Exhausted(agent, old(agent.mon.run.number), budget)
    ensures agent.Valid() && agent.history == old(agent.history) + DoneBetween(agent.env.user, old(agent.clock), agent.clock)
  {
    if agent.active { return Busy; }
    if |agent.messages| > 0 && agent.messages[|agent.messages| - 1].Assistant? {
      r := Continue(agent, deferQueued, budget);
      return;
    }
    if !agent.steeringQueue.HasItems() && !agent.followUpQueue.HasItems() {
      r := Continue(agent, deferQueued, budget);
      return;
    }
    var queue := if agent.steeringQueue.HasItems() then Steering else FollowUp;
    var exit := RunWithLifecycle(agent, FromQueue(queue), budget);
    Overheard(agent, old(agent.history), old(agent.clock));
    return Ran(exit);
  }

  function QueuedFirst(agent: Agent, deferQueued: bool): Task
    reads agent, agent.steeringQueue, agent.followUpQueue
  {
    if agent.steeringQueue.HasItems() then FromQueue(Steering)
    else if agent.followUpQueue.HasItems() then FromQueue(FollowUp)
    else Continuation(deferQueued)
  }

  /** Every message_end that carries a ticket carries the message the user queued under it. */
  lemma InjectedAsQueued(agent: Agent, i: nat)
    requires agent.Valid() && i < |agent.log| && agent.log[i].MessageEnd? && agent.log[i].origin.Queued?
    ensures var o, sent := agent.log[i].origin, Submitted(agent.history, agent.log[i].origin.queue);
      o.ticket < |sent| && agent.log[i].message == sent[o.ticket]
  {
    var name := agent.log[i].origin.queue;
    assert Replayed(0) && Exposed(0) && Credited(0) && Remembered(0);
    LogSummary(agent.log);
    DeliveryLogged(agent.log, i, name);
  }

  /** The tickets delivered from a queue, read off the log, are the ledger's. */
  lemma TicketsDelivered(agent: Agent, name: QueueName)
    requires agent.Valid()
    ensures agent.Queue(name).ledger.delivered == Tickets(agent.log, name)
  {
    assert Replayed(0) && Exposed(0) && Credited(0);
    LogSummary(agent.log);
    TicketsOfDeliveries(agent.log, name);
  }

  /** The transcript is the initial one and every message_end payload; pending ids are those of open calls. */
  lemma StateFollowsLog(agent: Agent)
    requires agent.Valid()
    ensures agent.messages == agent.initial + Ends(agent.log)
    ensures agent.pendingToolCalls == PendingIds(agent.log)
  {
    assert Replayed(0) && Exposed(0);
    LogSummary(agent.log);
    ToolSummary(agent.log);
  }

  /**
   * Between runs, what the user ever queued has been injected, or it is still queued, or the user
   * has cleared the queue since. `kept` are the positions of what is queued: all that came after
   * the last clear and were not injected. They are in order and come after every injected one.
   */
  lemma IdleAgentConserves(agent: Agent, name: QueueName) returns (kept: seq<nat>)
    requires agent.Valid() && agent.mon.stage == Idle
    ensures var sent, cut, injected := Submitted(agent.history, name), ClearedUpTo(agent.history, name), Tickets(agent.log, name);
      && Increasing(injected + kept) && Below(injected, |sent|)
      && (forall t: nat :: t in kept <==> cut <= t < |sent| && t !in injected)
      && (forall t: nat :: t in agent.Queue(name).ledger.dropped <==> t < cut && t !in injected)
      && |agent.Queue(name).messages| == |kept|
      && (forall i | 0 <= i < |kept| :: kept[i] < |sent| && agent.Queue(name).messages[i] == sent[kept[i]])
  {
    TicketsDelivered(agent, name);
    agent.View().IdleSettles(name);
    kept := agent.Queue(name).ledger.queued;
  }

  /**
   * When no provider stream starts its message twice, every request of the agent carries the
   * installed context and exactly what has ended since; without a replacement that is the whole
   * transcript. Messages start and end by turns.
   */
  lemma SingleStreamsAgree(agent: Agent, i: nat)
    requires agent.Valid() && SingleStreams(agent.env) && i < |agent.log| && agent.log[i].Requested?
    ensures agent.log[i].sent == Installed(agent.log[..i])
    ensures !Replaced(agent.log[..i]) ==> agent.log[i].sent == agent.initial + Ends(agent.log[..i])
    ensures Alternates(MessageMarks(agent.log))
  {
    NoDoubles(agent);
    MessagesAlternate(agent.log, agent.mon);
    SingleRequests(agent.log, agent.mon, i);
    if !Replaced(agent.log[..i]) {
      LawfulAt(agent.log, agent.mon, i);
      NeverRestartedAt(agent.log, i);
      RequestsCarryEverything(agent.log[..i], agent.log[i].sent);
      FirstIsInitial(agent, i);
    }
  }

  lemma NoDoubles(agent: Agent)
    requires agent.Valid() && SingleStreams(agent.env)
    ensures Doubles(agent.log) == 0
  {
    LawfulSummary(agent.log, agent.mon);
  }

  lemma NeverRestartedAt(log: seq<Entry>, i: nat)
    requires Doubles(log) == 0 && i <= |log|
    ensures !Restarted(log[..i])
  {
    DoublesGrow(log, i);
    NeverRestarted(log[..i]);
  }

  /** The first loop invocation began with the transcript the agent was created with. */
  lemma FirstIsInitial(agent: Agent, i: nat)
    requires agent.Valid() && i <= |agent.log| && FirstContext(agent.log[..i]).Some?
    ensures FirstContext(agent.log[..i]).value == agent.initial
  {
    assert Exposed(0);
    Origins(agent.log, agent.mon);
    FirstStays(agent.log[..i], agent.log[i..]);
    assert agent.log[..i] + agent.log[i..] == agent.log;
  }
}
