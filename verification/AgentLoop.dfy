/**
 * runLoop of packages/agent/src/agent-loop.ts with the loop configuration that Agent builds for
 * it. Each call on the agent carries its own proof obligation: the entry it records must be
 * allowed by the protocol in the state reached.
 */
module AgentLoop {
  import opened Wrappers
  import opened AgentProtocol
  import opened PendingMessages
  import opened UserHistory
  import opened AgentState
  import opened ToolBatch
  import opened ToolScheduling

  function Normalized(m: AssistantMessage, failure: Option<StopReason>): AssistantMessage {
    if failure.Some? then m.(stop := failure.value) else m
  }

  /** The message that stands in for a response that could not be read to its end. */
  function FailureMessage(partial: Option<AssistantMessage>, aborted: bool): AssistantMessage {
    var stop := if aborted then Aborted else Error;
    if partial.Some? then Assistant(partial.value.body, partial.value.calls, stop, false) else Assistant(0, [], stop, false)
  }

  /** The partial message: the last start or, once there is one, the last delta. */
  function NextPartial(partial: Option<AssistantMessage>, event: StreamEvent): Option<AssistantMessage> {
    match event
    case Start(p) => Some(p)
    case Delta(p) => if partial.Some? then Some(p) else None
    case Ended(_) => partial
  }

  function PartialAfter(events: seq<StreamEvent>): Option<AssistantMessage> {
    if events == [] then None else NextPartial(PartialAfter(events[..|events| - 1]), events[|events| - 1])
  }

  function Shown(partial: Option<AssistantMessage>): seq<Message> {
    if partial.Some? then [partial.value] else []
  }

  /** What starting again leaves in the context: before each start after the first, the partial message there was. */
  function Leftovers(events: seq<StreamEvent>): seq<Message> {
    if events == [] then []
    else
      var before := events[..|events| - 1];
      Leftovers(before) + if events[|events| - 1].Start? then Shown(PartialAfter(before)) else []
  }

  /** There is one such message for each start event after the first. */
  lemma {:induction false} LeftoversCount(events: seq<StreamEvent>)
    ensures |Leftovers(events)| == (if Starts(events) == 0 then 0 else Starts(events) - 1)
    ensures PartialAfter(events).Some? <==> Starts(events) > 0
  {
    if events != [] {
      LeftoversCount(events[..|events| - 1]);
    }
  }

  function WithLeftovers(r: RunPart, left: seq<Message>): RunPart {
    if left == [] then r else r.(context := r.context + left, restarts := r.restarts + |left|)
  }

  lemma LeftoversStep(r: RunPart, events: seq<StreamEvent>, i: nat)
    requires i < |events|
    ensures WithLeftovers(r, Leftovers(events[..i + 1]))
      == WithLeftovers(WithLeftovers(r, Leftovers(events[..i])), if events[i].Start? then Shown(PartialAfter(events[..i])) else [])
  {
    assert events[..i + 1][..i] == events[..i];
    var left, more := Leftovers(events[..i]), if events[i].Start? then Shown(PartialAfter(events[..i])) else [];
    assert r.context + left + more == r.context + (left + more);
  }

  /** `read` events were read, none of them terminal. */
  predicate Read(events: seq<StreamEvent>, read: nat, partial: Option<AssistantMessage>) {
    read <= |events| && (forall i | 0 <= i < read :: !events[i].Ended?) && partial == PartialAfter(events[..read])
  }

  lemma ReadOne(events: seq<StreamEvent>, read: nat, partial: Option<AssistantMessage>)
    requires Read(events, read, partial) && read < |events| && !events[read].Ended?
    ensures Read(events, read + 1, NextPartial(partial, events[read]))
  {
    assert events[..read + 1][..read] == events[..read];
  }

  /** A second start event shows that the streams are not single. */
  lemma StartsTwice(env: Environment, at: nat, read: nat, partial: Option<AssistantMessage>)
    requires Read(env.response(at).events, read, partial) && partial.Some?
    requires read < |env.response(at).events| && env.response(at).events[read].Start?
    ensures !SingleStreams(env)
  {
    LeftoversCount(env.response(at).events[..read]);
    StartsStep(env.response(at).events, read);
  }

  /**
   * The message a response comes to: `read` events were read, `cut` if the reader saw an abort, and
   * `aborted` is the signal when a failure was put into a message.
   */
  predicate FinalMessage(r: Response, read: nat, cut: bool, aborted: bool, m: AssistantMessage) {
    if !r.opens then read == 0 && m == FailureMessage(None, aborted)
    else
      && read <= |r.events| && (forall i | 0 <= i < read :: !r.events[i].Ended?)
      && var partial := PartialAfter(r.events[..read]);
      if cut then aborted && m == FailureMessage(partial, true)
      else if read < |r.events| then
        r.events[read].Ended? && m == if r.result.Some? then Normalized(r.result.value, r.events[read].failure) else FailureMessage(partial, aborted)
      else m == if !r.breaks && r.result.Some? then r.result.value else FailureMessage(partial, aborted)
  }

  /** Every check that keeps a call from being executed, in one place. */
  predicate PassesPreflight(call: ToolCall, p: Preflight, aborted: bool) {
    !call.incomplete && p.known && p.valid && (p.hook == NoHook || p.hook == Passes) && !aborted
  }

  /** The tool's own outcome, then the after hook's overrides; what throws is an error that does not terminate. */
  function Finalize(x: Execution): Finalized {
    var result := if x.fails then Finalized(x.body, true, false) else Finalized(x.body, false, x.terminate);
    match x.hook
    case Unchanged => result
    case AfterThrows => FAILED
    case Overrides(body, isError, terminate) =>
      Finalized(body.GetOr(result.body), isError.GetOr(result.isError), terminate.GetOr(result.terminate))
  }

  /** What call k of the batch begun at a clock comes to: what its tool and hook made of it, or an error if it was never executed. */
  function OutcomeOf(env: Environment, begun: nat, k: nat, executed: bool): Finalized {
    if executed then Finalize(env.execution(begun, k)) else FAILED
  }

  function ResultMessage(call: ToolCall, f: Finalized): Message {
    ToolResult(call.id, f.body, f.isError)
  }

  predicate Unlocked(k: nat) { true }

  predicate Entered(k: nat) { true }

  /** How a part of the loop ends; `Suspended` when the observer's turn budget is used up. */
  datatype Exit = Continues | Completed | Threw | Suspended

  /** Which invocation of which activity this is, how many of its turns have ended, and what had ended before it. */
  datatype Tally = Tally(invocation: nat, activity: nat, turns: nat, before: seq<Message>)

  function Count(m: Monitor): Tally {
    Tally(m.run.number, m.run.activity, m.run.turns, m.run.before)
  }

  function OneMoreTurn(t: Tally): Tally {
    t.(turns := t.turns + 1)
  }

  /** The run after a message has ended. */
  function Joined(r: RunPart, message: Message): RunPart {
    r.(ended := r.ended + [message], context := r.context + [message])
  }

  lemma JoinedAfter(r: RunPart, left: seq<Message>, message: Message)
    ensures var n := Joined(WithLeftovers(r, left), message);
      n.context == r.context + left + [message] && n.ended == r.ended + [message]
  {
    assert r.context + [] == r.context;
  }

  lemma TakenOne(before: seq<Message>, messages: seq<InputMessage>, i: nat)
    requires i < |messages|
    ensures before + messages[..i + 1] == before + messages[..i] + [messages[i]]
    ensures messages[i..][1..] == messages[i + 1..]
  {
  }

  /** The run after messages have ended. */
  function JoinedAll(r: RunPart, messages: seq<Message>): RunPart {
    r.(ended := r.ended + messages, context := r.context + messages)
  }

  lemma JoinedOne(r: RunPart, messages: seq<Message>, i: nat)
    requires i < |messages|
    ensures JoinedAll(r, messages[..i + 1]) == Joined(JoinedAll(r, messages[..i]), messages[i])
  {
    var before := messages[..i];
    assert messages[..i + 1] == before + [messages[i]];
    assert r.ended + (before + [messages[i]]) == r.ended + before + [messages[i]];
    assert r.context + (before + [messages[i]]) == r.context + before + [messages[i]];
  }

  /** The protocol state apart from the batch, its messages and the abort signal. */
  function Outside(m: Monitor): (RunPart, Turn) {
    (m.run.(ended := [], context := []), m.turn.(batch := NO_BATCH))
  }

  function WithOneMore(b: Batch): Batch {
    b.(started := b.started + 1, running := b.running + {b.started})
  }

  function WithResult(t: Turn, result: Message): Turn {
    t.(batch := t.batch.(results := t.batch.results + [result]))
  }

  lemma ToolStartAllowed(m: Monitor, k: nat)
    requires m.stage == Answering && m.turn.batch.mode.Some? && k == m.turn.batch.started < |Calls(m.turn)|
    requires |m.turn.batch.results| == if m.turn.batch.mode == Some(Parallel) then 0 else k
    requires MayLaunch(m.turn.batch, k, m.aborted)
    ensures var e := ToolStart(k, Calls(m.turn)[k].id);
      && Allowed(m, e) && After(m, e).stage == Answering && After(m, e).flight == m.flight && After(m, e).run == m.run
      && After(m, e).turn == m.turn.(batch := WithOneMore(m.turn.batch))
  {
  }

  function Furnished(r: RunPart, replacement: Option<seq<Message>>): RunPart {
    if replacement.Some? then r.(context := replacement.value, restarts := 0) else r
  }

  lemma PreparedLeads(m: Monitor, replacement: Option<seq<Message>>)
    requires Allowed(m, Prepared(true, None))
    ensures Leads(m, Prepared(true, replacement), m.(run := Furnished(m.run, replacement), turn := m.turn.(prepared := true, mustEnd := m.aborted)))
    ensures m.stage == Between
  {
  }

  lemma BatchLeads(m: Monitor, mode: BatchMode)
    requires m.stage == Answering && m.turn.batch == NO_BATCH && Calls(m.turn) != [] && !Terminal(m.turn.reply)
    requires mode == Truncated <==> m.turn.reply.Assistant? && m.turn.reply.stop == Length
    ensures Leads(m, BatchBegun(mode), m.(turn := m.turn.(batch := NO_BATCH.(mode := Some(mode)))))
  {
  }

  lemma RequestedLeads(m: Monitor)
    requires m.stage.TurnOpen? && m.flight.count == 0 && m.turn.polls != NotPolled
    ensures Leads(m, Requested(m.run.context), m.(stage := Awaiting, turn := m.turn.(polls := NotPolled)))
  {
  }

  class AgentLoop {
    const agent: Agent
    var skipInitialSteeringPoll: bool
    var steeringQueueGeneration: nat
    var followUpQueueGeneration: nat
    var pendingMessages: seq<InputMessage>
    var drainedTerminatingQueue: Option<QueueName>
    var context: seq<Message>
    var newMessages: seq<Message>

    /** createLoopConfig and the locals of runLoop. */
    constructor (agent: Agent, skipInitialSteeringPoll: bool, context: seq<Message>, newMessages: seq<Message>)
      ensures this.agent == agent && this.context == context && this.newMessages == newMessages
      ensures this.skipInitialSteeringPoll == skipInitialSteeringPoll && pendingMessages == [] && drainedTerminatingQueue == None
    {
      this.agent := agent;
      this.skipInitialSteeringPoll := skipInitialSteeringPoll;
      steeringQueueGeneration := agent.steeringQueue.clearGeneration;
      followUpQueueGeneration := agent.followUpQueue.clearGeneration;
      pendingMessages, drainedTerminatingQueue := [], None;
      this.context, this.newMessages := context, newMessages;
    }

    function Generation(name: QueueName): nat
      reads this
    {
      if name == Steering then steeringQueueGeneration else followUpQueueGeneration
    }

    /** The loop's transcripts agree with what was observed. */
    ghost predicate Transcribed()
      reads this, agent, agent.steeringQueue, agent.followUpQueue
    {
      && agent.Valid() && agent.active && agent.mon.aborted == agent.aborted
      && newMessages == agent.mon.run.ended && context == agent.mon.run.context
      && skipInitialSteeringPoll == agent.mon.turn.deferred
    }

    /** The loop holds exactly the messages in flight, and can give terminating ones back. */
    ghost predicate Holding()
      requires agent.Valid()
      reads this, agent, agent.steeringQueue, agent.followUpQueue
    {
      && |pendingMessages| == agent.mon.flight.count
      && (pendingMessages != [] ==> agent.mon.flight.source.Some? && pendingMessages == agent.View().Held())
      && (drainedTerminatingQueue.Some? ==>
            && agent.mon.flight.source == drainedTerminatingQueue && pendingMessages == agent.View().Held()
            && Generation(drainedTerminatingQueue.value) == agent.Queue(drainedTerminatingQueue.value).takenAt)
    }

    /** Guarded: only proofs that mention `Entered` look inside. */
    ghost predicate Valid()
      reads this, agent, agent.steeringQueue, agent.followUpQueue
    {
      forall k: nat {:trigger Entered(k)} :: Entered(k) ==> Transcribed() && Holding()
    }

    method GetSteeringMessages() returns (drained: seq<InputMessage>)
      requires Transcribed() && MayPoll(agent.mon)
      modifies this`skipInitialSteeringPoll, this`steeringQueueGeneration, agent, agent.steeringQueue, agent.followUpQueue
      ensures Transcribed() && agent.mon.stage == old(agent.mon.stage) && agent.mon.run == old(agent.mon.run)
      ensures agent.mon.turn == old(agent.mon.turn).(polls := if drained == [] then SteeringEmpty else Found, deferred := false)
      ensures agent.mon.flight.count == |drained| && agent.Onward()
      ensures drained != [] ==> agent.mon.flight.source == Some(Steering) && drained == agent.View().Held()
      ensures drained != [] ==> steeringQueueGeneration == agent.steeringQueue.takenAt
    {
      if skipInitialSteeringPoll {
        skipInitialSteeringPoll := false;
        agent.DeferPoll();
        return [];
      }
      drained := PollSteering();
    }

    method PollSteering() returns (drained: seq<InputMessage>)
      requires Transcribed() && MayPoll(agent.mon) && !skipInitialSteeringPoll
      modifies this`steeringQueueGeneration, agent, agent.steeringQueue, agent.followUpQueue
      ensures Transcribed() && agent.mon.stage == old(agent.mon.stage) && agent.mon.run == old(agent.mon.run)
      ensures agent.mon.turn == old(agent.mon.turn).(polls := if drained == [] then SteeringEmpty else Found)
      ensures agent.mon.flight.count == |drained| && agent.Onward()
      ensures drained != [] ==> agent.mon.flight.source == Some(Steering) && drained == agent.View().Held()
      ensures drained != [] ==> steeringQueueGeneration == agent.steeringQueue.takenAt
    {
      drained, steeringQueueGeneration := agent.Poll(Steering);
    }

    method GetFollowUpMessages() returns (drained: seq<InputMessage>)
      requires Transcribed() && MayPoll(agent.mon) && !skipInitialSteeringPoll && agent.mon.turn.polls == SteeringEmpty
        && !agent.mon.turn.more
      modifies this`followUpQueueGeneration, agent, agent.steeringQueue, agent.followUpQueue
      ensures Transcribed() && agent.mon.stage == old(agent.mon.stage) && agent.mon.run == old(agent.mon.run)
      ensures agent.mon.turn == old(agent.mon.turn).(polls := if drained == [] then BothEmpty else Found)
      ensures agent.mon.flight.count == |drained| && agent.Onward()
      ensures drained != [] ==> agent.mon.flight.source == Some(FollowUp) && drained == agent.View().Held()
      ensures drained != [] ==> followUpQueueGeneration == agent.followUpQueue.takenAt
    {
      drained, followUpQueueGeneration := agent.Poll(FollowUp);
    }

    /** restorePendingMessages for the queue that was drained when the tools asked to stop. */
    method RestorePending()
      requires Valid() && drainedTerminatingQueue.Some? && Allowed(agent.mon, Restored)
      modifies agent, agent.steeringQueue, agent.followUpQueue
      ensures Transcribed() && agent.mon.stage == old(agent.mon.stage) && agent.mon.run == old(agent.mon.run)
      ensures agent.mon.turn == old(agent.mon.turn).(polls := NotPolled)
      ensures agent.mon.flight == Flight(drainedTerminatingQueue, 0) && agent.Onward()
    {
      assert Entered(0);
      var name := drainedTerminatingQueue.value;
      agent.Restore(name, pendingMessages, Generation(name));
    }

    /** After a terminating batch: steering first, follow-ups only when there is no steering. */
    method PollTerminating()
      requires Transcribed() && MayPoll(agent.mon) && !agent.mon.turn.more && !skipInitialSteeringPoll
      modifies this`pendingMessages, this`drainedTerminatingQueue, this`skipInitialSteeringPoll,
        this`steeringQueueGeneration, this`followUpQueueGeneration, agent, agent.steeringQueue, agent.followUpQueue
      ensures Valid() && agent.mon.stage == old(agent.mon.stage) && agent.mon.run == old(agent.mon.run)
      ensures agent.mon.turn == old(agent.mon.turn).(polls := if pendingMessages == [] then BothEmpty else Found)
      ensures (pendingMessages != [] <==> drainedTerminatingQueue.Some?) && agent.Onward() && !skipInitialSteeringPoll
    {
      pendingMessages := GetSteeringMessages();
      drainedTerminatingQueue := if |pendingMessages| > 0 then Some(Steering) else None;
      if |pendingMessages| == 0 {
        PollTerminatingFollowUps();
      }
    }

    method PollTerminatingFollowUps()
      requires Transcribed() && MayPoll(agent.mon) && !agent.mon.turn.more && !skipInitialSteeringPoll
      requires agent.mon.turn.polls == SteeringEmpty
      modifies this`pendingMessages, this`drainedTerminatingQueue, this`followUpQueueGeneration,
        agent, agent.steeringQueue, agent.followUpQueue
      ensures Valid() && agent.mon.stage == old(agent.mon.stage) && agent.mon.run == old(agent.mon.run)
      ensures agent.mon.turn == old(agent.mon.turn).(polls := if pendingMessages == [] then BothEmpty else Found)
      ensures (pendingMessages != [] <==> drainedTerminatingQueue.Some?) && agent.Onward()
    {
      pendingMessages := GetFollowUpMessages();
      drainedTerminatingQueue := if |pendingMessages| > 0 then Some(FollowUp) else None;
    }

    /** Gives the terminating messages back and polls afresh. */
    method RefreshTerminatingQueueDrain()
      requires Valid() && drainedTerminatingQueue.Some? && !agent.mon.turn.more && !agent.mon.turn.mustEnd
        && !skipInitialSteeringPoll
      requires agent.mon.stage == TurnOpen(true) || (agent.mon.stage == Between && agent.mon.turn.asked)
      modifies this`pendingMessages, this`drainedTerminatingQueue, this`skipInitialSteeringPoll,
        this`steeringQueueGeneration, this`followUpQueueGeneration, agent, agent.steeringQueue, agent.followUpQueue
      ensures Valid() && agent.mon.stage == old(agent.mon.stage) && agent.mon.run == old(agent.mon.run)
      ensures agent.mon.turn == old(agent.mon.turn).(polls := if pendingMessages == [] then BothEmpty else Found)
      ensures (pendingMessages != [] <==> drainedTerminatingQueue.Some?) && agent.Onward() && !skipInitialSteeringPoll
    {
      assert Entered(0);
      RestorePending();
      PollTerminating();
    }

    method InjectNext(message: InputMessage)
      requires Transcribed() && agent.mon.stage.TurnOpen? && 0 < agent.mon.flight.count
      requires agent.mon.flight.source.Some? && agent.View().Held()[0] == message
      modifies this`context, this`newMessages, agent, agent.steeringQueue, agent.followUpQueue
      ensures Transcribed() && agent.mon.stage.TurnOpen? && agent.mon.turn == old(agent.mon.turn) && agent.Onward()
      ensures agent.mon.flight == Flight(old(agent.mon.flight.source), old(agent.mon.flight.count) - 1)
      ensures agent.View().Held() == old(agent.View().Held())[1..] && newMessages == old(newMessages) + [message]
      ensures Count(agent.mon) == old(Count(agent.mon))
    {
      agent.Inject(message);
      context := context + [message];
      newMessages := newMessages + [message];
    }

    /** Injects the pending messages into transcript and context. */
    method InjectPending()
      requires Valid() && agent.mon.stage.TurnOpen? && drainedTerminatingQueue == None
      modifies this`pendingMessages, this`context, this`newMessages, agent, agent.steeringQueue, agent.followUpQueue
      ensures Valid() && pendingMessages == [] && agent.mon.stage.TurnOpen? && agent.mon.turn == old(agent.mon.turn)
      ensures agent.Onward() && newMessages == old(newMessages) + old(pendingMessages)
      ensures Count(agent.mon) == old(Count(agent.mon))
    {
      assert Entered(0);
      for i := 0 to |pendingMessages|
        invariant Transcribed() && agent.mon.stage.TurnOpen? && agent.mon.turn == old(agent.mon.turn)
        invariant pendingMessages == old(pendingMessages)
        invariant agent.mon.flight.count == |pendingMessages| - i
        invariant i < |pendingMessages| ==> agent.mon.flight.source.Some? && agent.View().Held() == pendingMessages[i..]
        invariant agent.Onward() && newMessages == old(newMessages) + pendingMessages[..i]
        invariant Count(agent.mon) == old(Count(agent.mon))
      {
        InjectNext(pendingMessages[i]);
        TakenOne(old(newMessages), pendingMessages, i);
      }
      pendingMessages := [];
    }

    /** While a response streams, its partial message is the last context entry. */
    ghost predicate Receiving(partial: Option<AssistantMessage>)
      reads this, agent, agent.steeringQueue, agent.followUpQueue
    {
      && agent.Valid() && agent.active && agent.mon.aborted == agent.aborted && newMessages == agent.mon.run.ended
      && agent.mon.stage == (if partial.Some? then Streaming(partial.value) else Awaiting)
      && context == agent.mon.run.context + Shown(partial)
    }

    /** What a streaming response leaves alone; `left` is what it has left in the context. */
    twostate predicate OnlyStreams(left: seq<Message>)
      reads this, agent
    {
      && agent.Onward() && agent.mon.run == WithLeftovers(old(agent.mon.run), left)
      && agent.mon.turn == old(agent.mon.turn) && agent.mon.flight == old(agent.mon.flight)
    }

    method ReceiveStart(next: AssistantMessage, partial: Option<AssistantMessage>)
      requires Receiving(partial) && (partial.Some? ==> !SingleStreams(agent.env))
      modifies this`context, agent, agent.steeringQueue, agent.followUpQueue
      ensures Receiving(Some(next)) && OnlyStreams(Shown(partial))
    {
      context := context + [next];
      agent.Emit(MessageStart(next));
    }

    method ReceiveDelta(next: AssistantMessage, partial: AssistantMessage)
      requires Receiving(Some(partial)) && !agent.aborted
      modifies this`context, agent, agent.steeringQueue, agent.followUpQueue
      ensures Receiving(Some(next)) && OnlyStreams([])
    {
      context := context[|context| - 1 := next];
      agent.Emit(MessageUpdate(next));
    }

    /** Installs the final message: exactly one message_end, and a message_start if there was none. */
    method FinishResponse(message: AssistantMessage, partial: Option<AssistantMessage>)
      requires Receiving(partial)
      modifies this`context, agent, agent.steeringQueue, agent.followUpQueue
      ensures agent.Valid() && agent.active && agent.mon.aborted == agent.aborted && agent.mon.stage == Answering
      ensures agent.mon.run == Joined(old(agent.mon.run), message) && context == agent.mon.run.context
      ensures agent.mon.turn == old(agent.mon).turn.(reply := message, batch := NO_BATCH)
      ensures agent.mon.flight == old(agent.mon.flight) && agent.Onward()
    {
      InstallReply(message, partial);
      agent.Emit(MessageEnd(message, Generated));
    }

    /** The message takes the place of its partial, or the next place. */
    method InstallReply(message: AssistantMessage, partial: Option<AssistantMessage>)
      requires agent.Valid() && agent.active && agent.mon.aborted == agent.aborted
      requires agent.mon.stage == (if partial.Some? then Streaming(partial.value) else Awaiting)
      requires context == agent.mon.run.context + Shown(partial)
      modifies this`context, agent, agent.steeringQueue, agent.followUpQueue
      ensures agent.Valid() && agent.active && agent.Onward() && agent.mon.stage.Streaming?
      ensures agent.mon == old(agent.mon).(stage := agent.mon.stage, aborted := agent.aborted)
      ensures context == agent.mon.run.context + [message]
    {
      if partial.Some? {
        context := context[|context| - 1 := message];
      } else {
        context := context + [message];
        AnnounceReply(message);
      }
    }

    /** message_start for a reply that never started in its stream. */
    method AnnounceReply(message: AssistantMessage)
      requires agent.Valid() && agent.active && agent.mon.aborted == agent.aborted && agent.mon.stage == Awaiting
      modifies agent, agent.steeringQueue, agent.followUpQueue
      ensures agent.Valid() && agent.active && agent.Onward()
      ensures agent.mon == old(agent.mon).(stage := Streaming(message), aborted := agent.aborted)
    {
      agent.Emit(MessageStart(message));
    }

    /** An await while a response streams. */
    method AwaitReading(ghost partial: Option<AssistantMessage>)
      requires Receiving(partial)
      modifies agent, agent.steeringQueue, agent.followUpQueue
      ensures Receiving(partial) && OnlyStreams([])
    {
      agent.Await();
    }

    /** Handles one event; a terminal one waits for the stream's result, and yields the final message. */
    method ReadEvent(event: StreamEvent, result: Option<AssistantMessage>, partial: Option<AssistantMessage>)
      returns (next: Option<AssistantMessage>, message: Option<AssistantMessage>)
      requires Receiving(partial) && !agent.aborted
      requires event.Start? && partial.Some? ==> !SingleStreams(agent.env)
      modifies this`context, agent, agent.steeringQueue, agent.followUpQueue
      ensures Receiving(next) && OnlyStreams(if event.Start? then Shown(partial) else [])
      ensures next == NextPartial(partial, event) && (message == None <==> !event.Ended?)
      ensures event.Ended? ==>
        message == Some(if result.Some? then Normalized(result.value, event.failure) else FailureMessage(partial, agent.aborted))
    {
      next, message := NextPartial(partial, event), None;
      if event.Start? {
        ReceiveStart(event.partial, partial);
      } else if event.Delta? {
        if partial.Some? {
          ReceiveDelta(event.partial, partial.value);
        }
      } else {
        AwaitReading(partial);
        message := Some(if result.Some? then Normalized(result.value, event.failure) else FailureMessage(partial, agent.aborted));
      }
    }

    /** Waits for an event and handles it, unless an abort has been seen meanwhile. */
    method NextEvent(event: StreamEvent, result: Option<AssistantMessage>, partial: Option<AssistantMessage>)
      returns (next: Option<AssistantMessage>, message: Option<AssistantMessage>, ghost cut: bool)
      requires Receiving(partial)
      requires event.Start? && partial.Some? ==> !SingleStreams(agent.env)
      modifies this`context, agent, agent.steeringQueue, agent.followUpQueue
      ensures Receiving(next) && OnlyStreams(if message == None && event.Start? then Shown(partial) else [])
      ensures message == None ==> !event.Ended? && next == NextPartial(partial, event)
      ensures message.Some? ==> next == partial && if cut then agent.aborted else event.Ended?
      ensures message.Some? && cut ==> message.value == FailureMessage(partial, true)
      ensures message.Some? && !cut ==>
        message.value == if result.Some? then Normalized(result.value, event.failure) else FailureMessage(partial, agent.aborted)
    {
      AwaitReading(partial);
      if agent.aborted {
        return partial, Some(FailureMessage(partial, true)), true;
      }
      next, message := ReadEvent(event, result, partial);
      cut := false;
    }

    /** A stream that ran out without a terminal event is settled by its result. */
    method ReadResult(response: Response, partial: Option<AssistantMessage>) returns (message: AssistantMessage, ghost cut: bool)
      requires Receiving(partial)
      modifies agent, agent.steeringQueue, agent.followUpQueue
      ensures Receiving(partial) && OnlyStreams([])
      ensures cut ==> agent.aborted && message == FailureMessage(partial, true)
      ensures !cut ==>
        message == if !response.breaks && response.result.Some? then response.result.value else FailureMessage(partial, agent.aborted)
    {
      AwaitReading(partial);
      if agent.aborted {
        return FailureMessage(partial, true), true;
      }
      if response.breaks {
        return FailureMessage(partial, agent.aborted), false;
      }
      AwaitReading(partial);
      return if response.result.Some? then response.result.value else FailureMessage(partial, agent.aborted), false;
    }

    /** Reads one more event of a response. */
    method ReadNext(response: Response, ghost at: nat, i: nat, partial: Option<AssistantMessage>, ghost before: RunPart)
      returns (next: Option<AssistantMessage>, message: Option<AssistantMessage>, ghost cut: bool)
      requires Receiving(partial) && response == agent.env.response(at) && Read(response.events, i, partial)
        && i < |response.events|
      requires agent.mon.run == WithLeftovers(before, Leftovers(response.events[..i]))
      modifies this`context, agent, agent.steeringQueue, agent.followUpQueue
      ensures Receiving(next) && agent.Onward() && agent.mon.turn == old(agent.mon.turn)
        && agent.mon.flight == old(agent.mon.flight)
      ensures message == None ==>
        Read(response.events, i + 1, next) && agent.mon.run == WithLeftovers(before, Leftovers(response.events[..i + 1]))
      ensures message.Some? ==> agent.mon.run == old(agent.mon.run) && next == partial
      ensures message.Some? ==> if cut then agent.aborted && message.value == FailureMessage(partial, true)
        else response.events[i].Ended?
             && message.value == if response.result.Some? then Normalized(response.result.value, response.events[i].failure)
                                 else FailureMessage(partial, agent.aborted)
    {
      if response.events[i].Start? && partial.Some? {
        StartsTwice(agent.env, at, i, partial);
      }
      LeftoversStep(before, response.events, i);
      next, message, cut := NextEvent(response.events[i], response.result, partial);
      if message == None {
        ReadOne(response.events, i, partial);
      }
    }

    /** Reads events up to a terminal one, an abort, or the end of the stream. */
    method ReadEvents(response: Response, ghost at: nat)
      returns (message: AssistantMessage, partial: Option<AssistantMessage>, ghost read: nat, ghost cut: bool)
      requires Receiving(None) && response.opens && response == agent.env.response(at)
      modifies this`context, agent, agent.steeringQueue, agent.followUpQueue
      ensures read <= |response.events| && Receiving(partial) && OnlyStreams(Leftovers(response.events[..read]))
      ensures FinalMessage(response, read, cut, agent.aborted, message)
    {
      partial, read := None, |response.events|;
      for i := 0 to |response.events|
        invariant Receiving(partial) && OnlyStreams(Leftovers(response.events[..i])) && Read(response.events, i, partial)
      {
        var next, final, stopped := ReadNext(response, at, i, partial, old(agent.mon.run));
        if final.Some? {
          return final.value, partial, i, stopped;
        }
        partial := next;
      }
      message, cut := ReadResult(response, partial);
    }

    /**
     * Reads the provider's events up to a terminal one. The message that results is the stream's
     * own, or stands in for it when opening, reading or resolving the stream failed or was aborted.
     */
    method ReadResponse(response: Response, ghost at: nat)
      returns (message: AssistantMessage, partial: Option<AssistantMessage>, ghost read: nat, ghost cut: bool)
      requires Receiving(None) && response == agent.env.response(at)
      modifies this`context, agent, agent.steeringQueue, agent.followUpQueue
      ensures read <= |response.events| && Receiving(partial) && OnlyStreams(Leftovers(response.events[..read]))
      ensures FinalMessage(response, read, cut, agent.aborted, message)
    {
      if !response.opens {
        return FailureMessage(None, agent.aborted), None, 0, false;
      }
      message, partial, read, cut := ReadEvents(response, at);
    }

    ghost method SendRequest()
      requires Valid() && agent.mon.stage.TurnOpen? && agent.mon.flight.count == 0 && agent.mon.turn.polls != NotPolled
      modifies agent`log, agent`logs, agent`acts, agent`mon
      ensures Receiving(None) && agent.Onward() && old(agent.log) + [Requested(context)] in agent.logs
      ensures agent.mon == old(agent.mon).(stage := Awaiting, turn := old(agent.mon.turn).(polls := NotPolled))
    {
      assert Entered(0);
      RequestedLeads(agent.mon);
      agent.NoteTo(Requested(context), agent.mon.(stage := Awaiting, turn := agent.mon.turn.(polls := NotPolled)));
    }

    /**
     * One provider request: it sends the context, and adds one message to transcript and context.
     * In the context that message follows what the stream left there by starting more than once.
     */
    method StreamAssistantResponse()
      returns (message: AssistantMessage, ghost read: nat, ghost cut: bool, ghost aborted: bool)
      requires Valid() && pendingMessages == [] && drainedTerminatingQueue == None
      requires agent.mon.stage.TurnOpen? && agent.mon.turn.polls != NotPolled
      modifies this`context, agent, agent.steeringQueue, agent.followUpQueue
      ensures agent.Valid() && agent.active && agent.mon.aborted == agent.aborted && agent.mon.stage == Answering
      ensures old(agent.log) + [Requested(old(context))] in agent.logs
      ensures var response := agent.env.response(old(agent.clock));
        && read <= |response.events| && FinalMessage(response, read, cut, aborted, message) && (aborted ==> agent.aborted)
        && context == old(context) + Leftovers(response.events[..read]) + [message]
        && agent.mon.run == Joined(WithLeftovers(old(agent.mon.run), Leftovers(response.events[..read])), message)
      ensures agent.mon.run.context == context && agent.mon.run.ended == newMessages + [message]
      ensures agent.mon.turn == old(agent.mon).turn.(reply := message, batch := NO_BATCH, polls := NotPolled)
      ensures agent.mon.flight == old(agent.mon.flight) && agent.Onward()
    {
      var partial;
      message, partial, read, cut := AskProvider();
      aborted := agent.aborted;
      FinishResponse(message, partial);
      JoinedAfter(old(agent.mon.run), Leftovers(agent.env.response(old(agent.clock)).events[..read]), message);
    }

    /** The request, and its response up to the final message. */
    method AskProvider() returns (message: AssistantMessage, partial: Option<AssistantMessage>, ghost read: nat, ghost cut: bool)
      requires Valid() && pendingMessages == [] && drainedTerminatingQueue == None
      requires agent.mon.stage.TurnOpen? && agent.mon.turn.polls != NotPolled
      modifies this`context, agent, agent.steeringQueue, agent.followUpQueue
      ensures Receiving(partial) && agent.Onward() && old(agent.log) + [Requested(old(context))] in agent.logs
      ensures var response := agent.env.response(old(agent.clock));
        && read <= |response.events| && FinalMessage(response, read, cut, agent.aborted, message)
        && agent.mon.run == WithLeftovers(old(agent.mon.run), Leftovers(response.events[..read]))
      ensures old(agent.mon.run.context) == old(context)
      ensures agent.mon.turn == old(agent.mon).turn.(polls := NotPolled) && agent.mon.flight == old(agent.mon.flight)
    {
      assert Entered(0);
      SendRequest();
      var response := agent.env.response(agent.clock);
      AwaitReading(None);
      message, partial, read, cut := ReadResponse(response, old(agent.clock));
    }

    /** The reply's calls are being run. Guarded: only proofs that mention `Unlocked` look inside. */
    ghost predicate Tooling(reply: AssistantMessage, reported: seq<Message>)
      reads this, agent, agent.steeringQueue, agent.followUpQueue
    {
      forall k: nat {:trigger Unlocked(k)} :: Unlocked(k) ==> InTools(reply, reported)
    }

    /** `reported` are the results emitted so far; they are not in the loop's own transcripts yet. */
    ghost predicate InTools(reply: AssistantMessage, reported: seq<Message>)
      reads this, agent, agent.steeringQueue, agent.followUpQueue
    {
      && agent.Valid() && agent.active && agent.mon.aborted == agent.aborted
      && agent.mon.stage == Answering && agent.mon.turn.reply == reply && !Terminal(reply)
      && agent.mon.run.ended == newMessages + reported && agent.mon.run.context == context + reported
      && agent.mon.turn.batch.results == reported
      && agent.mon.flight.count == 0
    }

    /** What running tools leaves alone. */
    twostate predicate OnlyTools()
      reads this, agent
    {
      && agent.Onward()
      && Outside(agent.mon) == old(Outside(agent.mon))
    }

    method StartTool(k: nat, reply: AssistantMessage, ghost reported: seq<Message>)
      requires Tooling(reply, reported)
      requires agent.mon.turn.batch.mode.Some? && k == agent.mon.turn.batch.started < |reply.calls|
      requires |reported| == if agent.mon.turn.batch.mode == Some(Parallel) then 0 else k
      requires MayLaunch(agent.mon.turn.batch, k, agent.aborted)
      modifies agent, agent.steeringQueue, agent.followUpQueue
      ensures Tooling(reply, reported) && OnlyTools()
      ensures agent.mon.turn.batch == WithOneMore(old(agent.mon).turn.batch)
    {
      assert Unlocked(0);
      ToolStartAllowed(agent.mon, k);
      agent.Emit(ToolStart(k, reply.calls[k].id));
    }

    method UpdateTool(k: nat, ghost reply: AssistantMessage, ghost reported: seq<Message>)
      requires Tooling(reply, reported) && k in agent.mon.turn.batch.running && k in agent.mon.turn.batch.executed
      modifies agent, agent.steeringQueue, agent.followUpQueue
      ensures Tooling(reply, reported) && OnlyTools() && agent.mon.turn.batch == old(agent.mon).turn.batch
    {
      assert Unlocked(0);
      agent.Emit(ToolUpdate(k));
    }

    method EndTool(k: nat, terminate: bool, reply: AssistantMessage, ghost reported: seq<Message>)
      requires Tooling(reply, reported) && k in agent.mon.turn.batch.running && k < |reply.calls|
        && MayFinish(agent.mon.turn.batch, k)
      modifies agent, agent.steeringQueue, agent.followUpQueue
      ensures Tooling(reply, reported) && OnlyTools()
      ensures var b := old(agent.mon).turn.batch;
        agent.mon.turn.batch == b.(running := b.running - {k}, allTerminate := b.allTerminate && terminate)
    {
      assert Unlocked(0);
      agent.Emit(ToolEnd(k, reply.calls[k].id, terminate));
    }

    ghost method BeginBatch(mode: BatchMode, reply: AssistantMessage)
      requires Tooling(reply, []) && agent.mon.turn.batch == NO_BATCH && reply.calls != []
      requires mode == Truncated <==> reply.stop == Length
      modifies agent`log, agent`logs, agent`acts, agent`mon
      ensures Tooling(reply, []) && OnlyTools() && agent.mon.turn.batch == NO_BATCH.(mode := Some(mode))
    {
      assert Unlocked(0);
      BatchLeads(agent.mon, mode);
      agent.NoteTo(BatchBegun(mode), agent.mon.(turn := agent.mon.turn.(batch := NO_BATCH.(mode := Some(mode)))));
    }

    ghost method NoteScheduled(k: nat, sequential: bool, reply: AssistantMessage, reported: seq<Message>)
      requires Tooling(reply, reported)
      requires var b := agent.mon.turn.batch; b.mode == Some(Parallel) && k == |b.flags| < b.started
      modifies agent`log, agent`logs, agent`acts, agent`mon
      ensures Tooling(reply, reported) && OnlyTools()
      ensures var b := old(agent.mon).turn.batch; agent.mon.turn.batch == b.(flags := b.flags + [sequential])
    {
      assert Unlocked(0);
      agent.Note(Scheduled(k, sequential));
    }

    ghost method NoteExecuting(k: nat, reply: AssistantMessage, reported: seq<Message>)
      requires Tooling(reply, reported) && MayExecute(agent.mon.turn.batch, k)
      modifies agent`log, agent`logs, agent`acts, agent`mon
      ensures Tooling(reply, reported) && OnlyTools()
      ensures var b := old(agent.mon).turn.batch; agent.mon.turn.batch == b.(executed := b.executed + {k})
    {
      assert Unlocked(0);
      agent.Note(Executing(k));
    }

    method AwaitTools(ghost reply: AssistantMessage, ghost reported: seq<Message>)
      requires Tooling(reply, reported)
      modifies agent, agent.steeringQueue, agent.followUpQueue
      ensures Tooling(reply, reported) && OnlyTools() && agent.mon.turn.batch == old(agent.mon).turn.batch
    {
      assert Unlocked(0);
      agent.Await();
    }

    /** Emits the message events of the next tool result. */
    method Report(call: ToolCall, f: Finalized, ghost reply: AssistantMessage, ghost reported: seq<Message>)
      returns (result: Message)
      requires Tooling(reply, reported) && agent.mon.turn.batch.running == {}
      requires |reported| < agent.mon.turn.batch.started <= |reply.calls| && call == reply.calls[|reported|]
      modifies agent, agent.steeringQueue, agent.followUpQueue
      ensures result == ResultMessage(call, f)
      ensures Tooling(reply, reported + [result]) && OnlyTools()
      ensures agent.mon.turn.batch == old(agent.mon).turn.batch.(results := reported + [result])
    {
      assert Unlocked(0);
      result := ResultMessage(call, f);
      EmitReport(result);
      assert newMessages + (reported + [result]) == newMessages + reported + [result];
      assert context + (reported + [result]) == context + reported + [result];
    }

    method EmitReport(result: Message)
      requires agent.Valid() && agent.active && agent.mon.aborted == agent.aborted && agent.mon.stage == Answering
        && MayReport(agent.mon.turn, result)
      modifies agent, agent.steeringQueue, agent.followUpQueue
      ensures agent.Valid() && agent.active && agent.Onward()
      ensures agent.mon == old(agent.mon).(run := Joined(old(agent.mon.run), result), turn := WithResult(old(agent.mon.turn), result),
                                           totals := agent.mon.totals, aborted := agent.aborted)
    {
      agent.Emit(MessageStart(result));
      agent.Emit(MessageEnd(result, Generated));
    }

    /** Decides whether a call is executed, or only answered with an error. */
    method JudgeToolCall(k: nat, reply: AssistantMessage, ghost reported: seq<Message>)
      returns (runs: bool, sequential: bool)
      requires Tooling(reply, reported) && k < |reply.calls|
      modifies agent, agent.steeringQueue, agent.followUpQueue
      ensures Tooling(reply, reported) && OnlyTools() && agent.mon.turn.batch == old(agent.mon).turn.batch
      ensures var answers := agent.env.preflight(old(agent.clock));
        sequential == answers.sequential && (runs <==> PassesPreflight(reply.calls[k], answers, agent.aborted))
    {
      var p := agent.env.preflight(agent.clock);
      sequential, runs := p.sequential, false;
      if !reply.calls[k].incomplete {
        AwaitTools(reply, reported);
        if p.known && p.valid {
          if p.hook != NoHook {
            AwaitTools(reply, reported);
          }
          runs := p.hook != HookThrows && p.hook != Blocks && !agent.aborted;
        }
      }
    }

    /** The verdict is final: a call that passes will be executed. */
    method PrepareToolCall(k: nat, reply: AssistantMessage, ghost reported: seq<Message>)
      returns (runs: bool, sequential: bool)
      requires Tooling(reply, reported) && k < |reply.calls|
      requires var b := agent.mon.turn.batch;
        k in b.running && k !in b.admitted && k !in b.executed && (b.mode == Some(Parallel) || b.mode == Some(Sequential))
      modifies agent, agent.steeringQueue, agent.followUpQueue
      ensures Tooling(reply, reported) && OnlyTools() && agent.mon.turn.batch == Judged(old(agent.mon).turn.batch, k, runs)
      ensures var answers := agent.env.preflight(old(agent.clock));
        sequential == answers.sequential && (runs <==> PassesPreflight(reply.calls[k], answers, agent.aborted))
    {
      runs, sequential := JudgeToolCall(k, reply, reported);
      if runs {
        NoteAdmitted(k, reply, reported);
      }
    }

    ghost method NoteAdmitted(k: nat, reply: AssistantMessage, reported: seq<Message>)
      requires Tooling(reply, reported) && !agent.aborted && k < |reply.calls|
        && MayAdmit(agent.mon.turn.batch, reply.calls[k], k)
      modifies agent`log, agent`logs, agent`acts, agent`mon
      ensures Tooling(reply, reported) && OnlyTools() && agent.mon.turn.batch == Judged(old(agent.mon).turn.batch, k, true)
    {
      assert Unlocked(0);
      agent.Note(Admitted(k));
    }

    /**
     * The batch is over: every started call has its result, and none is running. `outcomes` are what
     * the calls came to; the batch terminates exactly if each of them asked for it.
     */
    ghost predicate Reported(reply: AssistantMessage, results: seq<Message>, terminate: bool, outcomes: seq<Finalized>, begun: nat)
      reads this, agent, agent.steeringQueue, agent.followUpQueue
    {
      && Tooling(reply, results)
      && var b := agent.mon.turn.batch;
      && b.mode.Some? && b.running == {} && 0 < b.started == |results| <= |reply.calls|
      && b.allTerminate == terminate
      && (|results| < |reply.calls| ==> agent.aborted && b.mode != Some(Truncated))
      && Reports(reply, results, outcomes, b.executed, begun)
      && (terminate <==> forall k | 0 <= k < |outcomes| :: outcomes[k].terminate)
    }

    /** Each result reports what its own call came to in the batch begun at that clock. */
    ghost predicate Reports(reply: AssistantMessage, results: seq<Message>, outcomes: seq<Finalized>, executed: set<nat>, begun: nat)
      reads agent
    {
      && |outcomes| == |results| <= |reply.calls|
      && forall k | 0 <= k < |results| ::
           results[k] == ResultMessage(reply.calls[k], outcomes[k])
             && outcomes[k] == OutcomeOf(agent.env, begun, k, k in executed)
    }

    /** Starts and ends a call of a truncated reply without executing it. */
    method FailToolCall(k: nat, reply: AssistantMessage, ghost results: seq<Message>) returns (result: Message)
      requires Tooling(reply, results) && k == |results| < |reply.calls|
      requires var b := agent.mon.turn.batch; b.mode == Some(Truncated) && b.running == {} && b.admitted == {} && b.started == k
      modifies agent, agent.steeringQueue, agent.followUpQueue
      ensures Tooling(reply, results + [result]) && OnlyTools()
      ensures result == ResultMessage(reply.calls[k], FAILED)
      ensures var b := agent.mon.turn.batch;
        && b.mode == Some(Truncated) && b.running == {} && b.started == k + 1 && !b.allTerminate
        && b.admitted == {} && b.executed == old(agent.mon).turn.batch.executed
    {
      StartTool(k, reply, results);
      EndTool(k, false, reply, results);
      result := Report(reply.calls[k], FAILED, reply, results);
    }

    /** A reply cut off by the token limit: no call is executed, each is answered with an error. */
    method FailToolCallsFromTruncatedMessage(reply: AssistantMessage)
      returns (results: seq<Message>, terminate: bool, ghost outcomes: seq<Finalized>)
      requires Tooling(reply, []) && agent.mon.turn.batch == NO_BATCH && reply.stop == Length && reply.calls != []
      modifies agent, agent.steeringQueue, agent.followUpQueue
      ensures Reported(reply, results, terminate, outcomes, old(agent.clock)) && OnlyTools() && !terminate
      ensures |results| == |reply.calls| && agent.mon.turn.batch.executed == {}
      ensures forall k | 0 <= k < |results| :: results[k] == ResultMessage(reply.calls[k], FAILED)
    {
      BeginBatch(Truncated, reply);
      results, terminate := [], false;
      for k := 0 to |reply.calls|
        invariant Tooling(reply, results) && OnlyTools() && |results| == k
        invariant var b := agent.mon.turn.batch;
          b.mode == Some(Truncated) && b.running == {} && b.admitted == {} && b.started == k && (k > 0 ==> !b.allTerminate)
            && b.executed == {}
        invariant forall i | 0 <= i < k :: results[i] == ResultMessage(reply.calls[i], FAILED)
      {
        var result := FailToolCall(k, reply, results);
        results := results + [result];
      }
      outcomes := seq(|results|, _ => FAILED);
      assert !outcomes[0].terminate;
    }

    /** Executes one prepared call by itself: progress updates, then its finalized outcome. */
    method ExecuteAlone(k: nat, begun: nat, ghost reply: AssistantMessage, ghost results: seq<Message>) returns (f: Finalized)
      requires Tooling(reply, results) && MayExecute(agent.mon.turn.batch, k)
      modifies agent, agent.steeringQueue, agent.followUpQueue
      ensures Tooling(reply, results) && OnlyTools()
      ensures var b := old(agent.mon).turn.batch; agent.mon.turn.batch == b.(executed := b.executed + {k})
      ensures f == Finalize(agent.env.execution(begun, k))
    {
      NoteExecuting(k, reply, results);
      ghost var b := agent.mon.turn.batch;
      var updates := agent.env.schedule(agent.clock);
      AwaitTools(reply, results);
      for i := 0 to |updates|
        invariant Tooling(reply, results) && OnlyTools() && agent.mon.turn.batch == b
      {
        UpdateTool(k, reply, results);
      }
      f := Finalize(agent.env.execution(begun, k));
      AwaitTools(reply, results);
    }

    /** Preflight and, if it passes, execution of an open call. */
    method SettleToolCall(k: nat, begun: nat, reply: AssistantMessage, ghost results: seq<Message>)
      returns (f: Finalized, ghost runs: bool)
      requires Tooling(reply, results) && k < |reply.calls|
      requires var b := agent.mon.turn.batch;
        b.mode == Some(Sequential) && b.running == {k} && k !in b.executed && k !in b.admitted
      modifies agent, agent.steeringQueue, agent.followUpQueue
      ensures Tooling(reply, results) && OnlyTools() && f == OutcomeOf(agent.env, begun, k, runs)
      ensures var b := old(agent.mon).turn.batch;
        agent.mon.turn.batch == if runs then b.(admitted := b.admitted + {k}, executed := b.executed + {k}) else b
    {
      var passes, _ := PrepareToolCall(k, reply, results);
      runs, f := passes, FAILED;
      if passes {
        f := ExecuteAlone(k, begun, reply, results);
      }
    }

    /** One round of sequential execution. */
    method RunToolCall(k: nat, begun: nat, reply: AssistantMessage, ghost results: seq<Message>)
      returns (result: Message, f: Finalized, ghost runs: bool)
      requires Tooling(reply, results) && k == |results| < |reply.calls|
      requires var b := agent.mon.turn.batch; b.mode == Some(Sequential) && b.running == {} && b.started == k && k !in b.executed && k !in b.admitted
      requires k == 0 || !agent.aborted
      modifies agent, agent.steeringQueue, agent.followUpQueue
      ensures Tooling(reply, results + [result]) && OnlyTools() && result == ResultMessage(reply.calls[k], f)
      ensures var b, b' := old(agent.mon).turn.batch, agent.mon.turn.batch;
        && b'.mode == b.mode && b'.running == {} && b'.started == k + 1
        && b'.executed == (if runs then b.executed + {k} else b.executed)
        && b'.admitted == (if runs then b.admitted + {k} else b.admitted)
        && b'.allTerminate == (b.allTerminate && f.terminate)
        && f == OutcomeOf(agent.env, begun, k, k in b'.executed)
    {
      StartTool(k, reply, results);
      f, runs := SettleToolCall(k, begun, reply, results);
      EndTool(k, f.terminate, reply, results);
      result := Report(reply.calls[k], f, reply, results);
    }

    /** One call after another; an abort stops after the call it interrupted. */
    method ExecuteToolCallsSequential(reply: AssistantMessage)
      returns (results: seq<Message>, terminate: bool, ghost outcomes: seq<Finalized>)
      requires Tooling(reply, []) && agent.mon.turn.batch == NO_BATCH && reply.stop != Length && reply.calls != []
      modifies agent, agent.steeringQueue, agent.followUpQueue
      ensures Reported(reply, results, terminate, outcomes, old(agent.clock)) && OnlyTools()
    {
      var begun := agent.clock;
      BeginBatch(Sequential, reply);
      results, terminate, outcomes := RunInSequence(reply, begun);
    }

    method RunInSequence(reply: AssistantMessage, begun: nat)
      returns (results: seq<Message>, terminate: bool, ghost outcomes: seq<Finalized>)
      requires Tooling(reply, []) && agent.mon.turn.batch == NO_BATCH.(mode := Some(Sequential)) && reply.calls != []
      modifies agent, agent.steeringQueue, agent.followUpQueue
      ensures Sequenced(reply, results, outcomes, terminate, begun) && OnlyTools()
      ensures 0 < |results| <= |reply.calls| && (|results| < |reply.calls| ==> agent.aborted)
    {
      results, terminate, outcomes := [], true, [];
      var k := 0;
      while k < |reply.calls|
        invariant |results| == k <= |reply.calls| && Sequenced(reply, results, outcomes, terminate, begun) && OnlyTools()
        invariant k == 0 || !agent.aborted
      {
        results, terminate, outcomes := NextInSequence(k, begun, reply, results, terminate, outcomes);
        k := k + 1;
        if agent.aborted { break; }
      }
    }

    /** The first |results| calls are answered, one after another. */
    ghost predicate Sequenced(reply: AssistantMessage, results: seq<Message>, outcomes: seq<Finalized>, terminate: bool, begun: nat)
      reads this, agent, agent.steeringQueue, agent.followUpQueue
    {
      && Tooling(reply, results)
      && var b := agent.mon.turn.batch;
      && b.mode == Some(Sequential) && b.running == {} && b.started == |results| && b.allTerminate == terminate
      && (forall i <- b.executed :: i < |results|) && (forall i <- b.admitted :: i < |results|)
      && Reports(reply, results, outcomes, b.executed, begun)
      && (terminate <==> forall i | 0 <= i < |outcomes| :: outcomes[i].terminate)
    }

    method NextInSequence(k: nat, begun: nat, reply: AssistantMessage, before: seq<Message>, stopping: bool, ghost earlier: seq<Finalized>)
      returns (results: seq<Message>, terminate: bool, ghost outcomes: seq<Finalized>)
      requires Sequenced(reply, before, earlier, stopping, begun) && k == |before| < |reply.calls| && (k == 0 || !agent.aborted)
      modifies agent, agent.steeringQueue, agent.followUpQueue
      ensures Sequenced(reply, results, outcomes, terminate, begun) && OnlyTools() && |results| == k + 1
    {
      var result, f, _ := RunToolCall(k, begun, reply, before);
      results, terminate, outcomes := before + [result], stopping && f.terminate, earlier + [f];
    }

    /** A parallel batch under way: the schedule and the protocol agree on what runs. */
    ghost predicate Waving(reply: AssistantMessage, s: Schedule, prepared: seq<bool>, finalized: seq<Finalized>, begun: nat)
      reads this, agent, agent.steeringQueue, agent.followUpQueue
    {
      && Tooling(reply, []) && Agree(s, prepared, finalized, agent.mon.turn.batch)
      && agent.mon.turn.batch.started <= |reply.calls|
      && forall k | 0 <= k < |s.phase| && s.phase[k] == Done :: finalized[k] == OutcomeOf(agent.env, begun, k, prepared[k])
    }

    /** One call moves: it begins once its dependencies have settled, reports progress, or ends. */
    method Move(pick: Pick, s: Schedule, prepared: seq<bool>, finalized: seq<Finalized>, reply: AssistantMessage, begun: nat)
      returns (t: Schedule, outcomes: seq<Finalized>)
      requires Waving(reply, s, prepared, finalized, begun)
      modifies agent, agent.steeringQueue, agent.followUpQueue
      ensures Waving(reply, t, prepared, outcomes, begun) && OnlyTools() && |t.phase| == |s.phase|
      ensures agent.mon.turn.batch.started == old(agent.mon).turn.batch.started
      ensures Remaining(t.phase) <= Remaining(s.phase)
      ensures !pick.update && (CanStart(s, pick.k) || CanFinish(s, pick.k)) ==> Remaining(t.phase) < Remaining(s.phase)
    {
      var k := pick.k;
      t, outcomes := s, finalized;
      if CanStart(s, k) {
        t := BeginCall(k, s, prepared, finalized, reply, begun);
      } else if CanFinish(s, k) {
        if pick.update {
          if prepared[k] {
            AgreeUpdates(s, prepared, finalized, agent.mon.turn.batch, k);
            UpdateTool(k, reply, []);
          }
        } else {
          t, outcomes := EndCall(k, s, prepared, finalized, reply, begun);
        }
      }
    }

    /** What a call awaits has settled: it executes if it passed preflight. */
    method BeginCall(k: nat, s: Schedule, prepared: seq<bool>, finalized: seq<Finalized>, reply: AssistantMessage, begun: nat)
      returns (t: Schedule)
      requires Waving(reply, s, prepared, finalized, begun) && CanStart(s, k)
      modifies agent, agent.steeringQueue, agent.followUpQueue
      ensures Waving(reply, t, prepared, finalized, begun) && OnlyTools()
      ensures |t.phase| == |s.phase| && Remaining(t.phase) < Remaining(s.phase)
      ensures agent.mon.turn.batch.started == old(agent.mon).turn.batch.started
    {
      AgreeBegun(s, prepared, finalized, agent.mon.turn.batch, k);
      StepsShrink(s.phase, k, Running);
      t := ToolScheduling.Start(s, k);
      if prepared[k] {
        NoteExecuting(k, reply, []);
      }
      AwaitTools(reply, []);
    }

    /** tool_execution_end, with what the call came to. */
    method EndCall(k: nat, s: Schedule, prepared: seq<bool>, finalized: seq<Finalized>, reply: AssistantMessage, begun: nat)
      returns (t: Schedule, outcomes: seq<Finalized>)
      requires Waving(reply, s, prepared, finalized, begun) && CanFinish(s, k)
      modifies agent, agent.steeringQueue, agent.followUpQueue
      ensures Waving(reply, t, prepared, outcomes, begun) && OnlyTools()
      ensures |t.phase| == |s.phase| && Remaining(t.phase) < Remaining(s.phase)
      ensures agent.mon.turn.batch.started == old(agent.mon).turn.batch.started
    {
      var f := if prepared[k] then Finalize(agent.env.execution(begun, k)) else FAILED;
      AgreeDone(s, prepared, finalized, agent.mon.turn.batch, k, f);
      StepsShrink(s.phase, k, Done);
      t, outcomes := Finish(s, k), finalized[k := f];
      EndTool(k, f.terminate, reply, []);
    }

    /** Whatever the launched calls do during an await. */
    method Advance(s: Schedule, prepared: seq<bool>, finalized: seq<Finalized>, reply: AssistantMessage, begun: nat)
      returns (t: Schedule, outcomes: seq<Finalized>)
      requires Waving(reply, s, prepared, finalized, begun)
      modifies agent, agent.steeringQueue, agent.followUpQueue
      ensures Waving(reply, t, prepared, outcomes, begun) && OnlyTools() && |t.phase| == |s.phase|
      ensures agent.mon.turn.batch.started == old(agent.mon).turn.batch.started
      ensures Remaining(t.phase) <= Remaining(s.phase)
    {
      t, outcomes := s, finalized;
      var picks := agent.env.schedule(agent.clock);
      AwaitTools(reply, []);
      for i := 0 to |picks|
        invariant Waving(reply, t, prepared, outcomes, begun) && OnlyTools() && |t.phase| == |s.phase|
        invariant agent.mon.turn.batch.started == old(agent.mon).turn.batch.started
        invariant Remaining(t.phase) <= Remaining(s.phase)
      {
        t, outcomes := Move(picks[i], t, prepared, outcomes, reply, begun);
      }
    }

    /** One round of the launch loop. */
    method LaunchCall(k: nat, s: Schedule, prepared: seq<bool>, finalized: seq<Finalized>, reply: AssistantMessage, begun: nat)
      returns (t: Schedule, nowPrepared: seq<bool>, outcomes: seq<Finalized>)
      requires Waving(reply, s, prepared, finalized, begun)
      requires k == agent.mon.turn.batch.started == |s.phase| < |reply.calls| && (k == 0 || !agent.aborted)
      modifies agent, agent.steeringQueue, agent.followUpQueue
      ensures Waving(reply, t, nowPrepared, outcomes, begun) && OnlyTools()
      ensures agent.mon.turn.batch.started == |t.phase| == k + 1
    {
      t, outcomes := OpenCall(k, s, prepared, finalized, reply, begun);
      t, nowPrepared, outcomes := ScheduleCall(k, t, prepared, outcomes, reply, begun);
      t, outcomes := Advance(t, nowPrepared, outcomes, reply, begun);
    }

    /** tool_execution_start; meanwhile earlier calls move. */
    method OpenCall(k: nat, s: Schedule, prepared: seq<bool>, finalized: seq<Finalized>, reply: AssistantMessage, begun: nat)
      returns (t: Schedule, outcomes: seq<Finalized>)
      requires Waving(reply, s, prepared, finalized, begun)
      requires k == agent.mon.turn.batch.started == |s.phase| < |reply.calls| && (k == 0 || !agent.aborted)
      modifies agent, agent.steeringQueue, agent.followUpQueue
      ensures Waving(reply, t, prepared, outcomes, begun) && OnlyTools()
      ensures agent.mon.turn.batch.started == k + 1 && |t.phase| == k
    {
      StartTool(k, reply, []);
      AgreeStarted(s, prepared, finalized, old(agent.mon).turn.batch);
      t, outcomes := Advance(s, prepared, finalized, reply, begun);
    }

    /** Preflight, then the promises the call awaits. */
    method ScheduleCall(k: nat, s: Schedule, prepared: seq<bool>, finalized: seq<Finalized>, reply: AssistantMessage, begun: nat)
      returns (t: Schedule, nowPrepared: seq<bool>, outcomes: seq<Finalized>)
      requires Waving(reply, s, prepared, finalized, begun)
      requires k == |s.phase| && agent.mon.turn.batch.started == k + 1 <= |reply.calls|
      modifies agent, agent.steeringQueue, agent.followUpQueue
      ensures Waving(reply, t, nowPrepared, outcomes, begun) && OnlyTools()
      ensures agent.mon.turn.batch.started == |t.phase| == k + 1
    {
      AgreeUnjudged(s, prepared, finalized, agent.mon.turn.batch, k);
      ghost var before := agent.mon.turn.batch;
      var runs, sequential := PrepareToolCall(k, reply, []);
      AgreeLaunched(s, prepared, finalized, before, runs, sequential);
      NoteScheduled(k, sequential, reply, []);
      return Launch(s, sequential), prepared + [runs], finalized + [FAILED];
    }

    /** Waits for every launched call. */
    method FinishCalls(s: Schedule, prepared: seq<bool>, finalized: seq<Finalized>, reply: AssistantMessage, begun: nat)
      returns (outcomes: seq<Finalized>)
      requires Waving(reply, s, prepared, finalized, begun) && agent.mon.turn.batch.started == |s.phase|
      modifies agent, agent.steeringQueue, agent.followUpQueue
      ensures Tooling(reply, []) && OnlyTools() && |outcomes| == |s.phase|
      ensures var b, before := agent.mon.turn.batch, old(agent.mon).turn.batch;
        && b.mode == Some(Parallel) && b.results == [] && b.running == {} && b.started == before.started
        && (b.allTerminate <==> forall k | 0 <= k < |outcomes| :: outcomes[k].terminate)
        && forall k | 0 <= k < |outcomes| :: outcomes[k] == OutcomeOf(agent.env, begun, k, k in b.executed)
    {
      var t := s;
      outcomes := finalized;
      while !AllDone(t)
        invariant Waving(reply, t, prepared, outcomes, begun) && OnlyTools() && |t.phase| == |s.phase|
        invariant agent.mon.turn.batch.started == |s.phase|
        decreases Remaining(t.phase)
      {
        NothingLeft(t);
        t, outcomes := Advance(t, prepared, outcomes, reply, begun);
        NothingLeft(t);
        if !AllDone(t) {
          AgreeProgress(t, prepared, outcomes, agent.mon.turn.batch);
          t, outcomes := Move(Pick(FirstUnfinished(t.phase), false), t, prepared, outcomes, reply, begun);
        }
      }
      AgreeFinished(t, prepared, outcomes, agent.mon.turn.batch);
      forall k | 0 <= k < |outcomes|
        ensures outcomes[k] == OutcomeOf(agent.env, begun, k, k in agent.mon.turn.batch.executed)
      {
        AgreeExecuted(t, prepared, outcomes, agent.mon.turn.batch, k);
      }
    }

    /** All results, in the order of the calls, once every call is done. */
    method ReportAll(outcomes: seq<Finalized>, reply: AssistantMessage) returns (results: seq<Message>)
      requires Tooling(reply, []) && agent.mon.turn.batch.running == {}
      requires |outcomes| == agent.mon.turn.batch.started <= |reply.calls|
      modifies agent, agent.steeringQueue, agent.followUpQueue
      ensures Tooling(reply, results) && OnlyTools() && |results| == |outcomes|
      ensures agent.mon.turn.batch == old(agent.mon).turn.batch.(results := results)
      ensures forall k | 0 <= k < |results| :: results[k] == ResultMessage(reply.calls[k], outcomes[k])
    {
      results := [];
      assert Unlocked(0);
      for k := 0 to |outcomes|
        invariant Tooling(reply, results) && OnlyTools() && |results| == k
        invariant agent.mon.turn.batch == old(agent.mon).turn.batch.(results := results)
        invariant forall i | 0 <= i < k :: results[i] == ResultMessage(reply.calls[i], outcomes[i])
      {
        var result := Report(reply.calls[k], outcomes[k], reply, results);
        results := results + [result];
      }
    }

    /** Launches calls in order, lets them run in waves, and reports once all are done. */
    method ExecuteToolCallsParallel(reply: AssistantMessage)
      returns (results: seq<Message>, terminate: bool, ghost outcomes: seq<Finalized>)
      requires Tooling(reply, []) && agent.mon.turn.batch == NO_BATCH && reply.stop != Length && reply.calls != []
      modifies agent, agent.steeringQueue, agent.followUpQueue
      ensures Reported(reply, results, terminate, outcomes, old(agent.clock)) && OnlyTools()
    {
      var begun := agent.clock;
      BeginBatch(Parallel, reply);
      var s, prepared, finalized := LaunchCalls(reply, begun);
      finalized := FinishCalls(s, prepared, finalized, reply, begun);
      terminate := forall i | 0 <= i < |finalized| :: finalized[i].terminate;
      outcomes := finalized;
      results := ReportAll(finalized, reply);
    }

    /** The launch loop; an abort ends it early. */
    method LaunchCalls(reply: AssistantMessage, begun: nat) returns (s: Schedule, prepared: seq<bool>, finalized: seq<Finalized>)
      requires Tooling(reply, []) && agent.mon.turn.batch == NO_BATCH.(mode := Some(Parallel)) && reply.calls != []
      modifies agent, agent.steeringQueue, agent.followUpQueue
      ensures Waving(reply, s, prepared, finalized, begun) && OnlyTools()
      ensures 0 < agent.mon.turn.batch.started == |s.phase| && (|s.phase| < |reply.calls| ==> agent.aborted)
    {
      s, prepared, finalized := EMPTY, [], [];
      var k := 0;
      AgreeEmpty();
      while k < |reply.calls|
        invariant Waving(reply, s, prepared, finalized, begun) && OnlyTools()
        invariant k == agent.mon.turn.batch.started == |s.phase| <= |reply.calls| && (k == 0 || !agent.aborted)
      {
        s, prepared, finalized := LaunchCall(k, s, prepared, finalized, reply, begun);
        k := k + 1;
        if agent.aborted { break; }
      }
    }

    /** agent_end has been emitted for this loop, with everything it added. */
    ghost predicate Over()
      reads this, agent, agent.steeringQueue, agent.followUpQueue
    {
      && agent.Valid() && agent.active && agent.mon.aborted == agent.aborted
      && agent.mon.stage == Idle && agent.mon.flight.count == 0 && newMessages == agent.mon.run.ended
    }

    method EndRun()
      requires Transcribed() && MayEnd(agent.mon)
      requires !agent.mon.turn.first
      requires agent.mon.stage == Between || (agent.mon.stage == TurnOpen(true) && agent.mon.turn.polls == BothEmpty)
      modifies agent, agent.steeringQueue, agent.followUpQueue
      ensures Over()
      ensures Count(agent.mon) == old(Count(agent.mon))
      ensures agent.Onward()
    {
      agent.Emit(AgentEnd(newMessages));
    }

    /** The part of a turn before the provider is asked; `ended` when a refresh found nothing left to inject. */
    method OpenTurn(firstTurn: bool) returns (ended: bool)
      requires Valid() && !agent.mon.turn.mustEnd && !skipInitialSteeringPoll
        && (drainedTerminatingQueue.Some? ==> !agent.mon.turn.more && pendingMessages != [])
      requires agent.mon.turn.polls == (if pendingMessages == [] then SteeringEmpty else Found)
      requires firstTurn ==> agent.mon.stage.TurnOpen? && drainedTerminatingQueue == None
      requires !firstTurn ==> agent.mon.stage == Between && agent.mon.turn.prepared && agent.mon.turn.asked && !agent.mon.turn.first
      requires !firstTurn ==> agent.mon.turn.more || pendingMessages != []
      modifies this, agent, agent.steeringQueue, agent.followUpQueue
      ensures ended ==> Over()
      ensures !ended ==> Valid() && agent.mon.stage.TurnOpen? && pendingMessages == [] && drainedTerminatingQueue == None
      ensures !ended ==> !skipInitialSteeringPoll && agent.mon.turn.polls != NotPolled && agent.Onward()
      ensures old(newMessages) <= newMessages
      ensures Count(agent.mon) == old(Count(agent.mon))
      ensures agent.Onward()
    {
      if !firstTurn {
        StartTurn();
      }
      ended := Refresh();
      if !ended {
        InjectPending();
      }
    }

    method StartTurn()
      requires Valid() && Allowed(agent.mon, TurnStart)
      modifies agent, agent.steeringQueue, agent.followUpQueue
      ensures Valid() && agent.mon.stage == TurnOpen(true) && agent.mon.flight == old(agent.mon.flight)
        && agent.mon.run == old(agent.mon.run)
      ensures agent.mon.turn == old(agent.mon.turn).(reply := Input(0), batch := NO_BATCH) && agent.Onward()
    {
      assert Entered(0);
      agent.Emit(TurnStart);
    }

    /** What was drained when the tools asked to stop is looked for afresh before it is injected. */
    method Refresh() returns (ended: bool)
      requires Valid() && agent.mon.stage.TurnOpen? && !agent.mon.turn.mustEnd && !skipInitialSteeringPoll
      requires agent.mon.turn.polls == (if pendingMessages == [] then SteeringEmpty else Found)
      requires drainedTerminatingQueue.Some? ==> !agent.mon.turn.more && !agent.mon.turn.first && agent.mon.stage == TurnOpen(true)
      modifies this`pendingMessages, this`drainedTerminatingQueue, this`skipInitialSteeringPoll,
        this`steeringQueueGeneration, this`followUpQueueGeneration, agent, agent.steeringQueue, agent.followUpQueue
      ensures ended ==> Over()
      ensures !ended ==> Valid() && agent.mon.stage.TurnOpen? && drainedTerminatingQueue == None && !skipInitialSteeringPoll
      ensures !ended ==> agent.mon.turn.polls == (if pendingMessages == [] then SteeringEmpty else Found)
      ensures Count(agent.mon) == old(Count(agent.mon)) && agent.Onward()
    {
      if drainedTerminatingQueue == None { return false; }
      RefreshTerminatingQueueDrain();
      if |pendingMessages| == 0 {
        assert Entered(0);
        EndRun();
        return true;
      }
      Undrain();
      return false;
    }

    /** The pending messages will be injected, and not given back any more. */
    method Undrain()
      requires Valid()
      modifies this`drainedTerminatingQueue
      ensures Valid() && drainedTerminatingQueue == None
    {
      assert Entered(0);
      drainedTerminatingQueue := None;
    }

    /** Runs the reply's calls in the configured way and appends their results to the transcripts. */
    method RunTools(reply: AssistantMessage) returns (results: seq<Message>, terminate: bool, ghost outcomes: seq<Finalized>)
      requires Tooling(reply, []) && agent.mon.turn.batch == NO_BATCH && reply.calls != []
      modifies agent, agent.steeringQueue, agent.followUpQueue
      ensures Reported(reply, results, terminate, outcomes, old(agent.clock)) && OnlyTools()
      ensures reply.stop == Length ==> !terminate && agent.mon.turn.batch.executed == {}
    {
      if reply.stop == Length {
        results, terminate, outcomes := FailToolCallsFromTruncatedMessage(reply);
      } else if agent.env.sequentialTools {
        results, terminate, outcomes := ExecuteToolCallsSequential(reply);
      } else {
        results, terminate, outcomes := ExecuteToolCallsParallel(reply);
      }
    }

    /** prepareNextTurn threw: the messages in flight are back in their queue and the caller must report. */
    ghost predicate Broken()
      reads this, agent, agent.steeringQueue, agent.followUpQueue
    {
      && agent.Valid() && agent.active && agent.mon.aborted == agent.aborted
      && agent.mon.stage == Failed0 && agent.mon.flight.count == 0 && newMessages == agent.mon.run.ended
    }

    /** Where the loop may be left. Guarded: only proofs that mention `Entered` look inside. */
    ghost predicate Left(exit: Exit)
      reads this, agent, agent.steeringQueue, agent.followUpQueue
    {
      forall k: nat {:trigger Entered(k)} :: Entered(k) ==> HasLeft(exit)
    }

    ghost predicate HasLeft(exit: Exit)
      reads this, agent, agent.steeringQueue, agent.followUpQueue
    {
      && agent.Valid() && newMessages == agent.mon.run.ended
      && (exit == Completed ==> Over())
      && (exit == Threw ==> Broken())
    }

    /** A turn is over and nothing has been drained for the next one; guarded likewise. */
    ghost predicate AfterTurnEnd(terminated: bool)
      reads this, agent, agent.steeringQueue, agent.followUpQueue
    {
      forall k: nat {:trigger Entered(k)} :: Entered(k) ==>
        TurnOver() && terminated == Terminating(agent.mon.turn) && (terminated ==> !agent.mon.turn.more)
    }

    ghost predicate TurnOver()
      reads this, agent, agent.steeringQueue, agent.followUpQueue
    {
      && Valid() && pendingMessages == [] && drainedTerminatingQueue == None && agent.mon.stage == Between
      && !skipInitialSteeringPoll
      && !agent.mon.turn.first && !agent.mon.turn.asked && !agent.mon.turn.prepared
      && (agent.mon.turn.mustEnd ==> agent.aborted)
    }

    /** The loop may go round again; guarded likewise. */
    ghost predicate Ready(firstTurn: bool)
      reads this, agent, agent.steeringQueue, agent.followUpQueue
    {
      forall k: nat {:trigger Entered(k)} :: Entered(k) ==> MayTurn(firstTurn)
    }

    ghost predicate MayTurn(firstTurn: bool)
      reads this, agent, agent.steeringQueue, agent.followUpQueue
    {
      && Valid() && !agent.mon.turn.mustEnd && !skipInitialSteeringPoll
      && (drainedTerminatingQueue.Some? ==> !agent.mon.turn.more && pendingMessages != [])
      && agent.mon.turn.polls == (if pendingMessages == [] then SteeringEmpty else Found)
      && (firstTurn ==> agent.mon.stage.TurnOpen? && drainedTerminatingQueue == None)
      && (!firstTurn ==> agent.mon.stage == Between && agent.mon.turn.prepared && agent.mon.turn.asked && !agent.mon.turn.first)
    }

    /** An await between turns. */
    method Pause()
      requires Valid()
      modifies agent, agent.steeringQueue, agent.followUpQueue
      ensures Valid() && agent.mon == old(agent.mon).(aborted := agent.aborted) && agent.Onward()
    {
      assert Entered(0);
      agent.Await();
    }

    method AskStop() returns (stop: bool)
      requires Valid() && Allowed(agent.mon, StopAsked(true))
      modifies agent, agent.steeringQueue, agent.followUpQueue
      ensures stop == agent.env.stop(old(agent.clock))
      ensures Valid() && agent.mon.turn == old(agent.mon.turn).(asked := true, mustEnd := stop)
      ensures agent.mon.stage == Between && agent.mon.flight == old(agent.mon.flight) && agent.Onward()
      ensures Count(agent.mon) == old(Count(agent.mon))
    {
      stop := agent.env.stop(agent.clock);
      Pause();
      NoteStop(stop);
    }

    ghost method NoteStop(stop: bool)
      requires Valid() && Allowed(agent.mon, StopAsked(stop))
      modifies agent`log, agent`logs, agent`acts, agent`mon
      ensures Valid() && agent.mon.turn == old(agent.mon.turn).(asked := true, mustEnd := stop)
      ensures agent.mon.stage == Between && agent.mon.flight == old(agent.mon.flight) && agent.Onward()
      ensures Count(agent.mon) == old(Count(agent.mon))
    {
      assert Entered(0);
      agent.Note(StopAsked(stop));
    }

    method InstallPreparation(replacement: Option<seq<Message>>)
      requires Valid() && Allowed(agent.mon, Prepared(true, None))
      modifies this`context, agent, agent.steeringQueue, agent.followUpQueue
      ensures Valid() && agent.mon.turn == old(agent.mon.turn).(prepared := true, mustEnd := agent.aborted)
        && agent.mon.stage == Between
      ensures agent.mon.flight == old(agent.mon.flight) && agent.Onward()
      ensures Count(agent.mon) == old(Count(agent.mon)) && context == replacement.GetOr(old(context))
    {
      PreparedLeads(agent.mon, replacement);
      Install(replacement, agent.mon.(run := Furnished(agent.mon.run, replacement),
                                      turn := agent.mon.turn.(prepared := true, mustEnd := agent.mon.aborted)));
    }

    method Install(replacement: Option<seq<Message>>, ghost n: Monitor)
      requires Valid() && Leads(agent.mon, Prepared(true, replacement), n)
      requires n == agent.mon.(run := Furnished(agent.mon.run, replacement), turn := n.turn)
      requires n.turn.deferred == agent.mon.turn.deferred
      modifies this`context, agent`log, agent`logs, agent`acts, agent`mon
      ensures Valid() && agent.mon == n && agent.Onward() && agent.mon.aborted == agent.aborted
        && context == replacement.GetOr(old(context))
    {
      assert Entered(0);
      context := replacement.GetOr(context);
      agent.NoteTo(Prepared(true, replacement), n);
    }

    /** The prepareNextTurn hook may replace the context, or throw; then nothing stays in flight. */
    method PrepareNextTurn() returns (ok: bool)
      requires Valid() && Allowed(agent.mon, Prepared(true, None)) && (drainedTerminatingQueue == None ==> pendingMessages == [])
      modifies this`context, agent, agent.steeringQueue, agent.followUpQueue
      ensures ok ==> Valid() && agent.mon.turn == old(agent.mon.turn).(prepared := true, mustEnd := agent.aborted) && agent.mon.stage == Between
      ensures ok ==> agent.mon.flight == old(agent.mon.flight) && agent.Onward()
      ensures !ok ==> Broken()
      ensures var p := agent.env.preparation(old(agent.clock));
        (ok <==> !p.Throws?) && context == if p.Replace? then p.context else old(context)
      ensures Count(agent.mon) == old(Count(agent.mon))
      ensures agent.Onward()
    {
      var preparation := agent.env.preparation(agent.clock);
      Pause();
      ok := !preparation.Throws?;
      if ok {
        InstallPreparation(if preparation.Replace? then Some(preparation.context) else None);
      } else {
        Abandon();
      }
    }

    method Abandon()
      requires Valid() && Allowed(agent.mon, Prepared(false, None)) && (drainedTerminatingQueue == None ==> pendingMessages == [])
      modifies agent, agent.steeringQueue, agent.followUpQueue
      ensures Broken() && Count(agent.mon) == old(Count(agent.mon))
      ensures agent.Onward()
    {
      assert Entered(0);
      NoteThrown();
      if drainedTerminatingQueue.Some? {
        RestorePending();
      }
    }

    ghost method NoteThrown()
      requires Valid() && Allowed(agent.mon, Prepared(false, None))
      modifies agent`log, agent`logs, agent`acts, agent`mon
      ensures Valid() && agent.mon.stage == Failed0 && agent.mon.flight == old(agent.mon.flight)
      ensures Count(agent.mon) == old(Count(agent.mon)) && agent.Onward()
    {
      assert Entered(0);
      agent.Note(Prepared(false, None));
    }

    /** A terminating batch: the stop hook, then what the queues hold. */
    method AfterTermination() returns (ended: bool)
      requires TurnOver() && !agent.mon.turn.mustEnd && Terminating(agent.mon.turn) && !agent.mon.turn.more
      modifies this, agent, agent.steeringQueue, agent.followUpQueue
      ensures ended ==> Over()
      ensures !ended ==> Valid() && agent.mon.stage == Between && pendingMessages != [] && drainedTerminatingQueue.Some?
      ensures !ended ==> agent.mon.turn == old(agent.mon.turn).(asked := true, polls := Found)
      ensures newMessages == old(newMessages)
      ensures Count(agent.mon) == old(Count(agent.mon))
      ensures agent.Onward()
    {
      assert Entered(0);
      var stop := AskStop();
      if !stop {
        PollTerminating();
      }
      if stop || |pendingMessages| == 0 {
        EndRun();
        return true;
      }
      return false;
    }

    /** The rest of the way to the next turn once prepareNextTurn has returned. */
    method AfterPreparation(terminated: bool) returns (exit: Exit)
      requires Valid() && agent.mon.stage == Between && agent.mon.turn.prepared && !agent.mon.turn.first
      requires agent.mon.turn.mustEnd == agent.aborted
      requires agent.mon.turn.asked == terminated == Terminating(agent.mon.turn) && (terminated ==> !agent.mon.turn.more)
      requires !skipInitialSteeringPoll && (terminated <==> drainedTerminatingQueue.Some?)
      requires !terminated ==> pendingMessages == []
      modifies this, agent, agent.steeringQueue, agent.followUpQueue
      ensures Left(exit) && (exit == Continues ==> Ready(false) && agent.mon.turn.more == old(agent.mon.turn.more))
      ensures exit == Continues || exit == Completed
      ensures newMessages == old(newMessages)
      ensures Count(agent.mon) == old(Count(agent.mon))
      ensures agent.Onward()
    {
      if agent.aborted {
        EndAborted();
        return Completed;
      }
      if terminated {
        exit := RefreshOrEnd();
      } else {
        exit := StopOrPoll();
      }
    }

    /** An abort during preparation: what was drained goes back before agent_end. */
    method EndAborted()
      requires Valid() && agent.aborted && agent.mon.stage == Between && !agent.mon.turn.first
      requires drainedTerminatingQueue == None ==> pendingMessages == []
      modifies agent, agent.steeringQueue, agent.followUpQueue
      ensures Left(Completed) && Count(agent.mon) == old(Count(agent.mon)) && agent.Onward()
    {
      assert Entered(0);
      if drainedTerminatingQueue.Some? {
        RestorePending();
      }
      EndRun();
    }

    /** What both queues hold now decides whether the loop goes on after a terminating batch. */
    method RefreshOrEnd() returns (exit: Exit)
      requires Valid() && agent.mon.stage == Between && agent.mon.turn.prepared && agent.mon.turn.asked && !agent.mon.turn.first
      requires !agent.mon.turn.mustEnd && !agent.mon.turn.more && !skipInitialSteeringPoll && drainedTerminatingQueue.Some?
      modifies this`pendingMessages, this`drainedTerminatingQueue, this`skipInitialSteeringPoll,
        this`steeringQueueGeneration, this`followUpQueueGeneration, agent, agent.steeringQueue, agent.followUpQueue
      ensures Left(exit) && (exit == Continues ==> Ready(false) && agent.mon.turn.more == old(agent.mon.turn.more))
      ensures exit == Continues || exit == Completed
      ensures Count(agent.mon) == old(Count(agent.mon)) && agent.Onward()
    {
      assert Entered(0);
      RefreshTerminatingQueueDrain();
      if |pendingMessages| == 0 {
        EndRun();
        return Completed;
      }
      return Continues;
    }

    /** After any other turn the stop hook, then steering. */
    method StopOrPoll() returns (exit: Exit)
      requires Valid() && agent.mon.stage == Between && agent.mon.turn.prepared && !agent.mon.turn.asked && !agent.mon.turn.first
      requires !agent.mon.turn.mustEnd && !Terminating(agent.mon.turn) && !skipInitialSteeringPoll
      requires pendingMessages == [] && drainedTerminatingQueue == None
      modifies this`pendingMessages, this`skipInitialSteeringPoll, this`steeringQueueGeneration,
        agent, agent.steeringQueue, agent.followUpQueue
      ensures Left(exit) && (exit == Continues ==> Ready(false) && agent.mon.turn.more == old(agent.mon.turn.more))
      ensures exit == Continues || exit == Completed
      ensures Count(agent.mon) == old(Count(agent.mon)) && agent.Onward()
    {
      var stop := AskStop();
      if stop {
        EndStopped();
        return Completed;
      }
      PollAgain();
      return Continues;
    }

    /** The stop hook ends the run. */
    method EndStopped()
      requires Valid() && agent.mon.turn.mustEnd && agent.mon.stage == Between && !agent.mon.turn.first && pendingMessages == []
      modifies agent, agent.steeringQueue, agent.followUpQueue
      ensures Left(Completed) && Count(agent.mon) == old(Count(agent.mon)) && agent.Onward()
    {
      assert Entered(0);
      EndRun();
    }

    /** Steering for the next turn. */
    method PollAgain()
      requires Valid() && agent.mon.stage == Between && agent.mon.turn.prepared && agent.mon.turn.asked && !agent.mon.turn.first
      requires !agent.mon.turn.mustEnd && !skipInitialSteeringPoll && pendingMessages == [] && drainedTerminatingQueue == None
      modifies this`pendingMessages, this`skipInitialSteeringPoll, this`steeringQueueGeneration,
        agent, agent.steeringQueue, agent.followUpQueue
      ensures Ready(false) && agent.mon.turn.more == old(agent.mon.turn.more)
      ensures Count(agent.mon) == old(Count(agent.mon)) && agent.Onward()
    {
      assert Entered(0);
      pendingMessages := GetSteeringMessages();
    }

    /** Everything between turn_end and the next turn_start, or the end of the run. */
    method AfterTurn(terminated: bool) returns (exit: Exit)
      requires AfterTurnEnd(terminated)
      modifies this, agent, agent.steeringQueue, agent.followUpQueue
      ensures Left(exit) && (exit == Continues ==> Ready(false) && agent.mon.turn.more == old(agent.mon.turn.more))
      ensures exit != Suspended && newMessages == old(newMessages)
      ensures Count(agent.mon) == old(Count(agent.mon))
      ensures agent.Onward()
    {
      assert Entered(0);
      if agent.aborted {
        EndRun();
        return Completed;
      }
      if terminated {
        var ended := AfterTermination();
        if ended { return Completed; }
      }
      var ok := PrepareNextTurn();
      if !ok { return Threw; }
      exit := AfterPreparation(terminated);
    }

    /** A reply that ends nothing has joined the transcripts; none of its calls has been run. */
    ghost predicate Replying(reply: AssistantMessage)
      reads this, agent, agent.steeringQueue, agent.followUpQueue
    {
      forall k: nat {:trigger Entered(k)} :: Entered(k) ==> HasReplied(reply)
    }

    ghost predicate HasReplied(reply: AssistantMessage)
      reads this, agent, agent.steeringQueue, agent.followUpQueue
    {
      && Valid() && pendingMessages == [] && drainedTerminatingQueue == None && !Terminal(reply) && !skipInitialSteeringPoll
      && agent.mon.stage == Answering && agent.mon.turn.reply == reply && agent.mon.turn.batch == NO_BATCH
    }

    /** Runs the reply's calls and appends their results to the loop's transcripts. */
    method AnswerCalls(reply: AssistantMessage) returns (results: seq<Message>, terminated: bool, ghost outcomes: seq<Finalized>)
      requires Replying(reply) && reply.calls != []
      modifies this`context, this`newMessages, agent, agent.steeringQueue, agent.followUpQueue
      ensures Valid() && drainedTerminatingQueue == None && agent.mon.stage == Answering && agent.mon.turn.reply == reply
      ensures Answered(agent.mon.turn, agent.mon.aborted) && agent.mon.turn.batch.results == results != []
      ensures agent.mon.turn.batch.allTerminate == terminated
      ensures newMessages == old(newMessages) + results && |results| <= |reply.calls|
      ensures Reports(reply, results, outcomes, agent.mon.turn.batch.executed, old(agent.clock))
      ensures terminated <==> forall k | 0 <= k < |outcomes| :: outcomes[k].terminate
      ensures Count(agent.mon) == old(Count(agent.mon))
      ensures agent.Onward()
    {
      assert Entered(0);
      results, terminated, outcomes := RunTools(reply);
      assert Unlocked(0);
      context := context + results;
      newMessages := newMessages + results;
    }

    /** The tools a reply asks for, the end of its turn, and what follows it. */
    method FinishTurn(reply: AssistantMessage) returns (exit: Exit, hasMoreToolCalls: bool)
      requires Replying(reply)
      modifies this, agent, agent.steeringQueue, agent.followUpQueue
      ensures Left(exit) && exit != Suspended && old(newMessages) <= newMessages
      ensures exit == Continues ==> Ready(false) && hasMoreToolCalls == agent.mon.turn.more
      ensures Count(agent.mon) == OneMoreTurn(old(Count(agent.mon)))
      ensures agent.Onward()
    {
      var terminated;
      terminated, hasMoreToolCalls := AnswerAndEnd(reply);
      exit := AfterTurn(terminated);
    }

    /** The tools a reply asks for, and turn_end. */
    method AnswerAndEnd(reply: AssistantMessage) returns (terminated: bool, hasMoreToolCalls: bool)
      requires Replying(reply)
      modifies this`context, this`newMessages, agent, agent.steeringQueue, agent.followUpQueue
      ensures AfterTurnEnd(terminated) && hasMoreToolCalls == agent.mon.turn.more && old(newMessages) <= newMessages
      ensures Count(agent.mon) == OneMoreTurn(old(Count(agent.mon))) && agent.Onward()
    {
      assert Entered(0);
      var results := [];
      terminated, hasMoreToolCalls := false, false;
      if |reply.calls| > 0 {
        ghost var outcomes;
        results, terminated, outcomes := AnswerCalls(reply);
        hasMoreToolCalls := !terminated;
      }
      CloseTurn(reply, results);
    }

    /** turn_end for an answered reply. */
    method CloseTurn(reply: AssistantMessage, results: seq<Message>)
      requires Valid() && pendingMessages == [] && drainedTerminatingQueue == None && !skipInitialSteeringPoll && !Terminal(reply)
      requires agent.mon.stage == Answering && agent.mon.turn.reply == reply && agent.mon.turn.batch.results == results
      requires Answered(agent.mon.turn, agent.mon.aborted)
      modifies agent, agent.steeringQueue, agent.followUpQueue
      ensures AfterTurnEnd(results != [] && old(agent.mon.turn.batch.allTerminate))
      ensures agent.mon.turn.more == (results != [] && !old(agent.mon.turn.batch.allTerminate))
      ensures Count(agent.mon) == OneMoreTurn(old(Count(agent.mon))) && agent.Onward()
    {
      assert Entered(0);
      agent.Emit(TurnEnd(reply, results));
    }

    /** A terminal reply ends its turn and the run. */
    method EndWithReply(reply: AssistantMessage)
      requires Transcribed() && agent.mon.stage == Answering && agent.mon.turn.reply == reply && agent.mon.turn.batch == NO_BATCH
      requires Terminal(reply) && agent.mon.flight.count == 0
      modifies agent, agent.steeringQueue, agent.followUpQueue
      ensures Over() && Count(agent.mon) == OneMoreTurn(old(Count(agent.mon)))
      ensures agent.Onward()
    {
      agent.Emit(TurnEnd(reply, []));
      EndRun();
    }

    /** One pass of the inner loop. */
    method RunTurn(firstTurn: bool) returns (exit: Exit, hasMoreToolCalls: bool)
      requires Ready(firstTurn) && (!firstTurn ==> agent.mon.turn.more || pendingMessages != [])
      modifies this, agent, agent.steeringQueue, agent.followUpQueue
      ensures Left(exit) && exit != Suspended && old(newMessages) <= newMessages
      ensures exit == Continues ==> Ready(false) && hasMoreToolCalls == agent.mon.turn.more
      ensures Count(agent.mon) == OneMoreTurn(old(Count(agent.mon))) || (exit == Completed && Count(agent.mon) == old(Count(agent.mon)))
      ensures agent.Onward()
    {
      var ended, message := Exchange(firstTurn);
      if ended { return Completed, false; }
      exit, hasMoreToolCalls := FinishTurn(message);
    }

    /** A turn's injections and its request; it ends the run when there is nothing to inject, or with a terminal reply. */
    method Exchange(firstTurn: bool) returns (ended: bool, message: AssistantMessage)
      requires Ready(firstTurn) && (!firstTurn ==> agent.mon.turn.more || pendingMessages != [])
      modifies this, agent, agent.steeringQueue, agent.followUpQueue
      ensures ended ==> Left(Completed)
      ensures !ended ==> Replying(message)
      ensures old(newMessages) <= newMessages && agent.Onward()
      ensures Count(agent.mon) == old(Count(agent.mon)) || (ended && Count(agent.mon) == OneMoreTurn(old(Count(agent.mon))))
    {
      assert Entered(0);
      message := Assistant(0, [], EndTurn, false);
      ended := OpenTurn(firstTurn);
      if ended { return; }
      message := Ask();
      if Terminal(message) {
        EndWithReply(message);
        return true, message;
      }
    }

    /** The request, and its reply among the new messages. */
    method Ask() returns (message: AssistantMessage)
      requires Valid() && pendingMessages == [] && drainedTerminatingQueue == None
      requires agent.mon.stage.TurnOpen? && agent.mon.turn.polls != NotPolled
      modifies this`context, this`newMessages, agent, agent.steeringQueue, agent.followUpQueue
      ensures Valid() && agent.mon.stage == Answering && agent.mon.turn.reply == message && agent.mon.turn.batch == NO_BATCH
      ensures agent.mon.flight.count == 0 && newMessages == old(newMessages) + [message]
      ensures Count(agent.mon) == old(Count(agent.mon)) && agent.Onward()
    {
      assert Entered(0);
      ghost var read, cut, aborted;
      message, read, cut, aborted := StreamAssistantResponse();
      newMessages := newMessages + [message];
    }

    /** Follow-ups become pending when the run would otherwise be over. */
    method TakeFollowUps()
      requires Ready(false) && pendingMessages == [] && !agent.mon.turn.more
      modifies this`pendingMessages, this`followUpQueueGeneration, agent, agent.steeringQueue, agent.followUpQueue
      ensures pendingMessages != [] ==> Ready(false)
      ensures pendingMessages == [] ==> Transcribed() && MayEnd(agent.mon) && agent.mon.stage == Between && !agent.mon.turn.first
      ensures Count(agent.mon) == old(Count(agent.mon))
      ensures agent.Onward()
    {
      assert Entered(0);
      pendingMessages := GetFollowUpMessages();
    }

    /** Steering that arrived before the first turn is injected in it. */
    method TakeSteering()
      requires Valid() && agent.mon.stage.TurnOpen? && pendingMessages == [] && drainedTerminatingQueue == None
      requires !agent.mon.turn.mustEnd
      modifies this`pendingMessages, this`skipInitialSteeringPoll, this`steeringQueueGeneration, agent, agent.steeringQueue, agent.followUpQueue
      ensures Ready(true) && Count(agent.mon) == old(Count(agent.mon))
      ensures agent.Onward()
    {
      assert Entered(0);
      pendingMessages := GetSteeringMessages();
    }

    /** Turns while there are tool results for the model, or steering; `left` is what remains of the budget. */
    method RunTurns(first: bool, turns: nat) returns (exit: Exit, left: nat)
      requires Ready(first) && (first || pendingMessages != [])
      modifies this, agent, agent.steeringQueue, agent.followUpQueue
      ensures Left(exit) && old(newMessages) <= newMessages && agent.Onward() && left <= turns
      ensures Count(agent.mon) == old(Count(agent.mon)).(turns := agent.mon.run.turns)
      ensures exit == Continues || exit == Suspended ==> agent.mon.run.turns == old(agent.mon.run.turns) + turns - left
      ensures exit == Continues ==> Ready(false) && pendingMessages == [] && !agent.mon.turn.more && left < turns
      ensures exit == Suspended ==> left == 0
    {
      var firstTurn, hasMoreToolCalls := first, true;
      left := turns;
      while hasMoreToolCalls || |pendingMessages| > 0
        invariant Ready(firstTurn) && old(newMessages) <= newMessages && agent.Onward()
        invariant left <= turns && Count(agent.mon) == old(Count(agent.mon)).(turns := old(agent.mon.run.turns) + turns - left)
        invariant firstTurn || left < turns || pendingMessages != []
        invariant firstTurn ==> hasMoreToolCalls
        invariant !firstTurn && pendingMessages == [] ==> hasMoreToolCalls == agent.mon.turn.more
        invariant left == turns ==> hasMoreToolCalls
        decreases left
      {
        if left == 0 {
          assert Entered(0);
          return Suspended, 0;
        }
        left := left - 1;
        exit, hasMoreToolCalls := RunTurn(firstTurn);
        if exit != Continues { return; }
        firstTurn := false;
      }
      assert Entered(0);
      exit := Continues;
    }

    /** The nested loop: turns while there are tool results or steering, then follow-ups. */
    method RunLoop(turns: nat) returns (exit: Exit)
      requires Valid() && agent.mon.stage.TurnOpen? && pendingMessages == [] && drainedTerminatingQueue == None
      requires !agent.mon.turn.mustEnd
      modifies this, agent, agent.steeringQueue, agent.followUpQueue
      ensures Left(exit) && exit != Continues && old(newMessages) <= newMessages
      ensures Count(agent.mon) == old(Count(agent.mon)).(turns := agent.mon.run.turns)
      ensures exit == Suspended ==> agent.mon.run.turns == old(agent.mon.run.turns) + turns
      ensures agent.Onward()
    {
      var firstTurn, budget: nat := true, turns;
      TakeSteering();
      while true
        invariant Ready(firstTurn) && (firstTurn || pendingMessages != []) && old(newMessages) <= newMessages && agent.Onward()
        invariant budget <= turns && Count(agent.mon) == old(Count(agent.mon)).(turns := old(agent.mon.run.turns) + turns - budget)
        decreases budget
      {
        exit, budget := RunTurns(firstTurn, budget);
        if exit != Continues { return; }
        firstTurn := false;
        TakeFollowUps();
        if |pendingMessages| == 0 { break; }
      }
      EndRun();
      return Completed;
    }

    /** The first turn is to inject the prompts from number `i` on. */
    ghost predicate Prompting(prompts: seq<InputMessage>, i: nat)
      reads agent, agent.steeringQueue, agent.followUpQueue
    {
      && agent.Valid() && agent.active && agent.mon.aborted == agent.aborted && !agent.mon.turn.mustEnd
      && i <= |prompts| && agent.mon.flight.count == |prompts| - i
      && (i < |prompts| && agent.mon.flight.source.Some? ==> agent.View().Held() == prompts[i..])
    }

    method OpenFirstTurn(ghost prompts: seq<InputMessage>)
      requires Prompting(prompts, 0) && agent.mon.stage == Between && agent.mon.turn.first
      modifies agent, agent.steeringQueue, agent.followUpQueue
      ensures Prompting(prompts, 0) && agent.mon.stage.TurnOpen?
      ensures agent.mon.turn.deferred == old(agent.mon.turn.deferred) && agent.mon.run == old(agent.mon.run) && agent.Onward()
    {
      agent.Await();
      agent.Emit(TurnStart);
    }

    method InjectPrompt(prompts: seq<InputMessage>, i: nat)
      requires Prompting(prompts, i) && i < |prompts| && agent.mon.stage.TurnOpen?
      modifies agent, agent.steeringQueue, agent.followUpQueue
      ensures Prompting(prompts, i + 1) && agent.mon.stage.TurnOpen?
      ensures agent.mon.turn.deferred == old(agent.mon.turn.deferred)
        && agent.mon.run == Joined(old(agent.mon.run), prompts[i]) && agent.Onward()
    {
      agent.Inject(prompts[i]);
    }

    /** The first turn_start and the prompts; the loop's transcripts hold them from the beginning. */
    method InjectPrompts(prompts: seq<InputMessage>)
      requires Prompting(prompts, 0) && agent.mon.stage == Between && agent.mon.turn.first
      modifies agent, agent.steeringQueue, agent.followUpQueue
      ensures Prompting(prompts, |prompts|) && agent.mon.stage.TurnOpen?
      ensures agent.mon.turn.deferred == old(agent.mon.turn.deferred) && agent.Onward()
      ensures agent.mon.run == JoinedAll(old(agent.mon.run), prompts)
    {
      OpenFirstTurn(prompts);
      ghost var run := agent.mon.run;
      assert JoinedAll(run, prompts[..0]) == run;
      for i := 0 to |prompts|
        invariant Prompting(prompts, i) && agent.mon.stage.TurnOpen?
        invariant agent.mon.turn.deferred == old(agent.mon.turn.deferred) && agent.Onward()
        invariant agent.mon.run == JoinedAll(run, prompts[..i])
      {
        InjectPrompt(prompts, i);
        JoinedOne(run, prompts, i);
      }
      assert prompts[..|prompts|] == prompts;
    }

    /** A loop invocation, whose first turn injects its prompts. */
    method RunAgentLoop(prompts: seq<InputMessage>, turns: nat) returns (exit: Exit)
      requires Prompting(prompts, 0) && agent.mon.stage == Between && agent.mon.turn.first
        && skipInitialSteeringPoll == agent.mon.turn.deferred
      requires agent.mon.run.turns == 0 && agent.mon.run.ended == [] && agent.mon.run.context == agent.messages
      requires context == agent.messages + prompts && newMessages == prompts
      requires pendingMessages == [] && drainedTerminatingQueue == None
      modifies this, agent, agent.steeringQueue, agent.followUpQueue
      ensures Left(exit) && exit != Continues && prompts <= newMessages
      ensures Count(agent.mon) == old(Count(agent.mon)).(turns := agent.mon.run.turns)
        && (exit == Suspended ==> agent.mon.run.turns == turns)
      ensures agent.Onward()
    {
      InjectPrompts(prompts);
      exit := RunLoop(turns);
    }
  }
}
