/**
 * A program that shows what a second start event does. Its provider starts the message of one
 * response twice; nobody calls the agent meanwhile.
 */
module DoubleStart {
  import opened Wrappers
  import opened AgentProtocol
  import opened PendingMessages
  import opened UserHistory
  import opened AgentState
  import opened AgentLoop

  function TwoStarts(partial: AssistantMessage, reply: AssistantMessage): Response {
    Response(true, [Start(partial), Start(reply), Ended(None)], false, Some(reply))
  }

  /** Every request is answered so; no hook or tool intervenes. */
  function Doubling(partial: AssistantMessage, reply: AssistantMessage): Environment {
    Environment(
      _ => [], _ => TwoStarts(partial, reply), _ => Preflight(true, true, NoHook, false),
      (_, _) => Execution(0, false, false, Unchanged), _ => [], _ => false, _ => Keep, false)
  }

  /** Nobody has called the agent since it was created. */
  ghost predicate Untouched(agent: Agent)
    reads agent, agent.steeringQueue, agent.followUpQueue
  {
    && agent.Valid() && agent.outside == [SetMode(Steering, All), SetMode(FollowUp, All)]
    && forall n :: agent.env.user(n) == []
  }

  lemma NothingSubmitted(agent: Agent, name: QueueName)
    requires Untouched(agent)
    ensures Submitted(agent.history, name) == [] && Abort !in agent.history
  {
    assert Listened(0);
    SilentUser(agent.env.user, agent.since, agent.clock);
    var first := [SetMode(Steering, All)];
    assert agent.history == first + [SetMode(FollowUp, All)];
    assert agent.history[..1] == first && first[..0] == [];
  }

  lemma NeverAborted(agent: Agent)
    requires Untouched(agent)
    ensures !agent.aborted
  {
    NothingSubmitted(agent, Steering);
    assert Exposed(0);
  }

  lemma BelowSome(s: seq<nat>, n: nat)
    requires Below(s, n) && s != []
    ensures 0 < n
  {
    assert s[0] < n;
  }

  /** What was never queued is not in flight. */
  lemma NothingHeld(agent: Agent, name: QueueName)
    requires Untouched(agent) && agent.mon.flight.source == Some(name)
    ensures agent.mon.flight.count == 0
  {
    NothingSubmitted(agent, name);
    assert Exposed(0) && Remembered(0) && Opened(0);
    var l := agent.View().Queue(name).ledger;
    if l.inFlight != [] {
      BelowSome(l.inFlight, |l.enqueued|);
    }
  }

  /** What is read of such a response without an abort, and what is left of it in the context. */
  lemma BothStartsRead(partial: AssistantMessage, reply: AssistantMessage, read: nat, message: AssistantMessage)
    requires FinalMessage(TwoStarts(partial, reply), read, false, false, message)
    ensures read == 2 && message == reply
    ensures Leftovers(TwoStarts(partial, reply).events[..read]) == [partial]
  {
    var events := TwoStarts(partial, reply).events;
    assert events[2].Ended? && events[..2] == [Start(partial), Start(reply)];
    assert [Start(partial), Start(reply)][..1] == [Start(partial)] && [Start(partial)][..0] == [];
    assert Leftovers([Start(partial)]) == [] && PartialAfter([Start(partial)]) == Some(partial);
  }

  method Begin(agent: Agent, prompt: InputMessage) returns (loop: AgentLoop)
    requires Untouched(agent) && !agent.active && agent.mon == START && agent.messages == agent.initial == []
    modifies agent, agent.steeringQueue, agent.followUpQueue
    ensures fresh(loop) && loop.agent == agent && loop.Valid() && Untouched(agent)
    ensures agent.mon.stage.TurnOpen? && !agent.mon.turn.mustEnd && loop.pendingMessages == []
      && loop.drainedTerminatingQueue == None
    ensures loop.context == loop.newMessages == [prompt] && agent.mon.run.before == []
  {
    agent.Activate();
    NeverAborted(agent);
    agent.BeginPrompted(1, false);
    loop := new AgentLoop(agent, false, agent.messages + [prompt], [prompt]);
    loop.InjectPrompts([prompt]);
    assert Entered(0);
  }

  /** A prompt and the first request, whose reply starts twice: the context then holds one more message than the transcript. */
  method DoubleStartDoubles(prompt: InputMessage, partial: AssistantMessage, reply: AssistantMessage) returns (loop: AgentLoop)
    ensures loop.agent.Valid() && loop.agent.env == Doubling(partial, reply)
    ensures loop.agent.messages == [prompt, reply]
    ensures loop.context == loop.agent.mon.run.context == [prompt, partial, reply]
  {
    var agent := new Agent(Doubling(partial, reply), [], All, All);
    loop := Begin(agent, prompt);
    loop.TakeSteering();
    assert Entered(0);
    Ask(loop, prompt, partial, reply);
  }

  method Ask(loop: AgentLoop, prompt: InputMessage, partial: AssistantMessage, reply: AssistantMessage)
    requires Untouched(loop.agent) && loop.agent.env == Doubling(partial, reply) && loop.Ready(true)
    requires loop.context == loop.newMessages == [prompt] && loop.agent.initial == loop.agent.mon.run.before == []
    modifies loop`context, loop.agent, loop.agent.steeringQueue, loop.agent.followUpQueue
    ensures loop.agent.Valid() && loop.agent.messages == [prompt, reply]
    ensures loop.context == loop.agent.mon.run.context == [prompt, partial, reply]
  {
    assert Entered(0);
    if loop.pendingMessages != [] {
      NothingHeld(loop.agent, loop.agent.mon.flight.source.value);
    }
    ghost var read, cut, aborted;
    var message;
    message, read, cut, aborted := loop.StreamAssistantResponse();
    NeverAborted(loop.agent);
    BothStartsRead(partial, reply, read, message);
    assert Exposed(0);
  }
}
