/**
 * What an agent run may be observed to do. The entries of a log are the events of
 * packages/agent/src/agent-loop.ts and, between them, the loop's calls to its host: provider
 * requests, queue polls, hooks and tool executions. `Allowed` and `After` are the reference: an
 * automaton that says which entry may come next and accumulates what the promises of
 * packages/agent/src/types.ts speak about. It knows nothing of how the loop is written.
 */
module AgentProtocol {
  import opened Wrappers
  import opened ToolScheduling

  datatype StopReason = EndTurn | Length | ToolUse | Error | Aborted

  datatype ToolCall = ToolCall(id: nat, incomplete: bool)

  /** Bodies are opaque ids; `Input` is a user or custom message, the only kind that is prompted or queued. */
  datatype Message =
    | Input(body: nat)
    | Assistant(body: nat, calls: seq<ToolCall>, stop: StopReason, refusal: bool)
    | ToolResult(call: nat, body: nat, isError: bool)

  type InputMessage = m: Message | m.Input? witness Input(0)

  type AssistantMessage = m: Message | m.Assistant? witness Assistant(0, [], EndTurn, false)

  predicate Terminal(m: Message) {
    m.Assistant? && (m.stop == Error || m.stop == Aborted || m.refusal)
  }

  datatype QueueName = Steering | FollowUp

  /** Where an injected message came from; `ticket` is its position among all messages ever queued there. */
  datatype Origin = Prompted | Queued(queue: QueueName, ticket: nat) | Generated

  datatype BatchMode = Parallel | Sequential | Truncated

  datatype Entry =
    // events
    | AgentStart(context: seq<Message>, prompts: nat, from: Option<QueueName>, deferred: bool)
    | TurnStart
    | MessageStart(message: Message)
    | MessageUpdate(message: Message)
    | MessageEnd(message: Message, origin: Origin)
    | ToolStart(k: nat, id: nat)
    | ToolUpdate(k: nat)
    | ToolEnd(k: nat, id: nat, terminate: bool)
    | TurnEnd(message: Message, results: seq<Message>)
    | AgentEnd(messages: seq<Message>)
    // calls to the host
    | Activated
    | Finished
    | AbortRequested
    | Requested(sent: seq<Message>)
    | BatchBegun(mode: BatchMode)
    | Admitted(k: nat)
    | Scheduled(k: nat, sequential: bool)
    | Executing(k: nat)
    | StopAsked(stop: bool)
    | Prepared(ok: bool, replaced: Option<seq<Message>>)
    | Polled(queue: QueueName, count: nat)
    | PollDeferred
    | Restored

  datatype Stage =
    | Idle
    | Between
    | TurnOpen(untouched: bool)
    | Injecting(injected: Message)
    | Awaiting
    | Streaming(partial: Message)
    | Answering
    | Reporting(result: Message)
    | Failed0 | Failed1(failure: Message) | Failed2(failure: Message) | Failed3(failure: Message)

  datatype Polls = NotPolled | SteeringEmpty | BothEmpty | Found

  datatype Batch = Batch(
    mode: Option<BatchMode>,
    started: nat,             // tool_execution_start events
    running: set<nat>,        // started without tool_execution_end
    flags: seq<bool>,         // which scheduled calls are sequential
    admitted: set<nat>,       // calls that passed preflight
    executed: set<nat>,
    allTerminate: bool,
    results: seq<Message>)

  const NO_BATCH := Batch(None, 0, {}, [], {}, {}, true, [])

  /** One agent_start .. agent_end. */
  datatype RunPart = RunPart(
    number: nat,             // agent_start events so far
    turns: nat,              // turn_end events since the last one
    opening: bool,           // no invocation has begun since the agent became active
    before: seq<Message>,    // message_end payloads before agent_start
    ended: seq<Message>,     // message_end payloads since agent_start
    context: seq<Message>,   // what the next request is to send
    restarts: nat,           // messages in it that started and were never ended, since it was installed
    activity: nat)           // how often the agent has become active

  /** Messages taken from a queue, or prompted when there is no source, and not injected yet. */
  datatype Flight = Flight(source: Option<QueueName>, count: nat)

  datatype Turn = Turn(
    reply: Message,
    batch: Batch,
    more: bool,              // the finished turn has tool results the model must see
    mustEnd: bool,
    first: bool, asked: bool, prepared: bool,
    deferred: bool,          // the first look at steering is to find nothing
    polls: Polls)

  const NEW_TURN := Turn(Input(0), NO_BATCH, false, false, false, false, false, false, NotPolled)

  /** An injected message and its position among all messages ever queued where it came from. */
  datatype Delivery = Delivery(ticket: nat, message: Message)

  /**
   * Since the log began: the context of the first agent_start, every message_end payload, what was
   * delivered from each queue, the call ids whose last tool event is a start, and how often a
   * message started that had not ended.
   */
  datatype Totals = Totals(
    initial: Option<seq<Message>>, transcript: seq<Message>,
    steered: seq<Delivery>, followed: seq<Delivery>, pending: set<nat>, doubles: nat)

  datatype Monitor = Monitor(stage: Stage, aborted: bool, run: RunPart, flight: Flight, turn: Turn, totals: Totals)

  const START := Monitor(Idle, false, RunPart(0, 0, false, [], [], [], 0, 0), Flight(None, 0), NEW_TURN, Totals(None, [], [], [], {}, 0))

  function Calls(t: Turn): seq<ToolCall> {
    if t.reply.Assistant? then t.reply.calls else []
  }

  /** Every result of the turn asked to stop. */
  predicate Terminating(t: Turn) {
    t.batch.results != [] && t.batch.allTerminate
  }

  /** The turn's calls all have results; an abort may cut a batch short, and a terminal reply runs none. */
  predicate Answered(t: Turn, aborted: bool) {
    && t.batch.running == {} && |t.batch.results| == t.batch.started
    && (|| t.batch.started == |Calls(t)|
        || (Terminal(t.reply) && t.batch == NO_BATCH)
        || (aborted && 0 < t.batch.started && t.batch.mode.Some? && t.batch.mode != Some(Truncated)))
  }

  predicate OriginMatches(f: Flight, origin: Origin) {
    match f.source
    case None => origin == Prompted
    case Some(q) => origin.Queued? && origin.queue == q
  }

  /** The queues may be polled before a turn has content, and after it once the stop hook let it pass. */
  predicate MayPoll(m: Monitor) {
    && m.flight.count == 0 && !m.turn.mustEnd
    && (m.stage.TurnOpen? || (m.stage == Between && m.turn.asked))
  }

  /** A run ends for one of four reasons: a terminal reply, an abort, the stop hook, or nothing left to do. */
  predicate MayEnd(m: Monitor) {
    m.flight.count == 0 && (m.turn.mustEnd || m.aborted || (m.turn.polls == BothEmpty && !m.turn.more))
  }

  /** Waves: nothing executes before what a sequential call keeps in front of it has ended. */
  predicate MayExecute(b: Batch, k: nat) {
    && k in b.running && k in b.admitted && k !in b.executed
    && match b.mode
       case Some(Parallel) => k < |b.flags| && forall i | 0 <= i < k && Barrier(b.flags, i, k) :: i !in b.running
       case Some(Sequential) => b.running == {k}
       case _ => false
  }

  /** A call is judged once, while it is open; one with incomplete arguments never passes. */
  predicate MayAdmit(b: Batch, call: ToolCall, k: nat) {
    && k in b.running && k !in b.admitted && k !in b.executed && !call.incomplete
    && (b.mode == Some(Parallel) || b.mode == Some(Sequential))
  }

  /** A call that passed preflight does not end before it was executed. */
  predicate MayFinish(b: Batch, k: nat) {
    k in b.admitted ==> k in b.executed
  }

  /** Once the abort is seen no further call is launched, unless calls are only being refused. */
  predicate MayLaunch(b: Batch, k: nat, aborted: bool) {
    aborted ==> k == 0 || b.mode == Some(Truncated)
  }

  /** A tool result answers the first call that has none, once no call is running. */
  predicate MayReport(t: Turn, message: Message) {
    && message.ToolResult? && t.batch.running == {} && |t.batch.results| < t.batch.started <= |Calls(t)|
    && message.call == Calls(t)[|t.batch.results|].id
  }

  predicate Allowed(m: Monitor, e: Entry) {
    match e
    case Activated => m.stage == Idle
    case Finished => m.stage == Idle
    case AbortRequested => true
    case AgentStart(context, prompts, from, deferred) =>
      && m.stage == Idle && (if from == None then m.run.opening else prompts > 0)
      && (m.totals.initial.Some? ==> context == m.totals.initial.value + m.totals.transcript)
      && (from == Some(Steering) ==> deferred) && (from == Some(FollowUp) ==> !deferred)
      && (from == None && prompts > 0 ==> !deferred)
    case TurnStart =>
      && m.stage == Between && !m.turn.mustEnd
      && (m.turn.first || (m.turn.asked && m.turn.prepared && (m.turn.polls == Found || (m.turn.more && m.turn.polls == SteeringEmpty))))
    case MessageStart(message) =>
      (match m.stage
       case TurnOpen(_) => message.Input? && 0 < m.flight.count
       case Awaiting => message.Assistant?
       case Streaming(_) => message.Assistant?
       case Answering => MayReport(m.turn, message)
       case Failed0 => message.Assistant? && m.flight.count == 0
       case _ => false)
    case MessageUpdate(message) => m.stage.Streaming? && message.Assistant? && !m.aborted
    case MessageEnd(message, origin) =>
      (match m.stage
       case Injecting(injected) => message == injected && 0 < m.flight.count && OriginMatches(m.flight, origin)
       case Streaming(_) => message.Assistant? && origin == Generated
       case Reporting(result) => message == result && origin == Generated
       case Failed1(failure) => message == failure && origin == Generated
       case _ => false)
    case Requested(sent) =>
      && m.stage.TurnOpen? && m.flight.count == 0 && m.turn.polls != NotPolled && sent == m.run.context
    case BatchBegun(mode) =>
      && m.stage == Answering && m.turn.batch.mode == None && Calls(m.turn) != [] && !Terminal(m.turn.reply)
      && (mode == Truncated <==> m.turn.reply.Assistant? && m.turn.reply.stop == Length)
    case ToolStart(k, id) =>
      && m.stage == Answering && m.turn.batch.mode.Some? && k == m.turn.batch.started < |Calls(m.turn)|
      && id == Calls(m.turn)[k].id && MayLaunch(m.turn.batch, k, m.aborted)
      && |m.turn.batch.results| == (if m.turn.batch.mode == Some(Parallel) then 0 else m.turn.batch.started)
    case Scheduled(k, _) =>
      m.stage == Answering && m.turn.batch.mode == Some(Parallel) && k == |m.turn.batch.flags| < m.turn.batch.started
    case Admitted(k) => m.stage == Answering && !m.aborted && k < |Calls(m.turn)| && MayAdmit(m.turn.batch, Calls(m.turn)[k], k)
    case Executing(k) => m.stage == Answering && MayExecute(m.turn.batch, k)
    case ToolUpdate(k) => m.stage == Answering && k in m.turn.batch.running && k in m.turn.batch.executed
    case ToolEnd(k, id, _) =>
      && m.stage == Answering && k in m.turn.batch.running && k < |Calls(m.turn)| && id == Calls(m.turn)[k].id
      && MayFinish(m.turn.batch, k)
    case TurnEnd(message, results) =>
      (match m.stage
       case Answering => message == m.turn.reply && results == m.turn.batch.results && Answered(m.turn, m.aborted)
       case Failed2(failure) => message == failure && results == []
       case _ => false)
    case StopAsked(_) =>
      && m.stage == Between && !m.turn.mustEnd && !m.turn.first && !m.turn.asked
      && m.turn.prepared == !Terminating(m.turn)
    case Prepared(_, _) =>
      && m.stage == Between && !m.turn.mustEnd && !m.turn.first && !m.turn.prepared
      && if Terminating(m.turn) then m.turn.asked && m.turn.polls == Found else !m.turn.asked
    case Polled(queue, _) => MayPoll(m) && !m.turn.deferred
      && (queue == FollowUp ==> m.turn.polls == SteeringEmpty && !m.turn.more)
    case PollDeferred => MayPoll(m) && m.turn.deferred
    case Restored => m.flight.source.Some? && (m.stage == Between || m.stage == TurnOpen(true) || m.stage == Failed0)
    case AgentEnd(messages) =>
      (match m.stage
       case Between => !m.turn.first && messages == m.run.ended && MayEnd(m)
       case TurnOpen(untouched) => untouched && !m.turn.first && m.turn.polls == BothEmpty && messages == m.run.ended && MayEnd(m)
       case Failed3(failure) => messages == [failure]
       case _ => false)
  }

  function NextStage(s: Stage, e: Entry): Stage {
    match e
    case AgentStart(_, _, _, _) => Between
    case TurnStart => TurnOpen(true)
    case MessageStart(message) =>
      (match s
       case TurnOpen(_) => Injecting(message)
       case Awaiting => Streaming(message)
       case Streaming(_) => Streaming(message)
       case Answering => Reporting(message)
       case _ => Failed1(message))
    case MessageUpdate(message) => if s.Streaming? then Streaming(message) else s
    case MessageEnd(message, _) =>
      (match s
       case Injecting(_) => TurnOpen(false)
       case Streaming(_) => Answering
       case Reporting(_) => Answering
       case _ => Failed2(message))
    case Requested(_) => Awaiting
    case TurnEnd(message, _) => if s.Failed2? then Failed3(message) else Between
    case Prepared(ok, _) => if ok then s else Failed0
    case AgentEnd(_) => Idle
    case _ => s
  }

  /** A message that starts again leaves the partial it had in the context, for good. */
  function NextRun(r: RunPart, s: Stage, transcript: seq<Message>, e: Entry): RunPart {
    match e
    case Activated => r.(opening := true, activity := r.activity + 1)
    case AgentStart(context, _, _, _) => RunPart(r.number + 1, 0, false, transcript, [], context, 0, r.activity)
    case MessageStart(_) => if s.Streaming? then r.(context := r.context + [s.partial], restarts := r.restarts + 1) else r
    case MessageEnd(message, _) => r.(ended := r.ended + [message], context := r.context + [message])
    case TurnEnd(_, _) => r.(turns := r.turns + 1)
    case Prepared(true, Some(context)) => r.(context := context, restarts := 0)
    case _ => r
  }

  function NextFlight(f: Flight, s: Stage, e: Entry): Flight {
    match e
    case AgentStart(_, prompts, from, _) => Flight(from, prompts)
    case MessageEnd(_, _) => if s.Injecting? && f.count > 0 then Flight(f.source, f.count - 1) else f
    case Polled(queue, count) => Flight(Some(queue), count)
    case Restored => Flight(f.source, 0)
    case _ => f
  }

  function NextBatch(b: Batch, s: Stage, e: Entry): Batch {
    match e
    case TurnStart => NO_BATCH
    case MessageEnd(message, _) =>
      if s.Streaming? then NO_BATCH else if s.Reporting? then b.(results := b.results + [message]) else b
    case BatchBegun(mode) => b.(mode := Some(mode))
    case ToolStart(k, _) => b.(started := b.started + 1, running := b.running + {k})
    case Scheduled(_, sequential) => b.(flags := b.flags + [sequential])
    case Admitted(k) => b.(admitted := b.admitted + {k})
    case Executing(k) => b.(executed := b.executed + {k})
    case ToolEnd(k, _, terminate) => b.(running := b.running - {k}, allTerminate := b.allTerminate && terminate)
    case _ => b
  }

  function NextTurn(t: Turn, s: Stage, aborted: bool, e: Entry): Turn {
    var u := t.(batch := NextBatch(t.batch, s, e));
    match e
    case AgentStart(_, _, _, deferred) => Turn(t.reply, t.batch, false, false, true, false, false, deferred, NotPolled)
    case TurnStart => u.(reply := Input(0))
    case MessageEnd(message, _) => if s.Streaming? then u.(reply := message) else u
    case Requested(_) => t.(polls := NotPolled)
    case TurnEnd(message, results) =>
      Turn(t.reply, t.batch, results != [] && !t.batch.allTerminate, Terminal(message) || aborted, false, false, false, t.deferred, NotPolled)
    case StopAsked(stop) => t.(asked := true, mustEnd := stop)
    case Prepared(_, _) => t.(prepared := true, mustEnd := aborted)
    case Polled(queue, count) =>
      t.(polls := if count > 0 then Found else if queue == Steering then SteeringEmpty else BothEmpty)
    case PollDeferred => t.(polls := SteeringEmpty, deferred := false)
    case Restored => t.(polls := NotPolled)
    case _ => u
  }

  function NextTotals(t: Totals, s: Stage, e: Entry): Totals {
    match e
    case AgentStart(context, _, _, _) => if t.initial == None then t.(initial := Some(context)) else t
    case MessageEnd(message, origin) =>
      var injected := s.Injecting? && origin.Queued?;
      Totals(t.initial, t.transcript + [message],
             if injected && origin.queue == Steering then t.steered + [Delivery(origin.ticket, message)] else t.steered,
             if injected && origin.queue == FollowUp then t.followed + [Delivery(origin.ticket, message)] else t.followed,
             t.pending, t.doubles)
    case MessageStart(_) => if s.Streaming? then t.(doubles := t.doubles + 1) else t
    case ToolStart(_, id) => t.(pending := t.pending + {id})
    case ToolEnd(_, id, _) => t.(pending := t.pending - {id})
    case Finished => t.(pending := {})
    case _ => t
  }

  function After(m: Monitor, e: Entry): Monitor {
    Monitor(
      NextStage(m.stage, e),
      match e case Activated => false case AbortRequested => true case _ => m.aborted,
      NextRun(m.run, m.stage, m.totals.transcript, e),
      NextFlight(m.flight, m.stage, e),
      NextTurn(m.turn, m.stage, m.aborted, e),
      NextTotals(m.totals, m.stage, e))
  }

  /** Entries of a batch under way. */
  predicate OfTools(e: Entry) {
    e.BatchBegun? || e.Admitted? || e.Scheduled? || e.Executing? || e.ToolStart? || e.ToolUpdate? || e.ToolEnd?
  }

  /** Tools run only while a reply is being answered, a run that is over has nothing in flight, and transcripts add up. */
  predicate Coherent(m: Monitor) {
    && (m.stage == Answering || m.stage.Reporting? || m.turn.batch.running == {})
    && (m.stage == Idle || m.stage.Failed1? || m.stage.Failed2? || m.stage.Failed3? ==> m.flight.count == 0)
    && m.totals.transcript == m.run.before + m.run.ended
    && (m.totals.initial == None ==> m.stage == Idle && m.totals.transcript == [])
  }

  lemma AfterCoherent(m: Monitor, e: Entry)
    requires Coherent(m) && Allowed(m, e)
    ensures Coherent(After(m, e))
  {
    CoherentBatch(m, e);
    CoherentFlight(m, e);
    CoherentTranscript(m, e);
    CoherentStart(m, e);
  }

  lemma CoherentBatch(m: Monitor, e: Entry)
    requires Coherent(m) && Allowed(m, e)
    ensures var n := After(m, e); n.stage == Answering || n.stage.Reporting? || n.turn.batch.running == {}
  {
    if OfTools(e) {
      ToolsStayInReply(m, e);
    } else {
      OthersRunNothing(m, e);
    }
  }

  lemma ToolsStayInReply(m: Monitor, e: Entry)
    requires Allowed(m, e) && OfTools(e)
    ensures After(m, e).stage == Answering
  {
  }

  lemma OthersRunNothing(m: Monitor, e: Entry)
    requires Allowed(m, e) && !OfTools(e) && (m.stage == Answering || m.stage.Reporting? || m.turn.batch.running == {})
    ensures var n := After(m, e); n.stage == Answering || n.stage.Reporting? || n.turn.batch.running == {}
  {
    if e.MessageStart? || e.MessageEnd? {
      MessagesRunNothing(m, e);
    } else {
      BatchEndsIdle(m, e);
    }
  }

  lemma MessagesRunNothing(m: Monitor, e: Entry)
    requires Allowed(m, e) && (e.MessageStart? || e.MessageEnd?)
      && (m.stage == Answering || m.stage.Reporting? || m.turn.batch.running == {})
    ensures var n := After(m, e); n.stage == Answering || n.stage.Reporting? || n.turn.batch.running == {}
  {
  }

  /** A turn ends with no call running, and no other entry leaves the answering stage. */
  lemma BatchEndsIdle(m: Monitor, e: Entry)
    requires Allowed(m, e) && !OfTools(e) && !e.MessageStart? && !e.MessageEnd?
    requires m.stage == Answering || m.stage.Reporting? || m.turn.batch.running == {}
    ensures var n := After(m, e); n.stage == Answering || n.stage.Reporting? || n.turn.batch.running == {}
  {
  }

  lemma CoherentTranscript(m: Monitor, e: Entry)
    requires m.totals.transcript == m.run.before + m.run.ended
    ensures var n := After(m, e); n.totals.transcript == n.run.before + n.run.ended
  {
    if e.MessageEnd? {
      assert m.run.before + (m.run.ended + [e.message]) == m.run.before + m.run.ended + [e.message];
    }
  }

  /** Nothing happens before the first agent_start. */
  lemma CoherentStart(m: Monitor, e: Entry)
    requires Coherent(m) && Allowed(m, e)
    ensures var n := After(m, e); n.totals.initial == None ==> n.stage == Idle && n.totals.transcript == []
  {
    if e.MessageEnd? || e.AgentStart? {
    } else {
      assert NextTotals(m.totals, m.stage, e).transcript == m.totals.transcript;
    }
  }

  lemma CoherentFlight(m: Monitor, e: Entry)
    requires Coherent(m) && Allowed(m, e)
    ensures var n := After(m, e); n.stage == Idle || n.stage.Failed1? || n.stage.Failed2? || n.stage.Failed3? ==> n.flight.count == 0
  {
  }

  /** The monitor after a log, if every entry was allowed. */
  function Observe(log: seq<Entry>): Option<Monitor> {
    if log == [] then Some(START)
    else
      var before := Observe(log[..|log| - 1]);
      if before.Some? && Allowed(before.value, log[|log| - 1]) then Some(After(before.value, log[|log| - 1])) else None
  }

  predicate Replayed(k: nat) { true }

  /** The log was allowed throughout and led here. Guarded: only proofs that mention `Replayed` look inside. */
  ghost predicate Lawful(log: seq<Entry>, m: Monitor) {
    forall k: nat {:trigger Replayed(k)} :: Replayed(k) ==> Observe(log) == Some(m)
  }

  lemma LawfulStart()
    ensures Lawful([], START)
  {
  }

  predicate Stepped(k: nat) { true }

  /** An entry was allowed and leads on. Guarded: only proofs that mention `Stepped` look inside. */
  ghost predicate Leads(m: Monitor, e: Entry, n: Monitor) {
    forall k: nat {:trigger Stepped(k)} :: Stepped(k) ==> Allowed(m, e) && n == After(m, e)
  }

  lemma AllowedLeads(m: Monitor, e: Entry)
    requires Allowed(m, e)
    ensures Leads(m, e, After(m, e))
  {
  }

  lemma LawfulOnce(log: seq<Entry>, m: Monitor, n: Monitor)
    requires Lawful(log, m) && Lawful(log, n)
    ensures m == n
  {
    assert Replayed(0);
  }

  /** The last step of a lawful log. */
  lemma LawfulBefore(log: seq<Entry>, e: Entry, n: Monitor) returns (m: Monitor)
    requires Lawful(log + [e], n)
    ensures Lawful(log, m) && Leads(m, e, n)
  {
    assert Replayed(0);
    assert (log + [e])[..|log|] == log;
    m := Observe(log).value;
  }

  lemma Observed(log: seq<Entry>) returns (m: Monitor)
    requires Observe(log).Some?
    ensures Observe(log) == Some(m) && Lawful(log, m)
  {
    m := Observe(log).value;
  }

  /** The log without the user's aborts. */
  function Acts(log: seq<Entry>): seq<Entry> {
    if log == [] then [] else Acts(log[..|log| - 1]) + if log[|log| - 1].AbortRequested? then [] else [log[|log| - 1]]
  }

  predicate Recalled(k: nat) { true }

  /**
   * `logs` holds every value the log has had, each a prefix of what it is now. Guarded: only
   * proofs that mention `Recalled` look inside.
   */
  ghost predicate Chronicle(logs: set<seq<Entry>>, log: seq<Entry>, acts: seq<Entry>) {
    forall k: nat {:trigger Recalled(k)} :: Recalled(k) ==> log in logs && acts == Acts(log) && forall l <- logs :: l <= log
  }

  lemma ChronicleStart()
    ensures Chronicle({[]}, [], [])
  {
  }

  lemma ChronicleAppend(logs: set<seq<Entry>>, log: seq<Entry>, acts: seq<Entry>, e: Entry)
    requires Chronicle(logs, log, acts)
    ensures Chronicle(logs + {log + [e]}, log + [e], if e.AbortRequested? then acts else acts + [e])
  {
    assert Recalled(0);
    assert (log + [e])[..|log|] == log;
  }

  lemma LawfulAppend(log: seq<Entry>, m: Monitor, e: Entry)
    requires Lawful(log, m) && Allowed(m, e)
    ensures Lawful(log + [e], After(m, e))
  {
    assert Replayed(0);
    assert (log + [e])[..|log|] == log;
  }

  lemma LawfulLeads(log: seq<Entry>, m: Monitor, e: Entry, n: Monitor)
    requires Lawful(log, m) && Leads(m, e, n)
    ensures Lawful(log + [e], n)
  {
    assert Stepped(0);
    LawfulAppend(log, m, e);
  }
}
