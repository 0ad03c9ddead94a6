/**
 * The stateful agent of packages/agent/src/agent.ts: transcript, queues, abort signal and event
 * reduction. Everything outside the program is a parameter: `Environment` answers each question
 * the program asks, indexed by a clock that ticks with every answer, and at each await the user
 * may act on the queues and the abort signal.
 */
module AgentState {
  import opened Wrappers
  import opened AgentProtocol
  import opened PendingMessages
  import opened UserHistory

  /** A provider stream: what it yields, whether reading it fails, and what its result promise holds. */
  datatype StreamEvent = Start(partial: AssistantMessage) | Delta(partial: AssistantMessage) | Ended(failure: Option<StopReason>)
  datatype Response = Response(opens: bool, events: seq<StreamEvent>, breaks: bool, result: Option<AssistantMessage>)

  /** The answers that decide whether a call is executed. */
  datatype Preflight = Preflight(known: bool, valid: bool, hook: BeforeHook, sequential: bool)
  datatype BeforeHook = NoHook | Passes | Blocks | HookThrows

  datatype AfterHook = Unchanged | Overrides(body: Option<nat>, isError: Option<bool>, terminate: Option<bool>) | AfterThrows
  datatype Execution = Execution(body: nat, fails: bool, terminate: bool, hook: AfterHook)

  /** A scheduler's choice: which launched call moves next, and whether a running one only reports progress. */
  datatype Pick = Pick(k: nat, update: bool)

  datatype Preparation = Keep | Replace(context: seq<Message>) | Throws

  /** A batch of tool calls is known by the clock when it begins, and a call by its place in the batch. */
  datatype Environment = Environment(
    user: nat -> seq<UserAction>,
    response: nat -> Response,
    preflight: nat -> Preflight,
    execution: (nat, nat) -> Execution,
    schedule: nat -> seq<Pick>,
    stop: nat -> bool,
    preparation: nat -> Preparation,
    sequentialTools: bool)

  /** How many start events a provider stream holds. */
  function Starts(events: seq<StreamEvent>): nat {
    if events == [] then 0 else Starts(events[..|events| - 1]) + if events[|events| - 1].Start? then 1 else 0
  }

  lemma StartsStep(events: seq<StreamEvent>, i: nat)
    requires i < |events|
    ensures Starts(events[..i + 1]) == Starts(events[..i]) + (if events[i].Start? then 1 else 0) <= Starts(events)
  {
    assert events[..i + 1][..i] == events[..i];
    StartsMonotone(events, i + 1);
  }

  lemma {:induction false} StartsMonotone(events: seq<StreamEvent>, i: nat)
    requires i <= |events|
    ensures Starts(events[..i]) <= Starts(events)
  {
    if i == |events| {
      assert events[..i] == events;
    } else {
      assert events[..|events| - 1][..i] == events[..i];
      StartsMonotone(events[..|events| - 1], i);
    }
  }

  /** Every provider stream starts its message at most once. */
  ghost predicate SingleStreams(env: Environment) {
    forall n :: Starts(env.response(n).events) <= 1
  }

  /** Most entries leave flight and totals alone; a second start is counted. */
  lemma OthersKeep(m: Monitor, e: Entry)
    requires !e.MessageEnd? && !e.ToolStart? && !e.ToolEnd? && !e.Polled? && !e.AgentStart? && !e.Restored?
    requires !e.Activated? && !e.Finished? && !e.AbortRequested?
    ensures var n := After(m, e);
      && n.flight == m.flight && n.aborted == m.aborted && n.totals == m.totals.(doubles := n.totals.doubles)
      && (n.totals.doubles == m.totals.doubles || (e.MessageStart? && m.stage.Streaming?))
  {
  }

  /** The ids a listener tracks after a tool event. */
  function Tracking(pending: set<nat>, e: Entry): set<nat>
    requires e.ToolStart? || e.ToolEnd?
  {
    if e.ToolStart? then pending + {e.id} else pending - {e.id}
  }

  function PollResult(name: QueueName, count: nat): Polls {
    if count > 0 then Found else if name == Steering then SteeringEmpty else BothEmpty
  }

  function AfterPoll(m: Monitor, name: QueueName, count: nat): Monitor {
    m.(flight := Flight(Some(name), count), turn := m.turn.(polls := PollResult(name, count)))
  }

  lemma PollMoves(m: Monitor, name: QueueName, count: nat)
    ensures After(m, Polled(name, count)) == AfterPoll(m, name, count)
  {
  }

  lemma AbortLeads(m: Monitor)
    ensures Leads(m, AbortRequested, m.(aborted := true)) && After(m, AbortRequested) == m.(aborted := true)
  {
  }

  /** The protocol state when the agent has become active, and when it is idle again. */
  function Activity(m: Monitor): Monitor {
    m.(aborted := false, run := m.run.(opening := true, activity := m.run.activity + 1))
  }

  function Forgotten(m: Monitor): Monitor {
    m.(totals := m.totals.(pending := {}))
  }

  lemma ActivityMoves(m: Monitor)
    requires m.stage == Idle
    ensures Leads(m, Activated, Activity(m)) && After(m, Activated) == Activity(m)
    ensures Leads(m, Finished, Forgotten(m)) && After(m, Finished) == Forgotten(m)
  {
  }

  predicate Exposed(k: nat) { true }

  /** The state the loop shares with its user. */
  datatype Host = Host(
    steering: QueueState,
    followUp: QueueState,
    messages: seq<Message>,
    pendingToolCalls: set<nat>,
    active: bool,
    aborted: bool,
    suppressed: bool,
    initial: seq<Message>,
    history: seq<UserAction>,
    mon: Monitor)
  {
    function Queue(name: QueueName): QueueState {
      if name == Steering then steering else followUp
    }

    /** Guarded, so that only proofs that mention `Exposed` look inside. */
    ghost predicate Ok() {
      forall k: nat {:trigger Exposed(k)} :: Exposed(k) ==> Consistent()
    }

    /** The state agrees with what has been observed. */
    ghost predicate Consistent() {
      && steering.Ok() && followUp.Ok()
      && messages == initial + mon.totals.transcript
      && aborted == mon.aborted
      && Faithful(steering.ledger.enqueued, steering.ledger.delivered, mon.totals.steered)
      && Faithful(followUp.ledger.enqueued, followUp.ledger.delivered, mon.totals.followed)
      && |steering.ledger.inFlight| == (if mon.flight.source == Some(Steering) then mon.flight.count else 0)
      && |followUp.ledger.inFlight| == (if mon.flight.source == Some(FollowUp) then mon.flight.count else 0)
      && pendingToolCalls == mon.totals.pending
      && Coherent(mon)
      && (mon.totals.initial.Some? ==> mon.totals.initial.value == initial)
      && (aborted ==> Abort in history)
      && FromUser(Steering) && FromUser(FollowUp)
    }

    /** What has been queued and cleared, and the mode, are the user's doing. */
    ghost predicate FromUser(name: QueueName) {
      var q := Queue(name);
      Traced(history, name, q.ledger.enqueued, q.ledger.cleared, q.clearGeneration, q.mode)
    }

    /** The messages in flight from a queue. */
    ghost function Held(): (held: seq<InputMessage>)
      requires Ok()
      ensures |held| == if mon.flight.source == None then 0 else mon.flight.count
    {
      assert Exposed(0);
      if mon.flight.source == None then [] else Queue(mon.flight.source.value).Held()
    }

    ghost function WithQueue(name: QueueName, q: QueueState): Host {
      if name == Steering then this.(steering := q) else this.(followUp := q)
    }

    lemma CoherentNext(e: Entry)
      requires Ok() && Allowed(mon, e)
      ensures Coherent(mon) && Coherent(After(mon, e))
    {
      assert Exposed(0);
      AfterCoherent(mon, e);
    }

    /** The protocol moves on, and queues and transcript stay. */
    lemma KeptOk(n: Monitor)
      requires Ok() && Coherent(n) && n.flight == mon.flight && n.aborted == mon.aborted
      requires n.totals == mon.totals.(doubles := n.totals.doubles)
      ensures var h := this.(mon := n); h.Ok() && h.Held() == Held()
    {
      assert Exposed(0);
    }

    /** The state after an entry that changes nothing but the protocol's. */
    lemma OtherNext(e: Entry, n: Monitor)
      requires !e.MessageEnd? && !e.ToolStart? && !e.ToolEnd? && !e.Polled? && !e.AgentStart? && !e.Restored?
      requires !e.Activated? && !e.Finished? && !e.AbortRequested? && Ok() && Leads(mon, e, n)
      ensures var h := this.(mon := n); h.Ok() && h.Held() == Held()
      ensures n.totals.doubles == mon.totals.doubles || (e.MessageStart? && mon.stage.Streaming?)
    {
      assert Stepped(0);
      OthersKeep(mon, e);
      CoherentNext(e);
      KeptOk(n);
    }

    lemma ToolNext(e: Entry)
      requires (e.ToolStart? || e.ToolEnd?) && Ok() && Allowed(mon, e)
      ensures var h := this.(pendingToolCalls := Tracking(pendingToolCalls, e), mon := After(mon, e));
        h.Ok() && h.Held() == Held()
    {
      CoherentNext(e);
      assert Exposed(0);
    }

    lemma ActivatedNext()
      requires Ok() && Allowed(mon, Activated)
      ensures this.(aborted := false, active := true, suppressed := false, mon := After(mon, Activated)).Ok()
    {
      CoherentNext(Activated);
      assert Exposed(0);
    }

    lemma FinishedNext()
      requires Ok() && Allowed(mon, Finished)
      ensures this.(active := false, pendingToolCalls := {}, mon := After(mon, Finished)).Ok()
    {
      CoherentNext(Finished);
      assert Exposed(0);
    }

    /** A run may begin with the transcript as it stands. */
    lemma MayStart()
      requires Ok()
      ensures mon.totals.initial.Some? ==> messages == mon.totals.initial.value + mon.totals.transcript
    {
      assert Exposed(0);
    }

    lemma PromptedNext(count: nat, deferred: bool)
      requires Ok() && Allowed(mon, AgentStart(messages, count, None, deferred))
      ensures this.(mon := After(mon, AgentStart(messages, count, None, deferred))).Ok()
    {
      CoherentNext(AgentStart(messages, count, None, deferred));
      assert Exposed(0);
    }

    /** What a queue gives away is in flight. */
    lemma TakenOk(name: QueueName, n: Monitor)
      requires Ok() && mon.flight.count == 0 && Coherent(n) && n.flight == Flight(Some(name), Queue(name).Share())
      requires n.aborted == mon.aborted && n.totals == mon.totals.(initial := n.totals.initial)
      requires n.totals.initial.Some? ==> n.totals.initial.value == initial
      ensures Queue(name).Ok() && Queue(name).ledger.inFlight == [] && Queue(name).Drain().Ok()
      ensures WithQueue(name, Queue(name).Drain()).(mon := n).Ok()
    {
      assert Exposed(0);
      Queue(name).DrainOk();
    }

    /** The messages in flight are those of the queue they came from. */
    lemma HeldFrom(name: QueueName)
      requires Ok() && mon.flight.source == Some(name)
      ensures Queue(name).Ok() && Held() == Queue(name).Held()
    {
      assert Exposed(0);
    }

    /** A drained queue: the state after a poll, or after a run has begun with what was taken. */
    lemma TakenNext(name: QueueName, e: Entry)
      requires Ok() && Allowed(mon, e)
      requires if e.Polled? then e == Polled(name, Queue(name).Share())
               else
                 && e.AgentStart? && e.from == Some(name) && e.prompts == Queue(name).Share()
                 && (name == FollowUp ==> steering.messages == []) && e.context == messages
      ensures Queue(name).Ok() && Queue(name).ledger.inFlight == []
      ensures var h := WithQueue(name, Queue(name).Drain()).(mon := After(mon, e));
        h.Ok() && Queue(name).Drain().Ok() && h.Held() == Queue(name).Drain().Held()
    {
      CoherentNext(e);
      TakenStarts(e);
      TakenOk(name, After(mon, e));
      WithQueue(name, Queue(name).Drain()).(mon := After(mon, e)).HeldFrom(name);
    }

    /** The first run begins with the initial transcript. */
    lemma TakenStarts(e: Entry)
      requires Ok() && Allowed(mon, e) && (e.Polled? || (e.AgentStart? && e.context == messages))
      ensures var n := After(mon, e); n.totals.initial.Some? ==> n.totals.initial.value == initial
    {
      assert Exposed(0);
      assert mon.totals.initial == None ==> messages == initial + [] == initial;
    }

    /** What is in flight goes back to its queue, or is dropped if that was cleared meanwhile. */
    lemma RestoredOk(name: QueueName, n: Monitor)
      requires Ok() && mon.flight.source == Some(name) && Coherent(n) && n.flight == Flight(Some(name), 0)
      requires n.aborted == mon.aborted && n.totals == mon.totals
      ensures Queue(name).Ok() && Held() == Queue(name).Held()
      ensures WithQueue(name, Queue(name).Restore()).(mon := n).Ok()
    {
      assert Exposed(0);
      Queue(name).RestoreOk();
    }

    lemma RestoreKeeps(name: QueueName, n: Monitor)
      requires Queue(name).Ok() && n.aborted == mon.aborted
      ensures Kept(this, WithQueue(name, Queue(name).Restore()).(mon := n))
    {
    }

    lemma RestoredNext()
      requires Ok() && Allowed(mon, Restored)
      ensures var q := Queue(mon.flight.source.value);
        && q.Ok() && Held() == q.Held()
        && var h := WithQueue(mon.flight.source.value, q.Restore()).(mon := After(mon, Restored)); h.Ok() && Kept(this, h)
    {
      CoherentNext(Restored);
      RestoredOk(mon.flight.source.value, After(mon, Restored));
      RestoreKeeps(mon.flight.source.value, After(mon, Restored));
    }

    /** The ticket of the next message in flight. */
    ghost function NextTicket(): nat
      requires Ok() && mon.flight.source.Some? && 0 < mon.flight.count
    {
      assert Exposed(0);
      Queue(mon.flight.source.value).ledger.inFlight[0]
    }

    /** A message joins the transcript; one from a queue settles its ticket. */
    ghost function Pushed(message: Message, origin: Origin): Host
      requires origin.Queued? ==> Queue(origin.queue).ledger.inFlight != []
    {
      var h := this.(messages := messages + [message]);
      if origin.Queued? then h.WithQueue(origin.queue, Queue(origin.queue).Deliver()) else h
    }

    /** Injecting a message from a queue settles its ticket and leaves the rest in flight. */
    lemma InjectOk(name: QueueName, message: Message, n: Monitor)
      requires Ok() && mon.flight.source == Some(name) && 0 < mon.flight.count && message == Held()[0] && Coherent(n)
      requires n.aborted == mon.aborted && n.flight == Flight(Some(name), mon.flight.count - 1)
      requires var d, t := Delivery(NextTicket(), message), mon.totals;
        n.totals == if name == Steering then t.(transcript := t.transcript + [message], steered := t.steered + [d])
                    else t.(transcript := t.transcript + [message], followed := t.followed + [d])
      requires n.totals.initial.Some?
      ensures Queue(name).ledger.inFlight != []
      ensures var h := Pushed(message, Queued(name, NextTicket())).(mon := n); h.Ok() && h.Held() == Held()[1..]
    {
      assert Exposed(0);
      Queue(name).DeliverOk();
      Queue(name).HeldFirst();
      var l, ds := Queue(name).ledger, if name == Steering then mon.totals.steered else mon.totals.followed;
      FaithfulDeliver(l.enqueued, l.delivered, ds, NextTicket(), message);
    }

    lemma UnqueuedOk(message: Message, origin: Origin, n: Monitor)
      requires Ok() && !origin.Queued? && Coherent(n) && n.aborted == mon.aborted
      requires n.flight.source == mon.flight.source && (n.flight == mon.flight || mon.flight.source == None)
      requires n.totals == mon.totals.(transcript := mon.totals.transcript + [message])
      ensures var h := Pushed(message, origin).(mon := n); h.Ok() && h.Held() == Held()
    {
      assert Exposed(0);
    }

    lemma PushedNext(message: Message, origin: Origin)
      requires Ok() && Allowed(mon, MessageEnd(message, origin))
      requires mon.stage.Injecting? && mon.flight.source.Some? ==>
        origin == Queued(mon.flight.source.value, NextTicket()) && message == Held()[0]
      ensures origin.Queued? ==> mon.stage.Injecting? && Queue(origin.queue).ledger.inFlight != []
      ensures var h := Pushed(message, origin).(mon := After(mon, MessageEnd(message, origin)));
        h.Ok() && Kept(this, h) && h.Held() == if origin.Queued? then Held()[1..] else Held()
    {
      var n := After(mon, MessageEnd(message, origin));
      CoherentNext(MessageEnd(message, origin));
      if origin.Queued? {
        InjectOk(origin.queue, message, n);
      } else {
        UnqueuedOk(message, origin, n);
      }
    }

    /**
     * When no run is under way, every message the user ever queued that was not injected is still
     * queued, in order, unless the user has cleared the queue since; then it is dropped.
     */
    lemma IdleSettles(name: QueueName)
      requires Ok() && mon.stage == Idle
      ensures var l, sent, cut := Queue(name).ledger, Submitted(history, name), ClearedUpTo(history, name);
        && l.enqueued == sent && l.inFlight == [] && Increasing(l.delivered + l.queued) && Below(l.delivered, |sent|)
        && Faithful(sent, l.delivered, if name == Steering then mon.totals.steered else mon.totals.followed)
        && (forall t: nat :: t in l.queued <==> cut <= t < |sent| && t !in l.delivered)
        && (forall t: nat :: t in l.dropped <==> t < cut && t !in l.delivered)
        && |Queue(name).messages| == |l.queued|
        && (forall i | 0 <= i < |l.queued| :: l.queued[i] < |sent| && Queue(name).messages[i] == sent[l.queued[i]])
    {
      assert Exposed(0) && Remembered(0);
      Queue(name).Settles();
    }

    /** A user action. */
    function Act(action: UserAction): Host {
      var h := this.(steering := Acted(steering, Steering, action), followUp := Acted(followUp, FollowUp, action),
                     history := history + [action]);
      match action
      case Abort => if active then h.(aborted := true, mon := After(mon, AbortRequested)) else h
      case SuppressDrain => if active then h.(suppressed := true) else h
      case _ => h
    }

    /** The actions one after another. */
    function ActAll(actions: seq<UserAction>): Host {
      if actions == [] then this else ActAll(actions[..|actions| - 1]).Act(actions[|actions| - 1])
    }
  }

  /** User actions leave alone what the loop owns: the transcript, the messages in flight, the protocol state. */
  ghost predicate Quiet(a: Host, b: Host) {
    && a.Ok() && b.Ok() && a.history <= b.history
    && b.messages == a.messages && b.pendingToolCalls == a.pendingToolCalls && b.active == a.active
    && (a.aborted ==> b.aborted) && b.mon == a.mon.(aborted := b.aborted)
    && b.Held() == a.Held()
    && b.steering.takenAt == a.steering.takenAt && b.followUp.takenAt == a.followUp.takenAt
  }

  /** What no step of the loop changes by itself. */
  ghost predicate Kept(a: Host, b: Host) {
    && b.active == a.active && (a.aborted ==> b.aborted)
    && b.steering.takenAt == a.steering.takenAt && b.followUp.takenAt == a.followUp.takenAt
  }

  lemma ActedOk(q: QueueState, name: QueueName, action: UserAction, ds: seq<Delivery>)
    requires q.Ok() && Faithful(q.ledger.enqueued, q.ledger.delivered, ds)
    ensures var p := Acted(q, name, action);
      && p.Ok() && p.Held() == q.Held() && p.takenAt == q.takenAt && p.ledger.inFlight == q.ledger.inFlight
      && Faithful(p.ledger.enqueued, p.ledger.delivered, ds)
  {
    if action == Clear(name) {
      q.ClearOk();
    } else if action.Submit? && action.queue == name {
      q.EnqueueOk(Input(action.body));
      FaithfulEnqueue(q.ledger.enqueued, q.ledger.delivered, ds, Input(action.body));
    } else if action.SetMode? {
      ModeOk(q, action.mode);
    }
  }

  lemma ModeOk(q: QueueState, mode: QueueMode)
    requires q.Ok()
    ensures q.(mode := mode).Ok() && q.(mode := mode).Held() == q.Held()
  {
    assert Opened(0);
  }

  /** What an action does to queues and history. */
  lemma QueuesActed(h: Host, action: UserAction)
    requires h.Ok()
    ensures var k := h.(steering := Acted(h.steering, Steering, action), followUp := Acted(h.followUp, FollowUp, action),
                        history := h.history + [action]);
      k.Ok() && k.Held() == h.Held() && k.steering.takenAt == h.steering.takenAt && k.followUp.takenAt == h.followUp.takenAt
  {
    assert Exposed(0);
    ActedOk(h.steering, Steering, action, h.mon.totals.steered);
    ActedOk(h.followUp, FollowUp, action, h.mon.totals.followed);
    TracedAct(h.history, Steering, h.steering, action);
    TracedAct(h.history, FollowUp, h.followUp, action);
  }

  /** An abort, and a request to leave the queues alone, change one flag. */
  lemma FlagsOk(h: Host)
    requires h.Ok()
    ensures h.(suppressed := true).Ok() && h.(suppressed := true).Held() == h.Held()
    ensures After(h.mon, AbortRequested) == h.mon.(aborted := true)
    ensures var k := h.(aborted := true, mon := h.mon.(aborted := true)); Abort in h.history ==> k.Ok() && k.Held() == h.Held()
  {
    assert Exposed(0);
  }

  lemma ActQuiet(h: Host, action: UserAction)
    requires h.Ok()
    ensures Quiet(h, h.Act(action))
  {
    var k := h.(steering := Acted(h.steering, Steering, action), followUp := Acted(h.followUp, FollowUp, action),
                history := h.history + [action]);
    QueuesActed(h, action);
    FlagsOk(k);
    AbortsAgree(h);
  }

  lemma AbortsAgree(h: Host)
    requires h.Ok()
    ensures h.aborted == h.mon.aborted
  {
    assert Exposed(0);
  }

  lemma QuietTrans(a: Host, b: Host, c: Host)
    requires Quiet(a, b) && Quiet(b, c)
    ensures Quiet(a, c)
  {
  }

  lemma {:induction false} ActAllQuiet(h: Host, actions: seq<UserAction>)
    requires h.Ok()
    ensures Quiet(h, h.ActAll(actions)) && h.ActAll(actions).history == h.history + actions
  {
    if actions == [] {
      assert Exposed(0);
    } else {
      var before, action := actions[..|actions| - 1], actions[|actions| - 1];
      ActAllQuiet(h, before);
      ActQuiet(h.ActAll(before), action);
      QuietTrans(h, h.ActAll(before), h.ActAll(actions));
      assert before + [action] == actions;
    }
  }

  predicate IsEvent(e: Entry) {
    || e.AgentStart? || e.TurnStart? || e.MessageStart? || e.MessageUpdate? || e.MessageEnd?
    || e.ToolStart? || e.ToolUpdate? || e.ToolEnd? || e.TurnEnd? || e.AgentEnd?
  }

  class Agent {
    const env: Environment
    var clock: nat
    const steeringQueue: PendingMessageQueue
    const followUpQueue: PendingMessageQueue
    var messages: seq<Message>
    var pendingToolCalls: set<nat>
    var active: bool
    var aborted: bool
    var suppressQueuedMessageDrain: bool

    ghost const initial: seq<Message>
    ghost var log: seq<Entry>
    ghost var logs: set<seq<Entry>>    // every value the log has had
    ghost var acts: seq<Entry>         // the log without the user's aborts
    ghost var mon: Monitor

    ghost var history: seq<UserAction> // all the user has done
    ghost var outside: seq<UserAction> // the history when the user last acted outside an await
    ghost var since: nat               // the clock then

    ghost function View(): Host
      reads this, steeringQueue, followUpQueue
    {
      Host(steeringQueue.View(), followUpQueue.View(), messages, pendingToolCalls, active, aborted,
           suppressQueuedMessageDrain, initial, history, mon)
    }

    function Queue(name: QueueName): PendingMessageQueue {
      if name == Steering then steeringQueue else followUpQueue
    }

    /** All that has happened was allowed, and during a run only the awaits let the user act. */
    ghost predicate Valid()
      reads this, steeringQueue, followUpQueue
    {
      Steady() && Attended(history, outside, env.user, since, clock)
    }

    /** Everything the program has done so far was allowed, and streams that start once leave no double start. */
    ghost predicate Steady()
      reads this, steeringQueue, followUpQueue
    {
      && steeringQueue != followUpQueue && Lawful(log, mon) && Chronicle(logs, log, acts) && View().Ok()
      && (SingleStreams(env) ==> mon.totals.doubles == 0)
    }

    /** The log and the clock only grow, and the user acts in awaits only. */
    twostate predicate Advanced()
      reads this
    {
      old(logs) <= logs && old(clock) <= clock && outside == old(outside) && since == old(since)
    }

    /** The same, and an abort stays. */
    twostate predicate Onward()
      reads this
    {
      (old(aborted) ==> aborted) && Advanced()
    }

    ghost method Record(e: Entry, n: Monitor)
      requires Lawful(log, mon) && Chronicle(logs, log, acts) && Leads(mon, e, n)
      modifies this`log, this`logs, this`acts, this`mon
      ensures Lawful(log, mon) && Chronicle(logs, log, acts) && mon == n
      ensures log == old(log) + [e] && log in logs && Advanced()
        && acts == if e.AbortRequested? then old(acts) else old(acts) + [e]
    {
      LawfulLeads(log, mon, e, n);
      ChronicleAppend(logs, log, acts, e);
      log := log + [e];
      logs := logs + {log};
      acts := if e.AbortRequested? then acts else acts + [e];
      mon := n;
    }

    constructor (env: Environment, messages: seq<Message>, steeringMode: QueueMode, followUpMode: QueueMode)
      ensures Valid() && log == [] && !active && initial == messages && mon == START && this.env == env
      ensures this.messages == messages
        && history == outside == [SetMode(Steering, steeringMode), SetMode(FollowUp, followUpMode)]
      ensures fresh(steeringQueue) && fresh(followUpQueue)
    {
      this.env := env;
      clock := 0;
      this.messages := messages;
      initial := messages;
      pendingToolCalls := {};
      active, aborted, suppressQueuedMessageDrain := false, false, false;
      log, logs, acts := [], {[]}, [];
      mon := START;
      history := [SetMode(Steering, steeringMode), SetMode(FollowUp, followUpMode)];
      outside, since := history, 0;
      steeringQueue := new PendingMessageQueue(steeringMode);
      followUpQueue := new PendingMessageQueue(followUpMode);
      new;
      LawfulStart();
      ChronicleStart();
      AttendedNothing(history, env.user, 0);
      TracedStart(steeringMode, followUpMode);
      assert View().Consistent();
    }

    /** The user acts on an agent from outside, whether or not a run is under way. */
    method Act(action: UserAction)
      requires Valid()
      modifies this, steeringQueue, followUpQueue
      ensures Valid() && View() == old(View()).Act(action) && Quiet(old(View()), View()) && clock == old(clock)
      ensures history == old(history) + [action] && acts == old(acts) && old(logs) <= logs
    {
      Apply(action);
      ActQuiet(old(View()), action);
      outside, since := history, clock;
      AttendedNothing(history, env.user, clock);
    }

    method Apply(action: UserAction)
      requires Steady()
      modifies this, steeringQueue, followUpQueue
      ensures Steady() && View() == old(View()).Act(action) && clock == old(clock) && acts == old(acts) && Onward()
    {
      if action.Abort? {
        RequestAbort();
      } else if action.SuppressDrain? {
        ParkQueues();
      } else {
        ApplyToQueue(action);
      }
    }

    /** The active run's abort signal, if there is one. */
    method RequestAbort()
      requires Steady()
      modifies this`aborted, this`log, this`logs, this`acts, this`mon, this`history
      ensures Steady() && View() == old(View()).Act(Abort) && clock == old(clock) && acts == old(acts) && Onward()
    {
      ActQuiet(View(), Abort);
      AbortLeads(mon);
      if active {
        Record(AbortRequested, mon.(aborted := true));
        aborted := true;
      }
      history := history + [Abort];
    }

    /** The active run will leave what is queued for an external owner. */
    method ParkQueues()
      requires Steady()
      modifies this`suppressQueuedMessageDrain, this`history
      ensures Steady() && View() == old(View()).Act(SuppressDrain) && clock == old(clock) && acts == old(acts) && Onward()
    {
      ActQuiet(View(), SuppressDrain);
      suppressQueuedMessageDrain := suppressQueuedMessageDrain || active;
      history := history + [SuppressDrain];
    }

    method ApplyToQueue(action: UserAction)
      requires Steady() && (action.Submit? || action.Clear? || action.SetMode?)
      modifies this`history, steeringQueue, followUpQueue
      ensures Steady() && View() == old(View()).Act(action) && clock == old(clock) && acts == old(acts) && Onward()
    {
      ActQuiet(View(), action);
      ActOnQueue(action);
      history := history + [action];
    }

    method ActOnQueue(action: UserAction)
      requires steeringQueue != followUpQueue && (action.Submit? || action.Clear? || action.SetMode?)
      modifies steeringQueue, followUpQueue
      ensures steeringQueue.View() == Acted(old(steeringQueue.View()), Steering, action)
      ensures followUpQueue.View() == Acted(old(followUpQueue.View()), FollowUp, action)
    {
      match action {
        case Submit(queue, body) => Queue(queue).Enqueue(Input(body));
        case Clear(queue) => Queue(queue).Clear();
        case SetMode(queue, mode) => Queue(queue).mode := mode;
      }
    }

    /** An await: whatever the user does before the program runs again. */
    method Await()
      requires Valid()
      modifies this, steeringQueue, followUpQueue
      ensures Valid() && Quiet(old(View()), View())
      ensures View() == old(View()).ActAll(env.user(old(clock))) && clock == old(clock) + 1
      ensures acts == old(acts) && Onward()
    {
      var actions := env.user(clock);
      clock := clock + 1;
      ApplyAll(actions);
      ActAllQuiet(old(View()), actions);
      AttendedMore(old(history), outside, env.user, since, old(clock));
    }

    method ApplyAll(actions: seq<UserAction>)
      requires Steady()
      modifies this, steeringQueue, followUpQueue
      ensures Steady() && View() == old(View()).ActAll(actions) && clock == old(clock) && acts == old(acts) && Onward()
    {
      for i := 0 to |actions|
        invariant Steady() && View() == old(View()).ActAll(actions[..i])
        invariant clock == old(clock) && acts == old(acts) && Onward()
      {
        Apply(actions[i]);
        assert actions[..i + 1][..i] == actions[..i];
      }
      assert actions[..|actions|] == actions;
    }

    /** Records an entry that changes nothing but the protocol state. */
    ghost method Note(e: Entry)
      requires Valid() && Allowed(mon, e) && !e.MessageEnd? && !e.ToolStart? && !e.ToolEnd?
      requires e.MessageStart? && mon.stage.Streaming? ==> !SingleStreams(env)
      requires !e.AgentStart? && !e.Polled? && !e.Restored? && !e.Activated? && !e.Finished? && !e.AbortRequested?
      modifies this`log, this`logs, this`acts, this`mon
      ensures Valid() && mon == After(old(mon), e) && log == old(log) + [e] && log in logs && acts == old(acts) + [e] && Onward()
      ensures Kept(old(View()), View()) && View().Held() == old(View()).Held()
    {
      AllowedLeads(mon, e);
      NoteTo(e, After(mon, e));
    }

    /** The same where the next protocol state is known, and how it comes about is not looked into. */
    ghost method NoteTo(e: Entry, n: Monitor)
      requires Valid() && Leads(mon, e, n) && !e.MessageEnd? && !e.ToolStart? && !e.ToolEnd?
      requires e.MessageStart? && mon.stage.Streaming? ==> !SingleStreams(env)
      requires !e.AgentStart? && !e.Polled? && !e.Restored? && !e.Activated? && !e.Finished? && !e.AbortRequested?
      modifies this`log, this`logs, this`acts, this`mon
      ensures Valid() && mon == n && log == old(log) + [e] && log in logs && acts == old(acts) + [e] && Onward()
      ensures Kept(old(View()), View()) && View().Held() == old(View()).Held()
    {
      View().OtherNext(e, n);
      Record(e, n);
    }

    /** A finished message joins the transcript; if it came from a queue its ticket is settled. */
    method PushMessage(message: Message, ghost origin: Origin)
      requires Valid() && Allowed(mon, MessageEnd(message, origin))
      requires mon.stage.Injecting? && mon.flight.source.Some? ==>
        origin == Queued(mon.flight.source.value, View().NextTicket()) && message == View().Held()[0]
      modifies this`messages, this`log, this`logs, this`acts, this`mon, steeringQueue`ledger, followUpQueue`ledger
      ensures Valid() && mon == After(old(mon), MessageEnd(message, origin))
        && acts == old(acts) + [MessageEnd(message, origin)] && Onward()
      ensures Kept(old(View()), View())
      ensures View().Held() == if origin.Queued? then old(View()).Held()[1..] else old(View()).Held()
    {
      View().PushedNext(message, origin);
      Append(message, origin, After(mon, MessageEnd(message, origin)));
    }

    method Append(message: Message, ghost origin: Origin, ghost n: Monitor)
      requires Valid() && Leads(mon, MessageEnd(message, origin), n) && n.totals.doubles == mon.totals.doubles
      requires origin.Queued? ==> View().Queue(origin.queue).ledger.inFlight != []
      requires View().Pushed(message, origin).(mon := n).Ok()
      modifies this`messages, this`log, this`logs, this`acts, this`mon, steeringQueue`ledger, followUpQueue`ledger
      ensures Valid() && View() == old(View()).Pushed(message, origin).(mon := n)
      ensures acts == old(acts) + [MessageEnd(message, origin)] && Onward()
    {
      ghost var next := View().Pushed(message, origin).(mon := n);
      messages := messages + [message];
      Settle(origin);
      Record(MessageEnd(message, origin), n);
      assert View() == next;
    }

    /** The ticket of a message from a queue is settled. */
    ghost method Settle(origin: Origin)
      requires steeringQueue != followUpQueue && (origin.Queued? ==> Queue(origin.queue).ledger.inFlight != [])
      modifies steeringQueue`ledger, followUpQueue`ledger
      ensures View() == if origin.Queued? then old(View()).WithQueue(origin.queue, old(View()).Queue(origin.queue).Deliver()) else old(View())
    {
      if origin.Queued? {
        Queue(origin.queue).Deliver();
      }
    }

    method TrackTool(e: Entry)
      requires Valid() && (e.ToolStart? || e.ToolEnd?) && Allowed(mon, e)
      modifies this`pendingToolCalls, this`log, this`logs, this`acts, this`mon
      ensures Valid() && mon == After(old(mon), e) && acts == old(acts) + [e] && Onward()
      ensures Kept(old(View()), View()) && View().Held() == old(View()).Held()
    {
      View().ToolNext(e);
      AllowedLeads(mon, e);
      Track(e, After(mon, e));
    }

    method Track(e: Entry, ghost n: Monitor)
      requires Valid() && (e.ToolStart? || e.ToolEnd?) && Leads(mon, e, n) && n.totals.doubles == mon.totals.doubles
      requires View().(pendingToolCalls := Tracking(pendingToolCalls, e), mon := n).Ok()
      modifies this`pendingToolCalls, this`log, this`logs, this`acts, this`mon
      ensures Valid() && View() == old(View()).(pendingToolCalls := Tracking(old(pendingToolCalls), e), mon := n)
      ensures acts == old(acts) + [e] && Onward()
    {
      pendingToolCalls := Tracking(pendingToolCalls, e);
      Record(e, n);
    }

    /** Emits an event: the state is reduced, then listeners are awaited. */
    method Emit(e: Entry)
      requires Valid() && IsEvent(e) && !e.AgentStart? && Allowed(mon, e) && (e.MessageEnd? ==> e.origin == Generated)
      requires e.MessageStart? && mon.stage.Streaming? ==> !SingleStreams(env)
      modifies this, steeringQueue, followUpQueue
      ensures Valid() && mon == After(old(mon), e).(aborted := aborted) && acts == old(acts) + [e] && Onward()
      ensures Kept(old(View()), View()) && View().Held() == old(View()).Held()
    {
      if e.MessageEnd? {
        PushMessage(e.message, Generated);
      } else if e.ToolStart? || e.ToolEnd? {
        TrackTool(e);
      } else {
        Note(e);
      }
      Await();
    }

    /** Emits the two events that inject the next message in flight. */
    method Inject(message: InputMessage)
      requires Valid() && mon.stage.TurnOpen? && message.Input? && 0 < mon.flight.count
      requires mon.flight.source.Some? ==> message == View().Held()[0]
      modifies this, steeringQueue, followUpQueue
      ensures Valid() && Kept(old(View()), View()) && Onward() && mon.stage == TurnOpen(false) && mon.aborted == aborted
      ensures mon.run == old(mon).run.(ended := old(mon).run.ended + [message], context := old(mon).run.context + [message])
      ensures mon.turn == old(mon).turn
      ensures mon.flight == Flight(old(mon).flight.source, old(mon).flight.count - 1)
      ensures mon.flight.source.Some? ==> View().Held() == old(View()).Held()[1..]
    {
      StartInjection(message);
      EndInjection(message);
    }

    method StartInjection(message: InputMessage)
      requires Valid() && mon.stage.TurnOpen? && message.Input? && 0 < mon.flight.count
      modifies this, steeringQueue, followUpQueue
      ensures Valid() && Kept(old(View()), View()) && View().Held() == old(View()).Held() && Onward()
      ensures mon == old(mon).(stage := Injecting(message), aborted := aborted)
    {
      Emit(MessageStart(message));
    }

    method EndInjection(message: InputMessage)
      requires Valid() && mon.stage == Injecting(message) && mon.aborted == aborted && 0 < mon.flight.count
      requires mon.flight.source.Some? ==> message == View().Held()[0]
      modifies this, steeringQueue, followUpQueue
      ensures Valid() && Kept(old(View()), View()) && Onward() && mon.stage == TurnOpen(false) && mon.aborted == aborted
      ensures mon.run == old(mon).run.(ended := old(mon).run.ended + [message], context := old(mon).run.context + [message])
      ensures mon.turn == old(mon).turn
      ensures mon.flight == Flight(old(mon).flight.source, old(mon).flight.count - 1)
      ensures mon.flight.source.Some? ==> View().Held() == old(View()).Held()[1..]
    {
      ghost var origin := match mon.flight.source
        case None => Prompted
        case Some(name) => Queued(name, View().NextTicket());
      PushMessage(message, origin);
      Await();
    }

    /** Takes a queue's share; the entry says what for. */
    method Take(name: QueueName, ghost e: Entry) returns (drained: seq<InputMessage>)
      requires Valid() && Allowed(mon, e)
      requires if e.Polled? then e == Polled(name, View().Queue(name).Share())
               else e.AgentStart? && e.from == Some(name) && e.prompts == View().Queue(name).Share()
                    && (name == FollowUp ==> steeringQueue.messages == []) && e.context == messages
      modifies this`log, this`logs, this`acts, this`mon, steeringQueue, followUpQueue
      ensures Valid() && mon == After(old(mon), e) && acts == old(acts) + [e] && Onward()
      ensures active == old(active) && aborted == old(aborted) && drained == View().Held()
      ensures Queue(name).takenAt == old(Queue(name).clearGeneration)
      ensures log == old(log) + [e] && log in logs && drained == old(Queue(name).messages)[..old(View()).Queue(name).Share()]
      ensures name == Steering ==> followUpQueue.View() == old(followUpQueue.View())
      ensures name == FollowUp ==> steeringQueue.View() == old(steeringQueue.View())
    {
      View().TakenNext(name, e);
      AllowedLeads(mon, e);
      drained := TakeTo(name, e, After(mon, e));
    }

    method TakeTo(name: QueueName, ghost e: Entry, ghost n: Monitor) returns (drained: seq<InputMessage>)
      requires Valid() && Leads(mon, e, n) && !e.AbortRequested? && n.totals.doubles == mon.totals.doubles
      requires Queue(name).View().Ok() && Queue(name).ledger.inFlight == []
      requires View().WithQueue(name, Queue(name).View().Drain()).(mon := n).Ok()
      modifies this`log, this`logs, this`acts, this`mon, steeringQueue, followUpQueue
      ensures Valid() && View() == old(View()).WithQueue(name, old(Queue(name).View()).Drain()).(mon := n)
      ensures log == old(log) + [e] && log in logs && acts == old(acts) + [e] && Onward()
      ensures Queue(name).View().Ok()
        && drained == Queue(name).View().Held() == old(Queue(name).messages)[..old(Queue(name).View()).Share()]
    {
      ghost var next := View().WithQueue(name, Queue(name).View().Drain()).(mon := n);
      drained := Queue(name).Drain();
      Record(e, n);
      assert View() == next;
    }

    /** Drains a queue for the loop; `generation` is what a later restore compares. */
    method Poll(name: QueueName) returns (drained: seq<InputMessage>, generation: nat)
      requires Valid() && MayPoll(mon) && !mon.turn.deferred
        && (name == FollowUp ==> mon.turn.polls == SteeringEmpty && !mon.turn.more)
      modifies this, steeringQueue, followUpQueue
      ensures Valid() && mon == AfterPoll(old(mon), name, |drained|).(aborted := aborted)
      ensures active == old(active) && Onward()
      ensures drained == View().Held() && generation == Queue(name).takenAt
    {
      generation := Queue(name).clearGeneration;
      ghost var share := View().Queue(name).Share();
      PollMoves(mon, name, share);
      drained := Take(name, Polled(name, share));
      Await();
    }

    /** A poll that is told to find nothing, whatever is queued. */
    method DeferPoll()
      requires Valid() && MayPoll(mon) && mon.turn.deferred
      modifies this, steeringQueue, followUpQueue
      ensures Valid() && mon == After(old(mon), PollDeferred).(aborted := aborted)
      ensures Kept(old(View()), View()) && View().Held() == old(View()).Held() && Onward()
    {
      Note(PollDeferred);
      Await();
    }

    /** Gives the messages in flight back to their queue, unless it was cleared since they were taken. */
    method GiveBack(name: QueueName, restored: seq<InputMessage>, generation: nat)
      requires Valid() && Allowed(mon, Restored) && mon.flight.source == Some(name)
      requires restored == View().Held() && generation == Queue(name).takenAt
      modifies this`log, this`logs, this`acts, this`mon, steeringQueue, followUpQueue
      ensures Valid() && mon == After(old(mon), Restored) && Onward()
      ensures Kept(old(View()), View())
    {
      View().RestoredNext();
      AllowedLeads(mon, Restored);
      RestoreTo(name, restored, generation, After(mon, Restored));
    }

    method RestoreTo(name: QueueName, restored: seq<InputMessage>, generation: nat, ghost n: Monitor)
      requires Valid() && Leads(mon, Restored, n) && n.totals.doubles == mon.totals.doubles
      requires Queue(name).View().Ok() && restored == Queue(name).View().Held() && generation == Queue(name).takenAt
      requires View().WithQueue(name, Queue(name).View().Restore()).(mon := n).Ok()
      modifies this`log, this`logs, this`acts, this`mon, steeringQueue, followUpQueue
      ensures Valid() && View() == old(View()).WithQueue(name, old(Queue(name).View()).Restore()).(mon := n)
      ensures acts == old(acts) + [Restored] && Onward()
    {
      ghost var next := View().WithQueue(name, Queue(name).View().Restore()).(mon := n);
      Queue(name).GiveBack(restored, generation);
      Record(Restored, n);
      assert View() == next;
    }

    method Restore(name: QueueName, restored: seq<InputMessage>, generation: nat)
      requires Valid() && Allowed(mon, Restored) && mon.flight.source == Some(name)
      requires restored == View().Held() && generation == Queue(name).takenAt
      modifies this, steeringQueue, followUpQueue
      ensures Valid() && mon == After(old(mon), Restored).(aborted := aborted)
      ensures Kept(old(View()), View()) && Onward()
    {
      GiveBack(name, restored, generation);
      Await();
    }

    /** A new run: a fresh abort signal. */
    method Activate()
      requires Valid() && !active && mon.stage == Idle
      modifies this`active, this`aborted, this`suppressQueuedMessageDrain, this`log, this`logs, this`acts, this`mon
      ensures Valid() && active && mon == Activity(old(mon)) && !aborted && Advanced() && log == old(log) + [Activated]
      ensures steeringQueue.takenAt == old(steeringQueue.takenAt) && followUpQueue.takenAt == old(followUpQueue.takenAt)
    {
      View().ActivatedNext();
      active, aborted, suppressQueuedMessageDrain := true, false, false;
      ActivityMoves(mon);
      Record(Activated, Activity(mon));
    }

    /** finishRun: the agent is idle again. */
    method Finish()
      requires Valid() && mon.stage == Idle
      modifies this`active, this`pendingToolCalls, this`log, this`logs, this`acts, this`mon
      ensures Valid() && !active && pendingToolCalls == {} && mon == Forgotten(old(mon)) && Onward()
    {
      View().FinishedNext();
      active, pendingToolCalls := false, {};
      ActivityMoves(mon);
      Record(Finished, Forgotten(mon));
    }

    /** agent_start for a run whose prompts the caller supplies. */
    ghost method BeginPrompted(count: nat, deferred: bool)
      requires Valid() && mon.stage == Idle && mon.run.opening && (count > 0 ==> !deferred)
      modifies this`log, this`logs, this`acts, this`mon
      ensures Valid() && mon == After(old(mon), AgentStart(old(messages), count, None, deferred))
      ensures log == old(log) + [AgentStart(old(messages), count, None, deferred)] && log in logs && Onward()
    {
      ghost var e := AgentStart(messages, count, None, deferred);
      View().MayStart();
      View().PromptedNext(count, deferred);
      AllowedLeads(mon, e);
      Record(e, After(mon, e));
    }

    /** agent_start for a run whose prompts are drained from a queue; steering goes first, and is then not polled again. */
    method BeginQueued(name: QueueName) returns (prompts: seq<InputMessage>)
      requires Valid() && mon.stage == Idle && Queue(name).HasItems() && (name == FollowUp ==> !steeringQueue.HasItems())
      modifies this`log, this`logs, this`acts, this`mon, steeringQueue, followUpQueue
      ensures Valid() && mon == After(old(mon), AgentStart(old(messages), |prompts|, Some(name), name == Steering))
      ensures log == old(log) + [AgentStart(old(messages), |prompts|, Some(name), name == Steering)] && log in logs && Onward()
      ensures prompts == View().Held() == old(Queue(name).messages)[..old(View()).Queue(name).Share()] && aborted == old(aborted)
    {
      View().MayStart();
      prompts := Take(name, AgentStart(messages, View().Queue(name).Share(), Some(name), name == Steering));
    }
  }
}
