/**
 * What the user of an agent has done: every call of steer, followUp, clearSteeringQueue,
 * clearFollowUpQueue, the mode setters and abort in packages/agent/src/agent.ts, in order. The
 * functions here read off such a history what was queued, what a clear reached and how a queue is
 * drained, without looking at any queue.
 */
module UserHistory {
  import opened AgentProtocol
  import opened PendingMessages

  datatype UserAction =
    | Submit(queue: QueueName, body: nat)
    | Clear(queue: QueueName)
    | SetMode(queue: QueueName, mode: QueueMode)
    | Abort
    | SuppressDrain

  /** Every message ever queued, in order; the position of one is its ticket. */
  function Submitted(history: seq<UserAction>, name: QueueName): seq<InputMessage> {
    if history == [] then []
    else
      var before, action := history[..|history| - 1], history[|history| - 1];
      Submitted(before, name) + if action.Submit? && action.queue == name then [Input(action.body)] else []
  }

  /** How many of them had been queued at the last clear. */
  function ClearedUpTo(history: seq<UserAction>, name: QueueName): (n: nat)
    ensures n <= |Submitted(history, name)|
  {
    if history == [] then 0
    else
      var before, action := history[..|history| - 1], history[|history| - 1];
      if action == Clear(name) then |Submitted(before, name)| else ClearedUpTo(before, name)
  }

  function Clears(history: seq<UserAction>, name: QueueName): nat {
    if history == [] then 0
    else Clears(history[..|history| - 1], name) + if history[|history| - 1] == Clear(name) then 1 else 0
  }

  /** The mode that was set last. */
  function ModeSet(history: seq<UserAction>, name: QueueName): QueueMode {
    if history == [] then OneAtATime
    else
      var action := history[|history| - 1];
      if action.SetMode? && action.queue == name then action.mode else ModeSet(history[..|history| - 1], name)
  }

  /** A queue after an action. */
  function Acted(q: QueueState, name: QueueName, action: UserAction): QueueState {
    match action
    case Submit(queue, body) => if queue == name then q.Enqueue(Input(body)) else q
    case Clear(queue) => if queue == name then q.Clear() else q
    case SetMode(queue, mode) => if queue == name then q.(mode := mode) else q
    case _ => q
  }

  predicate Remembered(k: nat) { true }

  /** A queue was filled, cleared and configured by the user alone. Guarded: only proofs that mention `Remembered` look inside. */
  ghost predicate Traced(history: seq<UserAction>, name: QueueName,
                         enqueued: seq<InputMessage>, cleared: nat, generation: nat, mode: QueueMode)
  {
    forall k: nat {:trigger Remembered(k)} :: Remembered(k) ==>
      && enqueued == Submitted(history, name) && cleared == ClearedUpTo(history, name)
      && generation == Clears(history, name) && mode == ModeSet(history, name)
  }

  lemma TracedAct(history: seq<UserAction>, name: QueueName, q: QueueState, action: UserAction)
    requires Traced(history, name, q.ledger.enqueued, q.ledger.cleared, q.clearGeneration, q.mode)
    ensures var p := Acted(q, name, action); Traced(history + [action], name, p.ledger.enqueued, p.ledger.cleared, p.clearGeneration, p.mode)
  {
    assert Remembered(0);
    assert (history + [action])[..|history|] == history;
  }

  /** A user who has only chosen the modes. */
  lemma TracedStart(steering: QueueMode, followUp: QueueMode)
    ensures var history := [SetMode(Steering, steering), SetMode(FollowUp, followUp)];
      Traced(history, Steering, [], 0, 0, steering) && Traced(history, FollowUp, [], 0, 0, followUp)
  {
    var q := QueueState([], 0, OneAtATime, EMPTY_LEDGER, 0);
    var first, second := SetMode(Steering, steering), SetMode(FollowUp, followUp);
    assert [] + [first] + [second] == [first, second];
    TracedAct([], Steering, q, first);
    TracedAct([], FollowUp, q, first);
    TracedAct([] + [first], Steering, Acted(q, Steering, first), second);
    TracedAct([] + [first], FollowUp, q, second);
  }

  /** What the user answers to the awaits from one tick of the clock to another. */
  function DoneBetween(user: nat -> seq<UserAction>, from: nat, until: nat): seq<UserAction>
    decreases until
  {
    if until <= from then [] else DoneBetween(user, from, until - 1) + user(until - 1)
  }

  lemma {:induction false} DoneSplit(user: nat -> seq<UserAction>, from: nat, at: nat, until: nat)
    requires from <= at <= until
    ensures DoneBetween(user, from, until) == DoneBetween(user, from, at) + DoneBetween(user, at, until)
    decreases until
  {
    if at < until {
      DoneSplit(user, from, at, until - 1);
    }
  }

  lemma {:induction false} SilentUser(user: nat -> seq<UserAction>, from: nat, until: nat)
    requires forall n :: user(n) == []
    ensures DoneBetween(user, from, until) == []
    decreases until
  {
    if from < until {
      SilentUser(user, from, until - 1);
    }
  }

  predicate Listened(k: nat) { true }

  /**
   * Since the clock stood at `since` only the user's answers have joined the history. Guarded:
   * only proofs that mention `Listened` look inside.
   */
  ghost predicate Attended(history: seq<UserAction>, outside: seq<UserAction>, user: nat -> seq<UserAction>, since: nat, clock: nat) {
    forall k: nat {:trigger Listened(k)} :: Listened(k) ==> since <= clock && history == outside + DoneBetween(user, since, clock)
  }

  lemma AttendedNothing(history: seq<UserAction>, user: nat -> seq<UserAction>, clock: nat)
    ensures Attended(history, history, user, clock, clock)
  {
  }

  lemma AttendedMore(history: seq<UserAction>, outside: seq<UserAction>, user: nat -> seq<UserAction>, since: nat, clock: nat)
    requires Attended(history, outside, user, since, clock)
    ensures Attended(history + user(clock), outside, user, since, clock + 1)
  {
    assert Listened(0);
  }

  /** Between two moments since then the history grew by the answers given meanwhile. */
  lemma AttendedBetween(before: seq<UserAction>, history: seq<UserAction>, outside: seq<UserAction>, user: nat -> seq<UserAction>,
                     since: nat, from: nat, clock: nat)
    requires Attended(before, outside, user, since, from) && Attended(history, outside, user, since, clock) && from <= clock
    ensures history == before + DoneBetween(user, from, clock)
  {
    assert Listened(0);
    DoneSplit(user, since, from, clock);
  }
}
