/**
 * PendingMessageQueue of packages/agent/src/agent.ts, with a ledger of everything that was ever
 * queued. A ticket is a message's position in that history; every operation moves tickets between
 * four places, and the order of the ones that are not dropped never changes.
 */
module PendingMessages {
  import opened AgentProtocol

  datatype QueueMode = All | OneAtATime

  datatype Ledger = Ledger(
    enqueued: seq<InputMessage>,  // every message, in the order it was queued
    delivered: seq<nat>,     // tickets injected into the transcript
    inFlight: seq<nat>,      // tickets taken by the loop, not yet injected
    queued: seq<nat>,
    dropped: set<nat>,
    cleared: nat)            // how many messages had been queued at the last clear
  {
    function Order(): seq<nat> {
      delivered + inFlight + queued
    }

    /** Conservation and FIFO: each ticket is in exactly one place, in queueing order, and only a clear drops. */
    ghost predicate Sound() {
      && Increasing(Order())
      && Below(Order(), |enqueued|)
      && (forall t | 0 <= t < |enqueued| :: t in Order() <==> t !in dropped)
      && (forall t <- dropped :: t < cleared)
      && cleared <= |enqueued|
      && AtLeast(queued, cleared)
    }

    function Messages(tickets: seq<nat>): (ms: seq<InputMessage>)
      requires Below(tickets, |enqueued|)
      ensures |ms| == |tickets| && forall i | 0 <= i < |ms| :: ms[i] == enqueued[tickets[i]]
    {
      seq(|tickets|, i requires 0 <= i < |tickets| => enqueued[tickets[i]])
    }

    function Enqueue(m: InputMessage): Ledger {
      this.(enqueued := enqueued + [m], queued := queued + [|enqueued|])
    }

    function Take(k: nat): Ledger
      requires k <= |queued| && inFlight == []
    {
      this.(inFlight := queued[..k], queued := queued[k..])
    }

    function Deliver(): Ledger
      requires inFlight != []
    {
      this.(delivered := delivered + [inFlight[0]], inFlight := inFlight[1..])
    }

    function Requeue(): Ledger {
      this.(queued := inFlight + queued, inFlight := [])
    }

    function Discard(): Ledger {
      this.(dropped := dropped + (set t | t in inFlight), inFlight := [])
    }

    function Clear(): Ledger {
      this.(dropped := dropped + (set t | t in queued), queued := [], cleared := |enqueued|)
    }

    /** All messages in flight were taken after the last clear. */
    ghost predicate Fresh() {
      AtLeast(inFlight, cleared)
    }

    /** All messages in flight were taken before the last clear. */
    ghost predicate Stale() {
      Below(inFlight, cleared)
    }

    lemma SoundParts()
      requires Sound()
      ensures Below(delivered, |enqueued|) && Below(inFlight, |enqueued|) && Below(queued, |enqueued|)
      ensures Increasing(delivered + inFlight) && Increasing(delivered + queued)
      ensures forall t :: t in Order() <==> t in delivered || t in inFlight || t in queued
      ensures forall t | t in inFlight :: t !in delivered && t !in queued
      ensures forall t | t in queued :: t !in delivered
    {
      Apart(delivered + inFlight, queued);
      Apart(delivered, inFlight);
      WithoutMiddle(delivered, inFlight, queued);
      BelowParts(delivered + inFlight, queued, |enqueued|);
      BelowParts(delivered, inFlight, |enqueued|);
    }

    lemma EnqueueSound(m: InputMessage)
      requires Sound()
      ensures Enqueue(m).Sound() && Enqueue(m).Order() == Order() + [|enqueued|]
    {
      assert Enqueue(m).Order() == Order() + [|enqueued|];
      forall t | 0 <= t < |enqueued| + 1
        ensures t in Order() + [|enqueued|] <==> t !in dropped
      {
        if t == |enqueued| {
          assert (Order() + [t])[|Order()|] == t;
        }
      }
    }

    lemma TakeSound(k: nat)
      requires Sound() && k <= |queued| && inFlight == []
      ensures Take(k).Sound() && Take(k).Order() == Order() && Take(k).Fresh()
    {
      assert Take(k).Order() == Order();
    }

    lemma DeliverSound()
      requires Sound() && inFlight != []
      ensures Deliver().Sound() && Deliver().Order() == Order()
    {
      assert Deliver().Order() == Order();
    }

    lemma RequeueSound()
      requires Sound() && Fresh()
      ensures Requeue().Sound() && Requeue().Order() == Order()
    {
      assert Requeue().Order() == Order();
    }

    lemma DiscardSound()
      requires Sound() && Stale()
      ensures Discard().Sound()
    {
      SoundParts();
      assert Discard().Order() == delivered + queued;
    }

    lemma ClearSound()
      requires Sound()
      ensures Clear().Sound() && Clear().Stale()
    {
      SoundParts();
      assert Clear().Order() == delivered + inFlight;
    }
  }

  const EMPTY_LEDGER := Ledger([], [], [], [], {}, 0)

  ghost predicate Increasing(s: seq<nat>) {
    forall i, j | 0 <= i < j < |s| :: s[i] < s[j]
  }

  ghost predicate Below(s: seq<nat>, n: nat) {
    forall i | 0 <= i < |s| :: s[i] < n
  }

  ghost predicate AtLeast(s: seq<nat>, n: nat) {
    forall i | 0 <= i < |s| :: n <= s[i]
  }

  lemma BelowParts(a: seq<nat>, b: seq<nat>, n: nat)
    requires Below(a + b, n)
    ensures Below(a, n) && Below(b, n)
  {
    assert forall i | 0 <= i < |a| :: a[i] == (a + b)[i];
    assert forall i | 0 <= i < |b| :: b[i] == (a + b)[|a| + i];
  }

  lemma Apart(a: seq<nat>, b: seq<nat>)
    requires Increasing(a + b)
    ensures Increasing(a) && Increasing(b)
    ensures forall t | t in a :: t !in b
  {
    var s := a + b;
    assert forall i | 0 <= i < |a| :: a[i] == s[i];
    assert forall i | 0 <= i < |b| :: b[i] == s[|a| + i];
    forall i, j | 0 <= i < |a| && 0 <= j < |b|
      ensures a[i] != b[j]
    {
      assert s[i] < s[|a| + j];
    }
  }

  lemma WithoutMiddle(a: seq<nat>, b: seq<nat>, c: seq<nat>)
    requires Increasing(a + b + c)
    ensures Increasing(a + c)
  {
    var s, kept, n := a + b + c, a + c, |a|;
    forall i, j | 0 <= i < j < |kept|
      ensures kept[i] < kept[j]
    {
      assert kept[i] == s[if i < n then i else i + |b|];
      assert kept[j] == s[if j < n then j else j + |b|];
    }
  }

  /** What was injected is what was queued: deliveries carry the tickets and messages of the ledger. */
  ghost predicate Matches(enqueued: seq<InputMessage>, delivered: seq<nat>, ds: seq<Delivery>) {
    && |ds| == |delivered|
    && forall i | 0 <= i < |ds| :: ds[i].ticket == delivered[i] < |enqueued| && ds[i].message == enqueued[delivered[i]]
  }

  predicate Credited(k: nat) { true }

  /** Guarded, so that only proofs that mention `Credited` look inside. */
  ghost predicate Faithful(enqueued: seq<InputMessage>, delivered: seq<nat>, ds: seq<Delivery>) {
    forall k: nat {:trigger Credited(k)} :: Credited(k) ==> Matches(enqueued, delivered, ds)
  }

  lemma FaithfulEnqueue(enqueued: seq<InputMessage>, delivered: seq<nat>, ds: seq<Delivery>, m: InputMessage)
    requires Faithful(enqueued, delivered, ds)
    ensures Faithful(enqueued + [m], delivered, ds)
  {
    assert Credited(0);
  }

  lemma FaithfulDeliver(enqueued: seq<InputMessage>, delivered: seq<nat>, ds: seq<Delivery>, t: nat, m: Message)
    requires Faithful(enqueued, delivered, ds) && t < |enqueued| && m == enqueued[t]
    ensures Faithful(enqueued, delivered + [t], ds + [Delivery(t, m)])
  {
    assert Credited(0);
  }

  predicate Opened(k: nat) { true }

  /** A queue's fields and its ledger. */
  datatype QueueState = QueueState(
    messages: seq<InputMessage>,
    clearGeneration: nat,
    mode: QueueMode,
    ledger: Ledger,
    takenAt: nat) // the clear generation at the last drain
  {
    /** Guarded, so that only proofs that mention `Opened` look inside. */
    ghost predicate Ok() {
      forall k: nat {:trigger Opened(k)} :: Opened(k) ==> Consistent()
    }

    ghost predicate Consistent() {
      && ledger.Sound()
      && Below(ledger.queued, |ledger.enqueued|) && Below(ledger.inFlight, |ledger.enqueued|)
      && messages == ledger.Messages(ledger.queued)
      && takenAt <= clearGeneration
      && (takenAt == clearGeneration ==> ledger.Fresh())
      && (takenAt < clearGeneration ==> ledger.Stale())
    }

    /** The messages a loop holds. */
    ghost function Held(): seq<InputMessage>
      requires Ok()
    {
      assert Opened(0);
      ledger.Messages(ledger.inFlight)
    }

    function Enqueue(m: InputMessage): QueueState {
      this.(messages := messages + [m], ledger := ledger.Enqueue(m))
    }

    /** How many messages one drain takes. */
    function Share(): (k: nat)
      ensures k <= |messages|
    {
      if mode == All then |messages| else if messages == [] then 0 else 1
    }

    ghost function Drain(): QueueState
      requires Ok() && ledger.inFlight == []
    {
      assert Opened(0);
      this.(messages := messages[Share()..], ledger := ledger.Take(Share()), takenAt := clearGeneration)
    }

    function Clear(): QueueState {
      this.(messages := [], ledger := ledger.Clear(), clearGeneration := clearGeneration + 1)
    }

    function Deliver(): QueueState
      requires ledger.inFlight != []
    {
      this.(ledger := ledger.Deliver())
    }

    /** Gives back what is in flight to the front of the queue, unless a clear has intervened. */
    ghost function Restore(): QueueState
      requires Ok()
    {
      if takenAt == clearGeneration then this.(messages := Held() + messages, ledger := ledger.Requeue())
      else this.(ledger := ledger.Discard())
    }

    lemma EnqueueOk(m: InputMessage)
      requires Ok()
      ensures Enqueue(m).Ok() && Enqueue(m).Held() == Held()
    {
      assert Opened(0);
      ledger.EnqueueSound(m);
    }

    lemma DrainOk()
      requires Ok() && ledger.inFlight == []
      ensures Drain().Ok() && Drain().Held() == messages[..Share()] && |Drain().ledger.inFlight| == Share()
    {
      assert Opened(0);
      ledger.TakeSound(Share());
    }

    lemma ClearOk()
      requires Ok()
      ensures Clear().Ok() && Clear().Held() == Held()
    {
      assert Opened(0);
      ledger.ClearSound();
    }

    lemma DeliverOk()
      requires Ok() && ledger.inFlight != []
      ensures Deliver().Ok() && Deliver().Held() == Held()[1..]
    {
      assert Opened(0);
      ledger.DeliverSound();
    }

    /** The next message to inject is the one its ticket was given to. */
    lemma HeldFirst()
      requires Ok() && ledger.inFlight != []
      ensures Held() != [] && ledger.inFlight[0] < |ledger.enqueued| && Held()[0] == ledger.enqueued[ledger.inFlight[0]]
    {
      assert Opened(0);
    }

    /**
     * With nothing in flight, what was not delivered is dropped if it was queued before the last
     * clear and queued otherwise, in queueing order.
     */
    lemma Settles()
      requires Ok() && ledger.inFlight == []
      ensures Increasing(ledger.delivered + ledger.queued)
      ensures Below(ledger.delivered, |ledger.enqueued|)
      ensures forall t: nat :: t in ledger.queued <==> ledger.cleared <= t < |ledger.enqueued| && t !in ledger.delivered
      ensures forall t: nat :: t in ledger.dropped <==> t < ledger.cleared && t !in ledger.delivered
      ensures |messages| == |ledger.queued|
      ensures forall i | 0 <= i < |ledger.queued| :: ledger.queued[i] < |ledger.enqueued| && messages[i] == ledger.enqueued[ledger.queued[i]]
    {
      assert Opened(0);
      ledger.SoundParts();
      assert ledger.Order() == ledger.delivered + ledger.queued;
    }

    lemma RestoreOk()
      requires Ok()
      ensures Restore().Ok() && Restore().ledger.inFlight == []
    {
      assert Opened(0);
      if takenAt == clearGeneration {
        ledger.RequeueSound();
      } else {
        ledger.DiscardSound();
      }
    }
  }

  class PendingMessageQueue {
    var messages: seq<InputMessage>
    var clearGeneration: nat
    var mode: QueueMode

    ghost var ledger: Ledger
    ghost var takenAt: nat

    ghost function View(): QueueState
      reads this
    {
      QueueState(messages, clearGeneration, mode, ledger, takenAt)
    }

    constructor (mode: QueueMode)
      ensures View() == QueueState([], 0, mode, EMPTY_LEDGER, 0) && View().Ok()
    {
      messages, clearGeneration := [], 0;
      this.mode := mode;
      ledger, takenAt := EMPTY_LEDGER, 0;
    }

    method Enqueue(message: InputMessage)
      modifies this
      ensures View() == old(View()).Enqueue(message)
    {
      messages := messages + [message];
      ledger := ledger.Enqueue(message);
    }

    predicate HasItems()
      reads this
    {
      |messages| > 0
    }

    method Drain() returns (drained: seq<InputMessage>)
      requires View().Ok() && ledger.inFlight == []
      modifies this
      ensures View() == old(View()).Drain() && View().Ok() && drained == View().Held() == old(messages)[..old(View()).Share()]
    {
      assert Opened(0);
      View().DrainOk();
      ghost var share := View().Share();
      ledger := ledger.Take(share);
      takenAt := clearGeneration;
      if mode == All {
        drained := messages;
        messages := [];
        assert drained == old(messages)[..share];
      } else if messages == [] {
        drained := [];
      } else {
        drained := [messages[0]];
        messages := messages[1..];
      }
    }

    /** Puts back what is in flight; correct only while no clear has intervened. */
    method Prepend(restored: seq<InputMessage>)
      requires View().Ok() && takenAt == clearGeneration && restored == View().Held()
      modifies this
      ensures View() == old(View()).Restore()
    {
      messages := restored + messages;
      ledger := ledger.Requeue();
    }

    method Clear()
      modifies this
      ensures View() == old(View()).Clear()
    {
      messages := [];
      ledger := ledger.Clear();
      clearGeneration := clearGeneration + 1;
    }

    /** The next message in flight has been injected into the transcript. */
    ghost method Deliver()
      requires ledger.inFlight != []
      modifies this`ledger
      ensures View() == old(View()).Deliver()
    {
      ledger := ledger.Deliver();
    }

    /** What was in flight when the queue was cleared will not come back. */
    ghost method Discard()
      requires View().Ok() && takenAt != clearGeneration
      modifies this`ledger
      ensures View() == old(View()).Restore()
    {
      ledger := ledger.Discard();
    }

    /** Requeues what was drained at a clear generation; after a later clear it stays dropped. */
    method GiveBack(restored: seq<InputMessage>, generation: nat)
      requires View().Ok() && generation == takenAt && restored == View().Held()
      modifies this
      ensures View() == old(View()).Restore()
    {
      if clearGeneration != generation {
        Discard();
      } else {
        Prepend(restored);
      }
    }
  }
}
