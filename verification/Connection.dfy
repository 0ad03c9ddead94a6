/**
 * The connection lifecycle of packages/client/src/connection.ts. Every callback may call back into
 * the connection before it returns: `World` decides which calls are made at each callback, to a
 * nesting depth the caller of the model chooses. Ghost fields record what an observer sees: the
 * state notifications, the fate of each handshake promise, and of each transport.
 */
module Connecting {
  import opened Wrappers

  datatype Lifecycle =
    | Disconnected
    | Connecting(id: nat, adopted: bool)       // `adopted`: the transport has been handed over
    | Connected(id: nat, handshaking: bool)

  datatype Notification = NowConnecting | NowConnected | NowDisconnected

  datatype ServerMessage = Hello | HelloError | Other(body: nat)

  datatype Handshake = Pending | Resolved | Rejected

  /**
   * Everything that can call into a connection. A transport is known by the id of the connection
   * attempt it was created for; decoding is a parameter of the data it delivers.
   */
  datatype Action =
    | Connect | Disconnect | Fail
    | Send(throws: bool)
    | Opened(id: nat) | OpenFailed(id: nat) | HelloFailed(id: nat) | SendFailed(id: nat)
    | Data(id: nat, decoded: Outcome<seq<ServerMessage>>) | Closed(id: nat) | Errored(id: nat)

  datatype World = World(calls: nat -> seq<Action>, throws: nat -> bool)

  predicate AllOther(messages: seq<ServerMessage>) {
    forall m <- messages :: m.Other?
  }

  function Bodies(messages: seq<ServerMessage>): seq<nat>
    requires AllOther(messages)
  {
    if messages == [] then [] else Bodies(messages[..|messages| - 1]) + [messages[|messages| - 1].body]
  }

  /** (connecting connected? disconnected)*, or a prefix of such a sequence. */
  predicate Grammatical(ns: seq<Notification>) {
    || ns == []
    || (ns[0] == NowConnecting
        && (|| |ns| == 1
            || (ns[1] == NowDisconnected && Grammatical(ns[2..]))
            || (ns[1] == NowConnected && (|ns| == 2 || (ns[2] == NowDisconnected && Grammatical(ns[3..]))))))
  }

  /** Which notification may follow. */
  predicate MayFollow(ns: seq<Notification>, n: Notification) {
    match n
    case NowConnecting => ns == [] || ns[|ns| - 1] == NowDisconnected
    case NowConnected => ns != [] && ns[|ns| - 1] == NowConnecting
    case NowDisconnected => ns != [] && ns[|ns| - 1] != NowDisconnected
  }

  lemma {:induction false} GrammarExtends(ns: seq<Notification>, n: Notification)
    requires Grammatical(ns)
    ensures Grammatical(ns + [n]) <==> MayFollow(ns, n)
    decreases |ns|
  {
    var all := ns + [n];
    if |ns| >= 2 {
      var k := if ns[1] == NowConnected then 3 else 2;
      if |ns| >= k {
        assert all[k..] == ns[k..] + [n];
        GrammarExtends(ns[k..], n);
      }
    }
  }

  predicate Heard(k: nat) { true }

  /** Guarded, so that only proofs that mention `Heard` look inside. */
  ghost predicate Spoken(ns: seq<Notification>) {
    forall k: nat {:trigger Heard(k)} :: Heard(k) ==> Grammatical(ns)
  }

  lemma SpokenExtends(ns: seq<Notification>, n: Notification)
    requires Spoken(ns) && MayFollow(ns, n)
    ensures Spoken(ns + [n])
  {
    assert Heard(0);
    GrammarExtends(ns, n);
  }

  class Connection {
    const world: World
    var clock: nat
    var lifecycle: Lifecycle
    var sequence: nat
    var opening: set<nat>          // attempts whose transport factory has not settled

    ghost var notifications: seq<Notification>
    ghost var handshakes: map<nat, Handshake>
    ghost var received: set<nat>   // transports handed over
    ghost var closed: set<nat>     // transports the client has closed
    ghost var ended: set<nat>      // transports that reported their own end
    ghost var delivered: seq<nat>  // messages handed on to the client
    ghost var announced: set<nat>  // attempts announced as connected
    ghost var closing: set<nat>    // transports about to be closed by a call under way

    constructor (world: World)
      ensures Valid() && lifecycle == Disconnected && sequence == 0 && closing == {}
    {
      this.world := world;
      clock, lifecycle, sequence := 0, Disconnected, 0;
      notifications, handshakes, delivered := [], map[], [];
      opening, received, closed, ended, announced, closing := {}, {}, {}, {}, {}, {};
    }

    predicate IsCurrent(id: nat)
      reads this
    {
      lifecycle != Disconnected && lifecycle.id == id
    }

    predicate HasTransport()
      reads this
    {
      match lifecycle
      case Disconnected => false
      case Connecting(_, adopted) => adopted
      case Connected(_, _) => true
    }

    predicate Handshaking()
      reads this
    {
      lifecycle.Connecting? || (lifecycle.Connected? && lifecycle.handshaking)
    }

    /** How far the lifecycles have come: no state is ever entered twice. */
    function Rank(): nat
      reads this
    {
      5 * sequence + match lifecycle
        case Connecting(_, adopted) => if adopted then 1 else 0
        case Connected(_, handshaking) => if handshaking then 2 else 3
        case Disconnected => 4
    }

    ghost predicate Valid()
      reads this
    {
      Announced() && Settled() && Owned()
    }

    /** The notifications so far are in the language and end as the lifecycle says. */
    ghost predicate Announced()
      reads this
    {
      && Spoken(notifications)
      && match lifecycle
         case Disconnected => notifications == [] || notifications[|notifications| - 1] == NowDisconnected
         case Connecting(_, _) => notifications != [] && notifications[|notifications| - 1] == NowConnecting
         case Connected(_, handshaking) =>
           notifications != [] && (notifications[|notifications| - 1] == NowConnected
                                   || (handshaking && notifications[|notifications| - 1] == NowConnecting))
    }

    /** One handshake promise per attempt; pending exactly while its attempt is current and shaking hands. */
    ghost predicate Settled()
      reads this
    {
      && (forall id :: id in handshakes <==> 1 <= id <= sequence)
      && (lifecycle != Disconnected ==> lifecycle.id == sequence > 0)
      && (forall id <- handshakes :: handshakes[id] == Pending <==> IsCurrent(id) && Handshaking())
      && (forall id <- handshakes :: handshakes[id] == Resolved ==> id in announced)
    }

    /** Each transport handed over is the current one, was closed, reported its end, or is being closed. */
    ghost predicate Owned()
      reads this
    {
      && (forall t <- received :: (IsCurrent(t) && HasTransport()) || t in closed || t in ended || t in closing)
      && (HasTransport() ==> lifecycle.id in received)
      && opening !! received
      && (forall t <- opening :: 1 <= t <= sequence) && (forall t <- received :: 1 <= t <= sequence)
    }

    /** What no call undoes. */
    twostate predicate Monotone()
      reads this
    {
      Lasting() && closing == old(closing)
    }

    twostate predicate Lasting()
      reads this
    {
      && old(notifications) <= notifications && old(sequence) <= sequence && old(Rank()) <= Rank()
      && (forall id <- old(handshakes) :: id in handshakes && (old(handshakes[id]) != Pending ==> handshakes[id] == old(handshakes[id])))
      && old(announced) <= announced && old(received) <= received && old(closed) <= closed && old(ended) <= ended
      && (forall t | t in opening || t in received :: t in old(opening) || t in old(received) || t > old(sequence))
    }

    /** As long as a connection stays in one state nothing is announced. */
    twostate predicate Steady()
      reads this
    {
      Rank() == old(Rank()) ==> notifications == old(notifications)
    }

    /** The connection there was is over: announced, its promise settled, its transport closed. */
    twostate predicate Finished()
      requires old(lifecycle) != Disconnected
      reads this
    {
      && old(notifications) + [NowDisconnected] <= notifications
      && old(lifecycle.id) in handshakes && handshakes[old(lifecycle.id)] != Pending
      && (old(HasTransport()) ==> old(lifecycle.id) in closed)
    }

    /** A callback: whatever the outside calls before it returns. */
    method React(depth: nat)
      requires Valid()
      modifies this
      ensures Valid() && Monotone() && Steady() && (depth == 0 ==> unchanged(this))
      decreases depth, 0
    {
      if depth == 0 { return; }
      var calls := world.calls(clock);
      clock := clock + 1;
      for i := 0 to |calls|
        invariant Valid() && Monotone() && Steady()
      {
        Perform(calls[i], depth - 1);
      }
    }

    method Perform(action: Action, depth: nat)
      requires Valid()
      modifies this
      ensures Valid() && Monotone() && Steady()
      decreases depth, 9
    {
      match action
      case Connect => var _ := this.Connect(depth);
      case Disconnect => this.Disconnect(depth);
      case Fail => FailAndClose(depth);
      case Send(throws) => var _ := this.Send(throws, depth);
      case Opened(id) => TransportOpened(id, depth);
      case OpenFailed(id) => TransportFailed(id, depth);
      case HelloFailed(id) => if IsCurrent(id) { FailAndClose(depth); }
      case SendFailed(id) => if IsCurrent(id) && HasTransport() { FailAndClose(depth); }
      case Data(id, decoded) => HandleData(id, decoded, depth);
      case Closed(id) => HandleClose(id, depth);
      case Errored(id) => HandleError(id, depth);
    }

    method OnStateChange(n: Notification, depth: nat)
      requires Settled() && Owned() && Spoken(notifications) && MayFollow(notifications, n)
      requires match lifecycle
        case Disconnected => n == NowDisconnected
        case Connecting(_, _) => n == NowConnecting
        case Connected(_, _) => n == NowConnected
      modifies this
      ensures Valid() && Monotone() && old(notifications) + [n] <= notifications
      ensures Rank() == old(Rank()) ==> notifications == old(notifications) + [n]
      ensures n == NowConnected ==> old(lifecycle.id) in announced
      ensures depth == 0 ==> lifecycle == old(lifecycle) && handshakes == old(handshakes)
      decreases depth, 1
    {
      SpokenExtends(notifications, n);
      notifications := notifications + [n];
      announced := if n == NowConnected then announced + {lifecycle.id} else announced;
      React(depth);
    }

    ghost method Settle(id: nat, outcome: Handshake)
      requires id in handshakes && handshakes[id] == Pending && outcome != Pending
      modifies this`handshakes
      ensures handshakes == old(handshakes)[id := outcome]
    {
      handshakes := handshakes[id := outcome];
    }

    /** A rejected promise when the connection is not disconnected; otherwise a new attempt. */
    method Connect(depth: nat) returns (id: Option<nat>)
      requires Valid()
      modifies this
      ensures Valid() && Monotone() && Steady()
      ensures old(lifecycle) != Disconnected ==> id == None && unchanged(this)
      ensures old(lifecycle) == Disconnected ==>
        && id == Some(old(sequence) + 1) && old(notifications) + [NowConnecting] <= notifications
        && id.value in handshakes
      decreases depth, 6
    {
      if lifecycle != Disconnected { return None; }
      var attempt := sequence + 1;
      BeginAttempt(depth);
      id := Some(attempt);
      opening := opening + {id.value};
      React(depth);
    }

    method BeginAttempt(depth: nat)
      requires Valid() && lifecycle == Disconnected
      modifies this
      ensures Valid() && Monotone() && old(sequence) < sequence && old(sequence) + 1 !in opening + received
      ensures old(notifications) + [NowConnecting] <= notifications
      decreases depth, 2
    {
      sequence := sequence + 1;
      handshakes := handshakes[sequence := Pending];
      lifecycle := Connecting(sequence, false);
      OnStateChange(NowConnecting, depth);
    }

    method Disconnect(depth: nat)
      requires Valid()
      modifies this
      ensures Valid() && Monotone() && Steady()
      ensures if old(lifecycle) == Disconnected then unchanged(this) else Finished()
      decreases depth, 6
    {
      if lifecycle == Disconnected { return; }
      FailAndClose(depth);
    }

    method Send(throws: bool, depth: nat) returns (accepted: bool)
      requires Valid()
      modifies this
      ensures Valid() && Monotone() && Steady() && (accepted <==> old(lifecycle.Connected?))
      ensures !accepted ==> unchanged(this)
      decreases depth, 6
    {
      if !lifecycle.Connected? { return false; }
      React(depth);
      if throws {
        FailAndClose(depth);
      }
      return true;
    }

    /** The factory's transport: adopted by its own attempt, closed if that is no longer waiting for it. */
    method TransportOpened(id: nat, depth: nat)
      requires Valid()
      modifies this
      ensures Valid() && Monotone() && Steady()
      ensures id !in old(opening) ==> unchanged(this)
      ensures id in old(opening) ==> id in received && (old(lifecycle) != Connecting(id, false) ==> id in closed)
      ensures id in old(opening) && old(lifecycle) == Connecting(id, false) ==> old(Rank()) < Rank()
      ensures id in old(opening) && old(lifecycle) == Connecting(id, false) && depth == 0 ==> lifecycle == Connecting(id, true)
      decreases depth, 6
    {
      if id !in opening { return; }
      Adopt(id);
      React(depth);
    }

    /** A transport that has opened belongs to the attempt that waits for it, and is closed if there is none. */
    method Adopt(id: nat)
      requires Valid() && id in opening
      modifies this
      ensures Valid() && Monotone() && Steady() && id in received
      ensures old(lifecycle) != Connecting(id, false) ==> id in closed
      ensures old(lifecycle) == Connecting(id, false) ==> lifecycle == Connecting(id, true) && old(Rank()) < Rank()
    {
      opening := opening - {id};
      received := received + {id};
      if lifecycle != Connecting(id, false) {
        closed := closed + {id};
      } else {
        lifecycle := Connecting(id, true);
      }
    }

    method TransportFailed(id: nat, depth: nat)
      requires Valid()
      modifies this
      ensures Valid() && Monotone() && Steady()
      ensures id in old(opening) && !old(IsCurrent(id)) ==> lifecycle == old(lifecycle) && notifications == old(notifications)
      ensures id !in old(opening) ==> unchanged(this)
      decreases depth, 6
    {
      if id !in opening { return; }
      opening := opening - {id};
      if IsCurrent(id) {
        FailWith(depth);
      }
    }

    method HandleData(id: nat, decoded: Outcome<seq<ServerMessage>>, depth: nat)
      requires Valid()
      modifies this
      ensures Valid() && Monotone() && Steady()
      ensures !old(IsCurrent(id)) ==> unchanged(this)
      ensures old(IsCurrent(id)) && (decoded == Thrown || !old(HasTransport())) ==> Finished()
      ensures old(IsCurrent(id) && lifecycle.Connected?) && decoded.Returned? && AllOther(decoded.value) && depth == 0 ==>
        delivered == old(delivered) + Bodies(decoded.value)
      decreases depth, 5
    {
      if !IsCurrent(id) { return; }
      if !HasTransport() || decoded == Thrown {
        FailAndClose(depth);
        return;
      }
      for i := 0 to |decoded.value|
        invariant Valid() && Monotone() && Steady()
        invariant old(lifecycle.Connected?) && AllOther(decoded.value) && depth == 0 ==>
          lifecycle == old(lifecycle) && delivered == old(delivered) + Bodies(decoded.value[..i])
      {
        if lifecycle == Disconnected { return; }
        HandleMessage(decoded.value[i], depth);
        assert decoded.value[..i + 1][..i] == decoded.value[..i];
      }
      assert decoded.value[..|decoded.value|] == decoded.value;
    }

    method HandleMessage(message: ServerMessage, depth: nat)
      requires Valid()
      modifies this
      ensures Valid() && Monotone() && Steady()
      ensures old(lifecycle.Connecting?) ==>
        handshakes[old(lifecycle.id)] != Pending && (message != Hello || !old(HasTransport()) ==> Finished())
      ensures old(lifecycle.Connected?) && !message.Other? ==> Finished()
      ensures old(lifecycle.Connected?) && message.Other? && depth == 0 ==>
        lifecycle == old(lifecycle) && delivered == old(delivered) + [message.body]
      ensures old(lifecycle) == Disconnected ==> unchanged(this)
      decreases depth, 4
    {
      if lifecycle.Connecting? {
        if message != Hello || !lifecycle.adopted {
          FailAndClose(depth);
          return;
        }
        FinishHandshake(depth);
      } else if lifecycle.Connected? {
        if message.Other? {
          delivered := delivered + [message.body];
          React(depth);
        } else {
          FailAndClose(depth);
        }
      }
    }

    /** The server's hello: the snapshot is applied, the change announced, and only then the promise resolved. */
    method FinishHandshake(depth: nat)
      requires Valid() && lifecycle.Connecting? && lifecycle.adopted
      modifies this
      ensures Valid() && Monotone() && Steady()
      ensures handshakes[old(lifecycle.id)] != Pending
      ensures depth == 0 && !world.throws(old(clock)) ==>
        lifecycle == Connected(old(lifecycle.id), false) && handshakes[lifecycle.id] == Resolved
      decreases depth, 3
    {
      var connected := Connected(lifecycle.id, true);
      lifecycle := connected;
      var throws := world.throws(clock);
      React(depth);
      if lifecycle != connected { return; }
      if throws {
        FailAndClose(depth);
        return;
      }
      AnnounceConnected(depth);
    }

    method AnnounceConnected(depth: nat)
      requires Valid() && lifecycle.Connected? && lifecycle.handshaking && MayFollow(notifications, NowConnected)
      modifies this
      ensures Valid() && Monotone() && old(Rank()) < Rank()
      ensures old(notifications) + [NowConnected] <= notifications
      ensures handshakes[old(lifecycle.id)] != Pending
      ensures depth == 0 ==> lifecycle == Connected(old(lifecycle.id), false) && handshakes[lifecycle.id] == Resolved
      decreases depth, 2
    {
      var connected := lifecycle;
      OnStateChange(NowConnected, depth);
      if lifecycle != connected { return; }
      lifecycle := Connected(connected.id, false);
      Settle(connected.id, Resolved);
    }

    /** The transport reported an orderly end. */
    method HandleClose(id: nat, depth: nat)
      requires Valid()
      modifies this
      ensures Valid() && Monotone() && Steady()
      ensures !old(IsCurrent(id)) ==> unchanged(this)
      ensures old(IsCurrent(id)) ==>
        id in ended && handshakes[id] != Pending && old(notifications) + [NowDisconnected] <= notifications
      decreases depth, 5
    {
      if !IsCurrent(id) { return; }
      ended := ended + {id};
      FailWith(depth);
    }

    method HandleError(id: nat, depth: nat)
      requires Valid()
      modifies this
      ensures Valid() && Monotone() && Steady()
      ensures !old(IsCurrent(id)) ==> unchanged(this)
      ensures old(IsCurrent(id)) ==> Finished()
      decreases depth, 5
    {
      if !IsCurrent(id) { return; }
      FailAndClose(depth);
    }

    /** Ends the current connection, whatever its state, and closes its transport after announcing that. */
    method FailAndClose(depth: nat)
      requires Valid()
      modifies this
      ensures Valid() && Monotone() && Steady()
      ensures if old(lifecycle) == Disconnected then unchanged(this) else Finished()
      decreases depth, 2, 2
    {
      if lifecycle == Disconnected { return; }
      if HasTransport() {
        FailThenClose(depth);
      } else {
        FailWith(depth);
      }
    }

    method FailThenClose(depth: nat)
      requires Valid() && HasTransport()
      modifies this
      ensures Valid() && Monotone() && old(Rank()) < Rank()
      ensures Finished()
      decreases depth, 2, 1
    {
      var transport := lifecycle.id;
      ghost var before := closing;
      closing := closing + {transport};
      FailWith(depth);
      assert Settled();
      Close(transport, before, depth);
    }

    /** Closes a transport whose closing was under way. */
    method Close(transport: nat, ghost before: set<nat>, depth: nat)
      requires Valid() && closing == before + {transport}
      modifies this
      ensures Valid() && Lasting() && closing == before && transport in closed
      decreases depth, 1
    {
      closed := closed + {transport};
      closing := before;
      React(depth);
    }

    /** Rejects the pending handshake and announces the end; the transport is left to the caller. */
    method FailWith(depth: nat)
      requires Settled() && Announced() && Owned() && lifecycle != Disconnected
      requires HasTransport() ==> lifecycle.id in closing || lifecycle.id in ended
      modifies this
      ensures Valid() && Monotone() && old(Rank()) < Rank() && handshakes[old(lifecycle.id)] != Pending
      ensures old(notifications) + [NowDisconnected] <= notifications
      decreases depth, 2, 0
    {
      if Handshaking() {
        Settle(lifecycle.id, Rejected);
      }
      lifecycle := Disconnected;
      OnStateChange(NowDisconnected, depth);
    }
  }

  /**
   * Any sequence of calls, with any nesting of callbacks: the notifications stay in the language,
   * promises are settled once the connection they belong to is over, no transport is forgotten.
   */
  method Run(world: World, actions: seq<Action>, depth: nat) returns (c: Connection)
    ensures fresh(c) && c.Valid() && Grammatical(c.notifications)
    ensures c.lifecycle == Disconnected ==> forall id <- c.handshakes :: c.handshakes[id] != Pending
    ensures forall t <- c.received :: (c.IsCurrent(t) && c.HasTransport()) || t in c.closed || t in c.ended
  {
    c := new Connection(world);
    for i := 0 to |actions|
      invariant fresh(c) && c.Valid() && c.closing == {}
    {
      c.Perform(actions[i], depth);
    }
    assert Heard(0);
  }
}
