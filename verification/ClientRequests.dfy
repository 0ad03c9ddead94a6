/**
 * Request and response correlation of packages/client/src/client.ts. Sending, applying a result
 * and notifying listeners may call back into the client; `World` decides what is called, to a
 * nesting depth the caller of the model chooses.
 */
module ClientRequests {
  import opened Wrappers

  datatype Kind = List | Create | Attach | Detach | PromptSession | Steer | AbortSession | SetModel | SetThinking

  datatype ConnectionState = Disconnected | Connecting | Connected

  /** A response's body: an error, or the result of some command. */
  datatype Reply = Failure | Success(kind: Kind)

  datatype Settlement = Open | Resolved(kind: Kind) | Rejected

  datatype Action =
    | Connect | Greet | Disconnect | Dispose
    | Issue(kind: Kind, encodes: bool, sends: bool)
    | Respond(id: nat, reply: Reply)

  datatype World = World(calls: nat -> seq<Action>)

  class PiClient {
    const world: World
    var clock: nat
    var state: ConnectionState
    var disposed: bool
    var requestSequence: nat
    var pendingRequests: map<nat, Kind>

    ghost var issued: map<nat, Kind>            // every request that got an id
    ghost var outcomes: map<nat, Settlement>
    ghost var sent: set<nat>                    // requests handed to the transport
    ghost var taken: set<nat>                   // requests whose results are being applied

    constructor (world: World)
      ensures Valid() && state == Disconnected && !disposed && taken == {} && issued == map[]
    {
      this.world := world;
      clock, state, disposed, requestSequence, pendingRequests := 0, Disconnected, false, 0, map[];
      issued, outcomes, sent, taken := map[], map[], {}, {};
    }

    /**
     * Every request is pending, having its result applied, or settled; results are of the command
     * that was sent; and nothing is pending without a live connection.
     */
    ghost predicate Valid()
      reads this
    {
      && (forall id :: id in issued <==> 1 <= id <= requestSequence)
      && (forall id :: id in outcomes <==> id in issued)
      && (forall id <- outcomes :: outcomes[id] == Open <==> id in pendingRequests || id in taken)
      && (forall id <- pendingRequests :: id in issued && pendingRequests[id] == issued[id] && id !in taken)
      && (forall id <- taken :: id in issued)
      && (forall id <- outcomes :: outcomes[id].Resolved? ==> outcomes[id].kind == issued[id])
      && (pendingRequests != map[] ==> state == Connected && !disposed)
    }

    /** What no call undoes: ids are never reused, and what is settled stays as it is. */
    twostate predicate Monotone()
      reads this
    {
      Lasting() && taken == old(taken)
    }

    twostate predicate Lasting()
      reads this
    {
      && old(requestSequence) <= requestSequence && old(sent) <= sent && (old(disposed) ==> disposed)
      && (forall id <- old(issued) :: id in issued && issued[id] == old(issued[id]))
      && (forall id <- old(outcomes) :: id in outcomes && (old(outcomes[id]) != Open ==> outcomes[id] == old(outcomes[id])))
    }

    /** Everything that was pending has been rejected. */
    twostate predicate AllRejected()
      reads this
    {
      forall id <- old(pendingRequests) :: id in outcomes && outcomes[id] == Rejected
    }

    method React(depth: nat)
      requires Valid()
      modifies this
      ensures Valid() && Monotone()
      decreases depth, 0
    {
      if depth == 0 { return; }
      var calls := world.calls(clock);
      clock := clock + 1;
      for i := 0 to |calls|
        invariant Valid() && Monotone()
      {
        Perform(calls[i], depth - 1);
      }
    }

    method Perform(action: Action, depth: nat)
      requires Valid()
      modifies this
      ensures Valid() && Monotone()
      decreases depth, 9
    {
      match action
      case Connect => this.Connect(depth);
      case Greet => HandleHello(depth);
      case Disconnect => FailConnection(depth);
      case Dispose => this.Dispose(depth);
      case Issue(kind, encodes, sends) => var _ := Request(kind, encodes, sends, depth);
      case Respond(id, reply) => HandleResponse(id, reply, depth);
    }

    ghost method Settle(id: nat, settlement: Settlement)
      requires id in outcomes && outcomes[id] == Open && settlement != Open
      modifies this`outcomes
      ensures outcomes == old(outcomes)[id := settlement]
    {
      outcomes := outcomes[id := settlement];
    }

    method RejectPendingRequests()
      requires Valid()
      modifies this`pendingRequests, this`outcomes
      ensures Valid() && Monotone() && pendingRequests == map[] && AllRejected()
    {
      outcomes := map id | id in outcomes :: if id in pendingRequests then Rejected else outcomes[id];
      pendingRequests := map[];
    }

    method Connect(depth: nat)
      requires Valid()
      modifies this
      ensures Valid() && Monotone()
      ensures old(disposed) || old(state) != Disconnected ==> unchanged(this)
      decreases depth, 1
    {
      if disposed || state != Disconnected { return; }
      state := Connecting;
      React(depth);
    }

    /** The server's hello was accepted. */
    method HandleHello(depth: nat)
      requires Valid()
      modifies this
      ensures Valid() && Monotone()
      decreases depth, 1
    {
      if state != Connecting { return; }
      state := Connected;
      React(depth);
    }

    /** The connection ends, for whatever reason; its listeners are told after the requests were rejected. */
    method FailConnection(depth: nat)
      requires Valid()
      modifies this
      ensures Valid() && Monotone() && AllRejected()
      ensures old(state) == Disconnected ==> unchanged(this)
      decreases depth, 1, 0
    {
      if state == Disconnected { return; }
      RejectPendingRequests();
      state := Disconnected;
      React(depth);
    }

    /** No id when the request is rejected at once; otherwise a new id. */
    method Request(kind: Kind, encodes: bool, sends: bool, depth: nat) returns (id: Option<nat>)
      requires Valid()
      modifies this
      ensures Valid() && Monotone()
      ensures id.Some? <==> !old(disposed) && old(state) == Connected
      ensures id == None ==> unchanged(this)
      ensures id.Some? ==> id.value == old(requestSequence) + 1 && id.value in issued && issued[id.value] == kind
      ensures id.Some? && encodes ==> id.value in sent
      ensures id.Some? && (!encodes || !sends) ==> outcomes[id.value] != Open
      decreases depth, 3
    {
      if disposed || state != Connected { return None; }
      var number := Register(kind);
      id := Some(number);
      if encodes {
        Send(number, sends, depth);
      } else {
        RejectUnsent(number);
      }
    }

    method RejectUnsent(id: nat)
      requires Valid() && id in pendingRequests
      modifies this`pendingRequests, this`outcomes, this`taken
      ensures Valid() && Monotone() && outcomes == old(outcomes)[id := Rejected]
    {
      TakePendingRequest(id);
      SettleTaken(id, Rejected);
    }

    method Register(kind: Kind) returns (id: nat)
      requires Valid() && !disposed && state == Connected
      modifies this`requestSequence, this`pendingRequests, this`issued, this`outcomes
      ensures Valid() && Monotone() && id == requestSequence == old(requestSequence) + 1
      ensures id in pendingRequests && issued[id] == kind
    {
      requestSequence := requestSequence + 1;
      id := requestSequence;
      pendingRequests := pendingRequests[id := kind];
      issued := issued[id := kind];
      outcomes := outcomes[id := Open];
    }

    method TakePendingRequest(id: nat)
      requires Valid() && id in pendingRequests
      modifies this`pendingRequests, this`taken
      ensures Valid() && taken == old(taken) + {id} && pendingRequests == old(pendingRequests) - {id}
    {
      pendingRequests := pendingRequests - {id};
      taken := taken + {id};
    }

    ghost method SettleTaken(id: nat, settlement: Settlement)
      requires Valid() && id in taken && (settlement == Rejected || settlement == Resolved(issued[id]))
      modifies this`outcomes, this`taken
      ensures Valid() && outcomes == old(outcomes)[id := settlement] && taken == old(taken) - {id}
    {
      Settle(id, settlement);
      taken := taken - {id};
    }

    method Send(ghost id: nat, sends: bool, depth: nat)
      requires Valid() && id in pendingRequests
      modifies this
      ensures Valid() && Monotone() && id in sent && (!sends ==> outcomes[id] != Open)
      decreases depth, 2
    {
      sent := sent + {id};
      React(depth);
      if !sends {
        FailConnection(depth);
      }
    }

    /** A response settles the request it names; one that fits no request, or the wrong one, ends the connection. */
    method HandleResponse(id: nat, reply: Reply, depth: nat)
      requires Valid()
      modifies this
      ensures Valid() && Monotone()
      ensures id !in old(pendingRequests) ==> AllRejected()
      ensures id in old(pendingRequests) ==>
        outcomes[id] == if reply == Success(old(pendingRequests[id])) then Resolved(reply.kind) else Rejected
      ensures id in old(pendingRequests) && reply.Success? && reply.kind != old(pendingRequests[id]) ==> AllRejected()
      decreases depth, 2
    {
      if id !in pendingRequests {
        FailConnection(depth);
        return;
      }
      var kind := pendingRequests[id];
      TakePendingRequest(id);
      if reply == Success(kind) {
        ApplyResult(id, depth);
      } else {
        RejectTaken(id, reply.Success?, depth);
      }
    }

    /** An error response rejects its request; a result of another command also ends the connection. */
    method RejectTaken(ghost id: nat, mismatch: bool, depth: nat)
      requires Valid() && id in taken
      modifies this
      ensures Valid() && id in outcomes && outcomes[id] == Rejected && taken == old(taken) - {id}
      ensures Lasting() && (mismatch ==> AllRejected())
      decreases depth, 1, 1
    {
      SettleTaken(id, Rejected);
      if mismatch {
        FailConnection(depth);
      }
    }

    /** Listeners see the new state before the promise resolves. */
    method ApplyResult(ghost id: nat, depth: nat)
      requires Valid() && id in taken
      modifies this
      ensures Valid() && id in issued && outcomes[id] == Resolved(issued[id]) && taken == old(taken) - {id}
      ensures Lasting()
      decreases depth, 1
    {
      React(depth);
      SettleTaken(id, Resolved(issued[id]));
    }

    method Dispose(depth: nat)
      requires Valid()
      modifies this
      ensures Valid() && Monotone() && disposed && AllRejected() && pendingRequests == map[]
      decreases depth, 2
    {
      if disposed { return; }
      RejectPendingRequests();
      disposed := true;
      FailConnection(depth);
    }
  }

  /**
   * Any sequence of calls, with any nesting: every request is either pending or settled, and none
   * is pending while there is no connection.
   */
  method Run(world: World, actions: seq<Action>, depth: nat) returns (c: PiClient)
    ensures fresh(c) && c.Valid()
    ensures forall id | 1 <= id <= c.requestSequence :: id in c.outcomes && (c.outcomes[id] == Open <==> id in c.pendingRequests)
    ensures c.state != Connected || c.disposed ==> c.pendingRequests == map[]
  {
    c := new PiClient(world);
    for i := 0 to |actions|
      invariant fresh(c) && c.Valid() && c.taken == {}
    {
      c.Perform(actions[i], depth);
    }
  }
}
