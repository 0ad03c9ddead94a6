/**
 * Session leases of packages/client/src/client.ts. A book is one session's entries in the client's
 * maps, together with the history of its tokens; accounting is stated against that history.
 */
module SessionLeases {
  import opened Wrappers

  datatype LeaseMode = Shared | Exclusive

  /** A reservation; `number` stands for object identity and `epoch` is the generation it was made in. */
  datatype Token = Token(number: nat, mode: LeaseMode, epoch: nat)

  datatype Book = Book(
    count: nat,                  // zero when the map has no entry
    exclusive: Option<Token>,
    generation: nat,
    reserved: set<Token>,        // every token there ever was
    released: set<Token>)
  {
    /** Tokens reserved since the last invalidation and not released. */
    function Live(): set<Token> {
      set t | t in reserved && t.epoch == generation && t !in released
    }

    /** The count is the number of live tokens, and an exclusive token is alone. */
    ghost predicate Accurate() {
      && count == |Live()|
      && match exclusive
         case Some(t) => t.mode == Exclusive && Live() == {t}
         case None => forall t <- Live() :: t.mode == Shared
    }

    /** No token is from the future, and numbers are unique. */
    ghost predicate WellFormed(next: nat) {
      forall t <- reserved :: t.epoch <= generation && t.number < next
    }

    predicate MayReserve(mode: LeaseMode) {
      if mode == Exclusive then count == 0 else exclusive == None
    }

    function Reserve(t: Token): Book {
      this.(count := count + 1, exclusive := if t.mode == Exclusive then Some(t) else exclusive, reserved := reserved + {t})
    }

    function Release(t: Token): Book {
      this.(count := if count <= 1 then 0 else count - 1,
            exclusive := if exclusive == Some(t) then None else exclusive,
            released := released + {t})
    }

    function Invalidate(): Book {
      this.(count := 0, exclusive := None, generation := generation + 1)
    }

    /** What makes a release safe: its token is live, or nothing is. */
    predicate Releasable(t: Token) {
      t in Live() || Live() == {}
    }

    lemma ReserveKeepsAccount(t: Token)
      requires Accurate() && MayReserve(t.mode) && t.epoch == generation && t !in reserved && t !in released
      ensures Reserve(t).Accurate() && Reserve(t).Live() == Live() + {t}
    {
      assert Reserve(t).Live() == Live() + {t};
    }

    /** Releases do not compare generations, so the account survives exactly the releasable ones. */
    lemma ReleaseKeepsAccount(t: Token)
      requires Accurate()
      ensures Release(t).Accurate() <==> Releasable(t)
      ensures Release(t).Live() == Live() - {t}
    {
      assert Release(t).Live() == Live() - {t};
      if t in Live() {
        assert |Live() - {t}| == |Live()| - 1;
      } else {
        assert Live() - {t} == Live();
        assert Live() != {} ==> |Live()| > 0;
      }
    }

    lemma InvalidateKeepsAccount(next: nat)
      requires WellFormed(next)
      ensures Invalidate().Accurate() && Invalidate().Live() == {} && Invalidate().WellFormed(next)
    {
      assert Invalidate().Live() == {};
    }

    /** A release asks the server to detach exactly when its token is the last one. */
    lemma DetachIsLast(t: Token)
      requires Accurate() && t in Live()
      ensures count <= 1 <==> Live() == {t}
    {
      assert Live() == {t} + (Live() - {t});
      if count <= 1 {
        assert |Live() - {t}| == 0;
      }
    }
  }

  const EMPTY := Book(0, None, 0, {}, {})

  datatype Step = Reserving(mode: LeaseMode) | Releasing(token: Token) | Invalidating

  /** One step; a reservation that conflicts is refused. `next` numbers the tokens. */
  function Apply(b: Book, next: nat, step: Step): Book {
    match step
    case Reserving(mode) => if b.MayReserve(mode) then b.Reserve(Token(next, mode, b.generation)) else b
    case Releasing(t) => b.Release(t)
    case Invalidating => b.Invalidate()
  }

  function Run(b: Book, next: nat, steps: seq<Step>): Book
    decreases |steps|
  {
    if steps == [] then b else Run(Apply(b, next, steps[0]), next + 1, steps[1..])
  }

  ghost predicate AccurateThroughout(b: Book, next: nat, steps: seq<Step>)
    decreases |steps|
  {
    b.Accurate() && (steps != [] ==> AccurateThroughout(Apply(b, next, steps[0]), next + 1, steps[1..]))
  }

  /** Each release of the run finds its token live, or finds no live token. */
  predicate CleanReleases(b: Book, next: nat, steps: seq<Step>)
    decreases |steps|
  {
    steps != [] ==>
      && (steps[0].Releasing? ==> b.Releasable(steps[0].token))
      && CleanReleases(Apply(b, next, steps[0]), next + 1, steps[1..])
  }

  /** Only tokens that were handed out are released. */
  predicate KnownReleases(b: Book, next: nat, steps: seq<Step>)
    decreases |steps|
  {
    steps != [] ==>
      && (steps[0].Releasing? ==> steps[0].token.number < next)
      && KnownReleases(Apply(b, next, steps[0]), next + 1, steps[1..])
  }

  /** Over any run the account is right at every point if and only if every release was clean. */
  lemma {:induction false} AccountingHolds(b: Book, next: nat, steps: seq<Step>)
    requires b.Accurate() && b.WellFormed(next) && (forall t <- b.released :: t.number < next) && KnownReleases(b, next, steps)
    ensures AccurateThroughout(b, next, steps) <==> CleanReleases(b, next, steps)
    decreases |steps|
  {
    if steps != [] {
      var after := Apply(b, next, steps[0]);
      match steps[0]
      case Reserving(mode) =>
        if b.MayReserve(mode) {
          b.ReserveKeepsAccount(Token(next, mode, b.generation));
        }
        AccountingHolds(after, next + 1, steps[1..]);
      case Releasing(t) =>
        b.ReleaseKeepsAccount(t);
        if b.Releasable(t) {
          AccountingHolds(after, next + 1, steps[1..]);
        }
      case Invalidating =>
        b.InvalidateKeepsAccount(next);
        AccountingHolds(after, next + 1, steps[1..]);
    }
  }

  /**
   * A release left over from before an invalidation: `first` is released after the session was
   * invalidated and leased again. The count drops to zero and an exclusive lease is granted
   * beside a live shared one.
   */
  lemma StaleReleaseBreaksExclusion(first: Token, second: Token, third: Token)
    requires first == Token(0, Shared, 0) && second == Token(2, Shared, 1) && third == Token(4, Exclusive, 1)
    ensures var steps := [Reserving(Shared), Invalidating, Reserving(Shared), Releasing(first), Reserving(Exclusive)];
      var b := Run(EMPTY, 0, steps);
      second in b.Live() && third in b.Live() && b.count == 1 && !CleanReleases(EMPTY, 0, steps)
  {
    var s5 := [Reserving(Exclusive)];
    var s4 := [Releasing(first)] + s5;
    var s3 := [Reserving(Shared)] + s4;
    var s2 := [Invalidating] + s3;
    var s1 := [Reserving(Shared)] + s2;
    var b2 := Apply(Apply(EMPTY, 0, s1[0]), 1, s2[0]);
    var b3 := Apply(b2, 2, s3[0]);
    var b4 := Apply(b3, 3, s4[0]);
    assert s1[1..] == s2 && s2[1..] == s3 && s3[1..] == s4 && s4[1..] == s5 && s5[1..] == [];
    assert second in b3.Live() && first !in b3.Live();
    assert Run(b3, 3, s4) == Run(b4, 4, s5) == Apply(b4, 4, s5[0]);
    assert Run(EMPTY, 0, s1) == Run(b2, 2, s3) == Run(b3, 3, s4);
    assert !CleanReleases(b3, 3, s4) && !CleanReleases(b2, 2, s3) && !CleanReleases(EMPTY, 0, s1);
    assert s1 == [Reserving(Shared), Invalidating, Reserving(Shared), Releasing(first), Reserving(Exclusive)];
  }

  /** Generations only grow, so a lease stamped before an invalidation is never active again. */
  lemma {:induction false} GenerationsGrow(b: Book, next: nat, steps: seq<Step>)
    ensures Run(b, next, steps).generation >= b.generation
    ensures forall i | 0 <= i < |steps| :: steps[i].Invalidating? ==> Run(b, next, steps).generation > b.generation
    decreases |steps|
  {
    if steps != [] {
      GenerationsGrow(Apply(b, next, steps[0]), next + 1, steps[1..]);
      assert forall i | 1 <= i < |steps| :: steps[i] == steps[1..][i - 1];
    }
  }

  datatype LeaseState = Active | Pending | Released | Invalidated

  /** What the session's current generation makes of a lease. */
  function Refreshed(state: LeaseState, stamp: nat, current: nat): LeaseState {
    if (state == Active || state == Pending) && current != stamp then Invalidated else state
  }

  /** Once its session was invalidated, whatever happens later, a lease stamped before stays inactive. */
  lemma InvalidatedForGood(b: Book, next: nat, steps: seq<Step>, state: LeaseState, stamp: nat)
    requires stamp <= b.generation && exists i | 0 <= i < |steps| :: steps[i].Invalidating?
    ensures Refreshed(state, stamp, Run(b, next, steps).generation) !in {Active, Pending}
  {
    GenerationsGrow(b, next, steps);
  }

  /** The client's maps from session ids. */
  class LeaseTable {
    var counts: map<nat, nat>
    var exclusive: map<nat, Token>
    var generations: map<nat, nat>
    var cleanupRequired: set<nat>
    var next: nat
    ghost var reserved: map<nat, set<Token>>
    ghost var released: map<nat, set<Token>>

    constructor ()
      ensures Valid() && next == 0 && forall s: nat :: View(s) == EMPTY
    {
      counts, exclusive, generations, cleanupRequired, next := map[], map[], map[], {}, 0;
      reserved, released := map[], map[];
    }

    /** Entries are never zero. */
    ghost predicate Valid()
      reads this
    {
      forall s <- counts :: counts[s] > 0
    }

    function Count(s: nat): nat
      reads this`counts
    {
      if s in counts then counts[s] else 0
    }

    function Generation(s: nat): nat
      reads this`generations
    {
      if s in generations then generations[s] else 0
    }

    ghost function View(s: nat): Book
      reads this`counts, this`exclusive, this`generations, this`reserved, this`released
    {
      Book(Count(s),
           if s in exclusive then Some(exclusive[s]) else None,
           Generation(s),
           if s in reserved then reserved[s] else {},
           if s in released then released[s] else {})
    }

    /** Only this session's book, if any, has changed. */
    twostate predicate Only(s: nat)
      reads this
    {
      forall other: nat | other != s :: View(other) == old(View(other))
    }

    method ReserveSessionLease(s: nat, mode: LeaseMode) returns (token: Option<Token>)
      requires Valid()
      modifies this
      ensures Valid() && Only(s) && (token.Some? <==> old(View(s)).MayReserve(mode))
      ensures token == None ==> View(s) == old(View(s)) && next == old(next)
      ensures token.Some? ==>
        && token.value == Token(old(next), mode, old(View(s)).generation) && next == old(next) + 1
        && View(s) == old(View(s)).Reserve(token.value)
    {
      var count := Count(s);
      if (mode == Exclusive && count > 0) || (mode == Shared && s in exclusive) { return None; }
      var t := Token(next, mode, Generation(s));
      next := next + 1;
      counts := counts[s := count + 1];
      if mode == Exclusive {
        exclusive := exclusive[s := t];
      }
      reserved := reserved[s := old(View(s)).reserved + {t}];
      return Some(t);
    }

    method ReleaseSessionLease(s: nat, token: Token)
      requires Valid()
      modifies this
      ensures Valid() && Only(s) && View(s) == old(View(s)).Release(token)
      ensures cleanupRequired == old(cleanupRequired) && generations == old(generations)
    {
      var count := Count(s);
      if count <= 1 {
        counts := counts - {s};
      } else {
        counts := counts[s := count - 1];
      }
      if s in exclusive && exclusive[s] == token {
        exclusive := exclusive - {s};
      }
      released := released[s := old(View(s)).released + {token}];
    }

    method InvalidateSessionLeases(s: nat)
      requires Valid()
      modifies this`counts, this`exclusive, this`generations, this`cleanupRequired
      ensures Valid() && Only(s) && View(s) == old(View(s)).Invalidate()
      ensures cleanupRequired == old(cleanupRequired) - {s}
    {
      DropEntries(s);
    }

    method DropEntries(s: nat)
      modifies this`counts, this`exclusive, this`generations, this`cleanupRequired
      ensures counts == old(counts) - {s} && exclusive == old(exclusive) - {s} && cleanupRequired == old(cleanupRequired) - {s}
      ensures generations == old(generations)[s := old(Generation(s)) + 1]
    {
      counts := counts - {s};
      exclusive := exclusive - {s};
      cleanupRequired := cleanupRequired - {s};
      generations := generations[s := Generation(s) + 1];
    }

    /** Only sessions with an entry are invalidated: a session whose count is zero keeps its generation. */
    method InvalidateAllSessionLeases()
      requires Valid()
      modifies this`counts, this`exclusive, this`generations, this`cleanupRequired
      ensures Valid() && counts == map[] && cleanupRequired == {}
      ensures forall s: nat :: View(s) == if old(Count(s)) > 0 then old(View(s)).Invalidate() else old(View(s))
    {
      var sessions := counts.Keys;
      while sessions != {}
        invariant sessions == counts.Keys <= old(counts).Keys
        invariant forall s <- sessions :: counts[s] == old(counts)[s]
        invariant forall s: nat :: s in exclusive <==> s in old(exclusive) && (s !in old(counts) || s in sessions)
        invariant forall s <- exclusive :: exclusive[s] == old(exclusive)[s]
        invariant forall s: nat :: Generation(s) == old(Generation(s)) + if s in old(counts) && s !in sessions then 1 else 0
        decreases |sessions|
      {
        var s :| s in sessions;
        DropEntries(s);
        sessions := sessions - {s};
      }
      cleanupRequired := {};
    }

    /** The lease carries the generation of its creation, which may be later than its token's. */
    method CreateSessionLease(s: nat, token: Token) returns (lease: SessionLease)
      requires Valid()
      modifies this`generations
      ensures Valid() && (forall other: nat :: View(other) == old(View(other)))
      ensures fresh(lease) && lease.table == this && lease.session == s && lease.token == token
      ensures lease.state == Active && lease.stamp == View(s).generation && lease.Orderly() && !lease.releasing
    {
      generations := generations[s := Generation(s)];
      lease := new SessionLease(this, s, token, Generation(s));
    }
  }

  datatype ReleaseStep = AlreadyOver | Joined | Refused | Detaching | Done

  class SessionLease {
    const table: LeaseTable
    const session: nat
    const token: Token
    const stamp: nat
    var state: LeaseState
    var releasing: bool   // a detach is under way

    constructor (table: LeaseTable, session: nat, token: Token, stamp: nat)
      ensures this.table == table && this.session == session && this.token == token && this.stamp == stamp && state == Active
      ensures Orderly() && !releasing
    {
      this.table, this.session, this.token, this.stamp := table, session, token, stamp;
      state, releasing := Active, false;
    }

    /** While a detach is under way the lease is pending, or an invalidation has been noticed meanwhile. */
    ghost predicate Orderly()
      reads this
    {
      (state == Pending ==> releasing) && (releasing ==> state == Pending || state == Invalidated)
    }

    method RefreshState()
      modifies this`state
      ensures state == Refreshed(old(state), stamp, table.Generation(session)) && (old(Orderly()) ==> Orderly())
    {
      if (state == Active || state == Pending) && table.Generation(session) != stamp {
        state := Invalidated;
      }
    }

    /** The first part of a release; `usable` when the client is connected and the session attached. */
    method BeginRelease(usable: bool) returns (step: ReleaseStep)
      requires table.Valid() && Orderly()
      modifies this, table
      ensures table.Valid() && table.Only(session) && Orderly()
      ensures releasing == (old(releasing) || step == Detaching)
      ensures var was, book := Refreshed(old(state), stamp, old(table.Generation(session))), old(table.View(session));
        && (step == AlreadyOver <==> was == Released || was == Invalidated)
        && (step == Joined <==> was == Pending)
        && (step == Refused <==> was == Active && !usable)
        && (step == Detaching <==> was == Active && usable && book.count <= 1)
        && state == (if step == Detaching then Pending else if step == Done then Released else was)
        && table.View(session) == if step == Done then book.Release(token) else book
    {
      RefreshState();
      if state == Released || state == Invalidated { return AlreadyOver; }
      if state == Pending { return Joined; }
      if !usable { return Refused; }
      if table.Count(session) <= 1 {
        state, releasing := Pending, true;
        return Detaching;
      }
      table.ReleaseSessionLease(session, token);
      state := Released;
      return Done;
    }

    /**
     * The rest of a release that had to detach. When the detach succeeds the token is released even
     * if the lease was invalidated meanwhile; a failed one is retried unless the lease is given up.
     */
    method FinishRelease(detached: bool, relinquish: bool)
      requires table.Valid() && Orderly() && releasing
      modifies this, table
      ensures table.Valid() && table.Only(session) && Orderly() && !releasing
      ensures var book, outdated := old(table.View(session)), Refreshed(old(state), stamp, old(table.Generation(session))) == Invalidated;
        var releases := detached || (relinquish && !outdated);
        && state == (if releases then Released else if outdated then Invalidated else Active)
        && table.View(session) == (if releases then book.Release(token) else book)
        && table.cleanupRequired == old(table.cleanupRequired) + (if releases && !detached then {session} else {})
    {
      releasing := false;
      if detached {
        table.ReleaseSessionLease(session, token);
        state := Released;
        return;
      }
      RefreshState();
      if state == Invalidated { return; }
      if relinquish {
        Relinquish();
      } else {
        state := Active;
      }
    }

    /** The lease is given up although the server may still have the session attached. */
    method Relinquish()
      requires table.Valid()
      modifies this`state, table
      ensures table.Valid() && table.Only(session) && state == Released
      ensures table.View(session) == old(table.View(session)).Release(token)
      ensures table.cleanupRequired == old(table.cleanupRequired) + {session}
    {
      table.ReleaseSessionLease(session, token);
      table.cleanupRequired := table.cleanupRequired + {session};
      state := Released;
    }
  }

  /** The end of a connection, as a current lease sees it: the lease ends with it exactly if its session has a count. */
  method Disconnect(lease: SessionLease)
    requires lease.table.Valid() && lease.state == Active && lease.stamp == lease.table.Generation(lease.session)
    modifies lease`state, lease.table`counts, lease.table`exclusive, lease.table`generations, lease.table`cleanupRequired
    ensures lease.table.Valid() && (old(lease.Orderly()) ==> lease.Orderly())
    ensures var counted := old(lease.table.Count(lease.session)) > 0;
      && lease.state == (if counted then Invalidated else Active)
      && lease.table.Generation(lease.session) == lease.stamp + if counted then 1 else 0
  {
    lease.table.InvalidateAllSessionLeases();
    assert lease.table.Generation(lease.session) == lease.table.View(lease.session).generation;
    lease.RefreshState();
  }

  /** A token that is not released stays reserved, and without an invalidation the generation stays. */
  lemma {:induction false} TokenStays(b: Book, next: nat, steps: seq<Step>, token: Token)
    requires token in b.reserved && token !in b.released && Releasing(token) !in steps
    ensures var n := Run(b, next, steps); token in n.reserved && token !in n.released
    ensures Invalidating !in steps ==> Run(b, next, steps).generation == b.generation
    decreases |steps|
  {
    if steps != [] {
      assert forall s <- steps[1..] :: s in steps;
      TokenStays(Apply(b, next, steps[0]), next + 1, steps[1..], token);
    }
  }

  lemma LivesOn(b: Book, next: nat, steps: seq<Step>, token: Token)
    requires token in b.Live() && Releasing(token) !in steps
    ensures token in Run(b, next, steps).Live() <==> Invalidating !in steps
  {
    TokenStays(b, next, steps, token);
    GenerationsGrow(b, next, steps);
    if Invalidating in steps {
      var i :| 0 <= i < |steps| && steps[i] == Invalidating;
      assert Run(b, next, steps).generation > b.generation;
    } else {
      assert Run(b, next, steps).generation == b.generation;
    }
  }

  /**
   * A lease that is created some steps after its token was reserved releases cleanly if and only if
   * no step invalidated the session, or no lease of it is live.
   */
  lemma CurrentLeaseReleasesCleanly(b: Book, next: nat, steps: seq<Step>, token: Token)
    requires token in b.Live() && Releasing(token) !in steps
    ensures var n := Run(b, next, steps);
      && (token in n.Live() <==> Invalidating !in steps)
      && (n.Releasable(token) <==> Invalidating !in steps || n.Live() == {})
  {
    LivesOn(b, next, steps, token);
  }

  /**
   * A disconnect between a reservation and its lease: the lease carries the new generation but is
   * not counted, so the next disconnect does not invalidate it.
   */
  method LateLeaseOutlivesDisconnect() returns (lease: SessionLease)
    ensures fresh(lease) && lease.token.epoch < lease.stamp
    ensures lease.state == Active && lease.table.Generation(lease.session) == lease.stamp
  {
    var table := new LeaseTable();
    var token := table.ReserveSessionLease(0, Shared);
    assert token.Some? && table.View(0).count == 1;
    table.InvalidateAllSessionLeases();
    assert table.View(0).generation == 1;
    lease := table.CreateSessionLease(0, token.value);
    assert lease.stamp == 1 && table.View(0).count == 0;
    Disconnect(lease);
  }

  /**
   * An acquisition that fails after a disconnect releases the token it reserved before: the count
   * of a lease made meanwhile is gone, and an exclusive lease is granted beside it.
   */
  method StaleReleaseAdmitsExclusive() returns (shared: SessionLease, exclusive: SessionLease)
    ensures fresh(shared) && fresh(exclusive) && shared.table == exclusive.table && shared.session == exclusive.session
    ensures shared.state == exclusive.state == Active && exclusive.token.mode == Exclusive
    ensures var table, s := shared.table, shared.session;
      && shared.stamp == exclusive.stamp == table.Generation(s)
      && shared.token != exclusive.token && shared.token in table.View(s).Live() && exclusive.token in table.View(s).Live()
  {
    var table := new LeaseTable();
    var stale := table.ReserveSessionLease(0, Shared);
    assert table.View(0).count == 1 && stale.value == Token(0, Shared, 0);
    table.InvalidateAllSessionLeases();
    ghost var cleared := table.View(0);
    assert cleared.generation == 1 && cleared.count == 0 && cleared.exclusive == None && cleared.released == {};
    var token := table.ReserveSessionLease(0, Shared);
    assert token.value.epoch == 1 && token.value.number == 1;
    shared := table.CreateSessionLease(0, token.value);
    table.ReleaseSessionLease(0, stale.value);
    ghost var late := table.View(0);
    assert late.count == 0 && late.exclusive == None && late.generation == 1;
    assert token.value in late.reserved && late.released == {stale.value};
    var second := table.ReserveSessionLease(0, Exclusive);
    exclusive := table.CreateSessionLease(0, second.value);
  }
}
