/**
 * The snapshots a client keeps, from packages/client/src/state.ts: what arrives out of order never
 * takes a session or the server back to an earlier revision.
 */
module ClientSnapshots {
  import opened Wrappers

  datatype SessionSnapshot = SessionSnapshot(id: nat, revision: nat, attached: bool, body: nat)

  datatype ServerSnapshot = ServerSnapshot(revision: nat, attached: set<nat>)

  datatype CommandResult = ListResult | DetachResult(sessionId: nat) | SessionResult(session: SessionSnapshot)

  datatype ServerEvent =
    | ServerChanged(server: ServerSnapshot) | SessionChanged(session: SessionSnapshot)
    | SessionRemoved(sessionId: nat) | OtherEvent

  /** The largest of some revisions. */
  function Highest(revisions: seq<nat>): nat
    requires revisions != []
  {
    var n := |revisions| - 1;
    if n == 0 || revisions[n] >= Highest(revisions[..n]) then revisions[n] else Highest(revisions[..n])
  }

  lemma {:induction false} HighestIsHighest(revisions: seq<nat>)
    requires revisions != []
    ensures Highest(revisions) in revisions && forall i | 0 <= i < |revisions| :: revisions[i] <= Highest(revisions)
  {
    if |revisions| > 1 {
      HighestIsHighest(revisions[..|revisions| - 1]);
    }
  }

  lemma HighestGrows(revisions: seq<nat>, r: nat)
    requires revisions != []
    ensures Highest(revisions + [r]) == if r >= Highest(revisions) then r else Highest(revisions)
  {
    assert (revisions + [r])[..|revisions|] == revisions;
  }

  class ClientState {
    var sessionSnapshots: map<nat, SessionSnapshot>
    var attachedSessionIds: set<nat>
    var snapshot: Option<ServerSnapshot>
    ghost var offered: map<nat, seq<nat>>   // revisions of each session since it was last forgotten or removed
    ghost var served: seq<nat>              // server revisions since the last reset

    /** What is stored has the highest revision that was offered. */
    ghost predicate Valid()
      reads this
    {
      && sessionSnapshots.Keys == offered.Keys
      && (forall id <- offered :: offered[id] != [])
      && (forall id <- sessionSnapshots :: sessionSnapshots[id].id == id && sessionSnapshots[id].revision == Highest(offered[id]))
      && (snapshot.Some? <==> served != [])
      && (served != [] ==> snapshot.value.revision == Highest(served))
    }

    constructor ()
      ensures Valid() && sessionSnapshots == map[] && snapshot == None
    {
      sessionSnapshots, attachedSessionIds, snapshot := map[], {}, None;
      offered, served := map[], [];
    }

    ghost function Offers(id: nat): seq<nat>
      reads this
    {
      if id in offered then offered[id] else []
    }

    /** Stored sessions stay, and none goes back to an earlier revision. */
    twostate predicate NeverBack()
      reads this
    {
      forall id <- old(sessionSnapshots) :: id in sessionSnapshots && old(sessionSnapshots[id].revision) <= sessionSnapshots[id].revision
    }

    method ApplySessionSnapshot(s: SessionSnapshot, force: bool)
      requires Valid() && (force ==> s.id in sessionSnapshots && s.revision == sessionSnapshots[s.id].revision)
      modifies this`sessionSnapshots, this`attachedSessionIds, this`offered
      ensures Valid() && NeverBack() && offered == old(offered)[s.id := old(Offers(s.id)) + [s.revision]]
      ensures var stale := s.id in old(sessionSnapshots) && s.revision < old(sessionSnapshots)[s.id].revision;
        && sessionSnapshots == (if stale then old(sessionSnapshots) else old(sessionSnapshots)[s.id := s])
        && attachedSessionIds == (if stale then old(attachedSessionIds)
                                  else if s.attached then old(attachedSessionIds) + {s.id} else old(attachedSessionIds) - {s.id})
    {
      if s.id in offered {
        HighestGrows(offered[s.id], s.revision);
      }
      offered := offered[s.id := Offers(s.id) + [s.revision]];
      if !force && s.id in sessionSnapshots && s.revision < sessionSnapshots[s.id].revision { return; }
      sessionSnapshots := sessionSnapshots[s.id := s];
      attachedSessionIds := if s.attached then attachedSessionIds + {s.id} else attachedSessionIds - {s.id};
    }

    method ApplyServerSnapshot(s: ServerSnapshot)
      requires Valid()
      modifies this`snapshot, this`attachedSessionIds, this`served
      ensures Valid() && served == old(served) + [s.revision] && snapshot.Some?
      ensures var stale := old(snapshot).Some? && s.revision < old(snapshot).value.revision;
        snapshot == (if stale then old(snapshot) else Some(s))
        && attachedSessionIds == if stale then old(attachedSessionIds) else s.attached
    {
      if served != [] {
        HighestGrows(served, s.revision);
      }
      served := served + [s.revision];
      if snapshot.Some? && s.revision < snapshot.value.revision { return; }
      snapshot := Some(s);
      attachedSessionIds := s.attached;
    }

    method ApplyResult(result: CommandResult)
      requires Valid()
      modifies this
      ensures Valid() && NeverBack() && snapshot == old(snapshot)
      ensures result.SessionResult? ==> offered == old(offered)[result.session.id := old(Offers(result.session.id)) + [result.session.revision]]
      ensures result.DetachResult? ==> result.sessionId !in attachedSessionIds && sessionSnapshots.Keys == old(sessionSnapshots).Keys
      ensures result.DetachResult? && result.sessionId in old(sessionSnapshots) ==>
        sessionSnapshots[result.sessionId] == old(sessionSnapshots)[result.sessionId].(attached := false)
      ensures result.ListResult? ==> unchanged(this)
    {
      match result
      case ListResult =>
      case DetachResult(id) =>
        attachedSessionIds := attachedSessionIds - {id};
        if id in sessionSnapshots {
          ApplySessionSnapshot(sessionSnapshots[id].(attached := false), true);
        }
      case SessionResult(session) => ApplySessionSnapshot(session, false);
    }

    method ApplyEvent(event: ServerEvent)
      requires Valid()
      modifies this
      ensures Valid()
      ensures !event.SessionRemoved? ==> NeverBack()
      ensures event.SessionChanged? ==> offered == old(offered)[event.session.id := old(Offers(event.session.id)) + [event.session.revision]]
      ensures event.ServerChanged? ==> served == old(served) + [event.server.revision]
      ensures event.SessionRemoved? ==>
        sessionSnapshots == old(sessionSnapshots) - {event.sessionId} && event.sessionId !in attachedSessionIds
          && offered == old(offered) - {event.sessionId}
    {
      match event
      case ServerChanged(server) => ApplyServerSnapshot(server);
      case SessionChanged(session) => ApplySessionSnapshot(session, false);
      case SessionRemoved(id) =>
        sessionSnapshots := sessionSnapshots - {id};
        attachedSessionIds := attachedSessionIds - {id};
        offered := offered - {id};
      case OtherEvent =>
    }

    /** Before an attach the stored snapshot is set aside, so that any revision may take its place. */
    method ForgetSessionSnapshot(id: nat) returns (previous: Option<SessionSnapshot>)
      requires Valid()
      modifies this`sessionSnapshots, this`offered
      ensures Valid() && sessionSnapshots == old(sessionSnapshots) - {id} && offered == old(offered) - {id}
      ensures previous == if id in old(sessionSnapshots) then Some(old(sessionSnapshots)[id]) else None
    {
      previous := if id in sessionSnapshots then Some(sessionSnapshots[id]) else None;
      sessionSnapshots := sessionSnapshots - {id};
      offered := offered - {id};
    }

    /** When the attach failed it comes back, unless something newer has arrived meanwhile, whatever its revision. */
    method RestoreSessionSnapshot(s: SessionSnapshot)
      requires Valid()
      modifies this`sessionSnapshots, this`offered
      ensures Valid() && NeverBack()
      ensures sessionSnapshots == if s.id in old(sessionSnapshots) then old(sessionSnapshots) else old(sessionSnapshots)[s.id := s]
      ensures offered == if s.id in old(offered) then old(offered) else old(offered)[s.id := [s.revision]]
    {
      if s.id !in sessionSnapshots {
        sessionSnapshots := sessionSnapshots[s.id := s];
        offered := offered[s.id := [s.revision]];
      }
    }

    method Reset()
      modifies this
      ensures Valid() && sessionSnapshots == map[] && attachedSessionIds == {} && snapshot == None
    {
      sessionSnapshots, attachedSessionIds, snapshot := map[], {}, None;
      offered, served := map[], [];
    }
  }
}
