/**
 * How the schedule of a parallel batch and the protocol's view of it move together: which calls
 * are running, which have executed, and why the protocol allows each step the schedule enables.
 */
module ToolBatch {
  import opened Wrappers
  import opened AgentProtocol
  import opened ToolScheduling

  /** What a call came to: the parts of its result the loop acts on. */
  datatype Finalized = Finalized(body: nat, isError: bool, terminate: bool)

  const FAILED := Finalized(0, true, false)

  /** The first `started` calls without the ones that are done. */
  function Unended(started: nat, phase: seq<Phase>): set<nat> {
    set k: nat | k < started && !(k < |phase| && phase[k] == Done)
  }

  predicate AllTerminate(phase: seq<Phase>, finalized: seq<Finalized>)
    requires |finalized| == |phase|
  {
    forall k | 0 <= k < |phase| && phase[k] == Done :: finalized[k].terminate
  }

  predicate Looked(k: nat) { true }

  /** Schedule and protocol agree. Guarded: only proofs that mention `Looked` see more than the sizes. */
  ghost predicate Agree(s: Schedule, prepared: seq<bool>, finalized: seq<Finalized>, b: Batch) {
    && b.mode == Some(Parallel) && b.results == []
    && |s.deps| == |s.phase| == |prepared| == |finalized| == |b.flags| <= b.started
    && forall k: nat {:trigger Looked(k)} :: Looked(k) ==> InStep(s, prepared, finalized, b) && AdmitsPrepared(prepared, b)
  }

  ghost predicate AdmitsPrepared(prepared: seq<bool>, b: Batch) {
    (forall k <- b.admitted :: k < |prepared|) && (forall k | 0 <= k < |prepared| :: prepared[k] <==> k in b.admitted)
  }

  /** `prepared` says which calls passed preflight; the others only report their error. */
  ghost predicate InStep(s: Schedule, prepared: seq<bool>, finalized: seq<Finalized>, b: Batch)
    requires |s.deps| == |s.phase| == |prepared| == |finalized| == |b.flags| <= b.started
  {
    && Built(s, b.flags) && Closed(s)
    && b.running == Unended(b.started, s.phase)
    && Executes(s.phase, prepared, b.executed)
    && b.allTerminate == AllTerminate(s.phase, finalized)
  }

  lemma StartEndsNone(phase: seq<Phase>, k: nat, started: nat, finalized: seq<Finalized>)
    requires k < |phase| == |finalized| && phase[k] == Waiting
    ensures Unended(started, phase[k := Running]) == Unended(started, phase)
    ensures AllTerminate(phase[k := Running], finalized) == AllTerminate(phase, finalized)
  {
    assert forall j | 0 <= j < |phase| :: phase[k := Running][j] == Done <==> phase[j] == Done;
  }

  lemma DoneEndsOne(phase: seq<Phase>, k: nat, started: nat, finalized: seq<Finalized>, f: Finalized)
    requires k < |phase| == |finalized| && phase[k] == Running
    ensures Unended(started, phase[k := Done]) == Unended(started, phase) - {k}
    ensures AllTerminate(phase[k := Done], finalized[k := f]) == (AllTerminate(phase, finalized) && f.terminate)
  {
    var now, outcomes := phase[k := Done], finalized[k := f];
    assert forall j | 0 <= j < |phase| && j != k :: now[j] == phase[j] && outcomes[j] == finalized[j];
    if AllTerminate(now, outcomes) {
      assert outcomes[k].terminate;
      assert forall j | 0 <= j < |phase| && phase[j] == Done :: now[j] == Done && outcomes[j].terminate;
    }
  }

  lemma AgreeEmpty()
    ensures Agree(EMPTY, [], [], NO_BATCH.(mode := Some(Parallel)))
  {
    assert Looked(0);
    assert Unended(0, []) == {};
  }

  lemma AgreeStarted(s: Schedule, prepared: seq<bool>, finalized: seq<Finalized>, b: Batch)
    requires Agree(s, prepared, finalized, b)
    ensures Agree(s, prepared, finalized, b.(started := b.started + 1, running := b.running + {b.started}))
  {
    assert Looked(0);
  }

  /** The batch after the preflight of call k. */
  function Judged(b: Batch, k: nat, runs: bool): Batch {
    if runs then b.(admitted := b.admitted + {k}) else b
  }

  lemma LaunchInStep(s: Schedule, prepared: seq<bool>, finalized: seq<Finalized>, b: Batch, runs: bool, sequential: bool)
    requires |s.deps| == |s.phase| == |prepared| == |finalized| == |b.flags| < b.started && InStep(s, prepared, finalized, b)
    ensures InStep(Launch(s, sequential), prepared + [runs], finalized + [FAILED], b.(flags := b.flags + [sequential]))
  {
    LaunchBuilds(s, b.flags, sequential);
    LaunchKeepsClosed(s, sequential);
    var t := Launch(s, sequential);
    assert Unended(b.started, t.phase) == Unended(b.started, s.phase);
    assert AllTerminate(t.phase, finalized + [FAILED]) == AllTerminate(s.phase, finalized) by {
      assert forall k | 0 <= k < |s.phase| :: t.phase[k] == s.phase[k] && (finalized + [FAILED])[k] == finalized[k];
    }
  }

  lemma AgreeLaunched(s: Schedule, prepared: seq<bool>, finalized: seq<Finalized>, b: Batch, runs: bool, sequential: bool)
    requires Agree(s, prepared, finalized, b) && |s.deps| < b.started
    ensures Agree(Launch(s, sequential), prepared + [runs], finalized + [FAILED],
                  Judged(b, |s.phase|, runs).(flags := b.flags + [sequential]))
  {
    assert Looked(0);
    LaunchInStep(s, prepared, finalized, b, runs, sequential);
    InStepJudged(Launch(s, sequential), prepared + [runs], finalized + [FAILED], b.(flags := b.flags + [sequential]), |s.phase|, runs);
    AdmitsLaunched(prepared, b, runs, b.flags + [sequential]);
  }

  lemma InStepJudged(s: Schedule, prepared: seq<bool>, finalized: seq<Finalized>, b: Batch, k: nat, runs: bool)
    requires |s.deps| == |s.phase| == |prepared| == |finalized| == |b.flags| <= b.started && InStep(s, prepared, finalized, b)
    ensures InStep(s, prepared, finalized, Judged(b, k, runs))
  {
  }

  lemma AdmitsLaunched(prepared: seq<bool>, b: Batch, runs: bool, flags: seq<bool>)
    requires AdmitsPrepared(prepared, b)
    ensures AdmitsPrepared(prepared + [runs], Judged(b, |prepared|, runs).(flags := flags))
  {
  }

  /** A call whose dependencies have settled may execute: the barriers in front of it are down. */
  lemma BegunInStep(s: Schedule, prepared: seq<bool>, finalized: seq<Finalized>, b: Batch, k: nat)
    requires |s.deps| == |s.phase| == |prepared| == |finalized| == |b.flags| <= b.started && InStep(s, prepared, finalized, b)
    requires CanStart(s, k)
    ensures k in b.running && k !in b.executed && k < |b.flags|
    ensures forall i | 0 <= i < k && Barrier(b.flags, i, k) :: i !in b.running
    ensures InStep(Start(s, k), prepared, finalized, if prepared[k] then b.(executed := b.executed + {k}) else b)
  {
    BarriersDown(s, prepared, finalized, b, k);
    StartInStep(s, prepared, finalized, b, k);
  }

  lemma StartInStep(s: Schedule, prepared: seq<bool>, finalized: seq<Finalized>, b: Batch, k: nat)
    requires |s.deps| == |s.phase| == |prepared| == |finalized| == |b.flags| <= b.started && InStep(s, prepared, finalized, b)
    requires CanStart(s, k)
    ensures InStep(Start(s, k), prepared, finalized, if prepared[k] then b.(executed := b.executed + {k}) else b)
  {
    StepKeepsClosed(s, k);
    StartEndsNone(s.phase, k, b.started, finalized);
    StartExecutes(s.phase, prepared, b.executed, k);
  }

  /** Of the calls that have begun, those that passed preflight have executed. */
  ghost predicate Executes(phase: seq<Phase>, prepared: seq<bool>, executed: set<nat>)
    requires |phase| == |prepared|
  {
    && (forall k <- executed :: k < |phase| && phase[k] != Waiting)
    && (forall k | 0 <= k < |phase| && phase[k] != Waiting :: prepared[k] <==> k in executed)
  }

  lemma StartExecutes(phase: seq<Phase>, prepared: seq<bool>, executed: set<nat>, k: nat)
    requires k < |phase| == |prepared| && Executes(phase, prepared, executed) && phase[k] == Waiting
    ensures Executes(phase[k := Running], prepared, if prepared[k] then executed + {k} else executed)
  {
  }

  lemma BarriersDown(s: Schedule, prepared: seq<bool>, finalized: seq<Finalized>, b: Batch, k: nat)
    requires |s.deps| == |s.phase| == |prepared| == |finalized| == |b.flags| <= b.started && InStep(s, prepared, finalized, b)
    requires CanStart(s, k)
    ensures k < |b.flags| && forall i | 0 <= i < k && Barrier(b.flags, i, k) :: i !in b.running
  {
    StepKeepsClosed(s, k);
    forall i | 0 <= i < k && Barrier(b.flags, i, k)
      ensures i !in b.running
    {
      BarrierHolds(Start(s, k), b.flags, i, k);
    }
  }

  lemma AgreeBegun(s: Schedule, prepared: seq<bool>, finalized: seq<Finalized>, b: Batch, k: nat)
    requires Agree(s, prepared, finalized, b) && CanStart(s, k)
    ensures k in b.running && k !in b.executed && k < |b.flags| && (prepared[k] <==> k in b.admitted)
    ensures forall i | 0 <= i < k && Barrier(b.flags, i, k) :: i !in b.running
    ensures Agree(Start(s, k), prepared, finalized, if prepared[k] then b.(executed := b.executed + {k}) else b)
  {
    assert Looked(0);
    BegunInStep(s, prepared, finalized, b, k);
  }

  lemma AgreeDone(s: Schedule, prepared: seq<bool>, finalized: seq<Finalized>, b: Batch, k: nat, f: Finalized)
    requires Agree(s, prepared, finalized, b) && CanFinish(s, k)
    ensures k in b.running && MayFinish(b, k)
    ensures Agree(Finish(s, k), prepared, finalized[k := f],
                  b.(running := b.running - {k}, allTerminate := b.allTerminate && f.terminate))
  {
    assert Looked(0);
    DoneInStep(s, prepared, finalized, b, k, f);
  }

  lemma DoneInStep(s: Schedule, prepared: seq<bool>, finalized: seq<Finalized>, b: Batch, k: nat, f: Finalized)
    requires |s.deps| == |s.phase| == |prepared| == |finalized| == |b.flags| <= b.started && InStep(s, prepared, finalized, b)
    requires CanFinish(s, k)
    ensures InStep(Finish(s, k), prepared, finalized[k := f],
                   b.(running := b.running - {k}, allTerminate := b.allTerminate && f.terminate))
  {
    StepKeepsClosed(s, k);
    DoneEndsOne(s.phase, k, b.started, finalized, f);
  }

  lemma AgreeUnjudged(s: Schedule, prepared: seq<bool>, finalized: seq<Finalized>, b: Batch, k: nat)
    requires Agree(s, prepared, finalized, b) && k == |s.phase| < b.started
    ensures k in b.running && k !in b.admitted && k !in b.executed
  {
    assert Looked(0);
  }

  /** Once a call has begun, it executes exactly if it passed preflight. */
  lemma AgreeExecuted(s: Schedule, prepared: seq<bool>, finalized: seq<Finalized>, b: Batch, k: nat)
    requires Agree(s, prepared, finalized, b) && k < |s.phase| && s.phase[k] != Waiting
    ensures prepared[k] <==> k in b.executed
  {
    assert Looked(0);
  }

  /** When every call is done nothing runs, and the batch terminates iff every call asked for it. */
  lemma AgreeFinished(s: Schedule, prepared: seq<bool>, finalized: seq<Finalized>, b: Batch)
    requires Agree(s, prepared, finalized, b) && AllDone(s) && b.started == |s.phase|
    ensures b.running == {}
    ensures b.allTerminate <==> forall k | 0 <= k < |finalized| :: finalized[k].terminate
  {
    assert Looked(0);
    assert Unended(b.started, s.phase) == {};
  }

  lemma AgreeProgress(s: Schedule, prepared: seq<bool>, finalized: seq<Finalized>, b: Batch)
    requires Agree(s, prepared, finalized, b) && !AllDone(s)
    ensures var k := FirstUnfinished(s.phase); CanStart(s, k) || CanFinish(s, k)
  {
    assert Looked(0);
    Progress(s, b.flags);
  }

  lemma AgreeUpdates(s: Schedule, prepared: seq<bool>, finalized: seq<Finalized>, b: Batch, k: nat)
    requires Agree(s, prepared, finalized, b) && CanFinish(s, k) && prepared[k]
    ensures k in b.running && k in b.executed
  {
    assert Looked(0);
  }
}
