/**
 * The dependency graph that executeToolCallsParallel (packages/agent/src/agent-loop.ts) builds
 * while it launches a batch, and every schedule the graph allows. The specification is the wave
 * rule of the documentation: a sequential call is a barrier between what precedes and follows it.
 */
module ToolScheduling {
  import opened Wrappers

  datatype Phase = Waiting | Running | Done

  /** `deps[k]` are the calls whose completion call k awaits; the other fields are the loop's locals. */
  datatype Schedule = Schedule(
    deps: seq<seq<nat>>,
    phase: seq<Phase>,
    lastSequentialCall: Option<nat>,
    currentParallelWave: seq<nat>)

  const EMPTY := Schedule([], [], None, [])

  /** One round of the launch loop. */
  function Launch(s: Schedule, sequential: bool): Schedule {
    var k := |s.deps|;
    var last := if s.lastSequentialCall.Some? then [s.lastSequentialCall.value] else [];
    if sequential then
      Schedule(s.deps + [last + s.currentParallelWave], s.phase + [Waiting], Some(k), [])
    else
      Schedule(s.deps + [last], s.phase + [Waiting], s.lastSequentialCall, s.currentParallelWave + [k])
  }

  predicate Settled(phase: seq<Phase>, calls: seq<nat>) {
    forall d <- calls :: d < |phase| && phase[d] == Done
  }

  /** All promises call k awaits have settled and it has not begun. */
  predicate CanStart(s: Schedule, k: nat) {
    k < |s.deps| && k < |s.phase| && s.phase[k] == Waiting && Settled(s.phase, s.deps[k])
  }

  predicate CanFinish(s: Schedule, k: nat) {
    k < |s.phase| && s.phase[k] == Running
  }

  function Start(s: Schedule, k: nat): Schedule
    requires CanStart(s, k)
  {
    s.(phase := s.phase[k := Running])
  }

  function Finish(s: Schedule, k: nat): Schedule
    requires CanFinish(s, k)
  {
    s.(phase := s.phase[k := Done])
  }

  // ----- the wave rule -----

  /** Some call from i to j, both included, is sequential. */
  predicate Barrier(flags: seq<bool>, i: nat, j: nat)
    requires i <= j < |flags|
  {
    exists k | i <= k <= j :: flags[k]
  }

  /** The last sequential call before n, if any. */
  function LastSequential(flags: seq<bool>, n: nat): (last: Option<nat>)
    requires n <= |flags|
    ensures last.Some? ==> last.value < n && flags[last.value]
    ensures forall k | (if last.Some? then last.value + 1 else 0) <= k < n :: !flags[k]
  {
    if n == 0 then None else if flags[n - 1] then Some(n - 1) else LastSequential(flags, n - 1)
  }

  function WaveStart(flags: seq<bool>, n: nat): (start: nat)
    requires n <= |flags|
    ensures start <= n
  {
    var last := LastSequential(flags, n);
    if last.Some? then last.value + 1 else 0
  }

  function Range(lo: nat, hi: nat): (r: seq<nat>)
    requires lo <= hi
    ensures |r| == hi - lo && forall k :: k in r <==> lo <= k < hi
  {
    if lo == hi then [] else Range(lo, hi - 1) + [hi - 1]
  }

  /** What the launch loop has built after the calls with these flags, whatever ran meanwhile. */
  ghost predicate Built(s: Schedule, flags: seq<bool>) {
    && |s.deps| == |s.phase| == |flags|
    && s.lastSequentialCall == LastSequential(flags, |flags|)
    && s.currentParallelWave == Range(WaveStart(flags, |flags|), |flags|)
    && forall j | 0 <= j < |flags| :: s.deps[j] == Awaited(flags, j)
  }

  /** A parallel call awaits the last sequential one; a sequential call awaits the wave since it too. */
  function Awaited(flags: seq<bool>, j: nat): (d: seq<nat>)
    requires j < |flags|
    ensures forall k <- d :: k < j
  {
    var last := LastSequential(flags, j);
    (if last.Some? then [last.value] else []) + if flags[j] then Range(WaveStart(flags, j), j) else []
  }

  lemma LastSequentialPrefix(flags: seq<bool>, flag: bool, n: nat)
    requires n <= |flags|
    ensures LastSequential(flags + [flag], n) == LastSequential(flags, n)
  {
    if n > 0 {
      assert (flags + [flag])[n - 1] == flags[n - 1];
      LastSequentialPrefix(flags, flag, n - 1);
    }
  }

  lemma AwaitedPrefix(flags: seq<bool>, flag: bool, j: nat)
    requires j < |flags|
    ensures Awaited(flags + [flag], j) == Awaited(flags, j)
  {
    LastSequentialPrefix(flags, flag, j);
    assert (flags + [flag])[j] == flags[j];
  }

  /** What the launched call awaits, and the wave it leaves. */
  lemma AwaitedLast(s: Schedule, flags: seq<bool>, flag: bool)
    requires Built(s, flags)
    ensures var after, t := flags + [flag], Launch(s, flag);
      && t.deps[|flags|] == Awaited(after, |flags|) && t.lastSequentialCall == LastSequential(after, |after|)
      && t.currentParallelWave == Range(WaveStart(after, |after|), |after|)
  {
    var after := flags + [flag];
    LastSequentialPrefix(flags, flag, |flags|);
    assert after[|flags|] == flag;
    var last := if s.lastSequentialCall.Some? then [s.lastSequentialCall.value] else [];
    assert last + [] == last;
  }

  lemma LaunchBuilds(s: Schedule, flags: seq<bool>, flag: bool)
    requires Built(s, flags)
    ensures Built(Launch(s, flag), flags + [flag])
  {
    AwaitedLast(s, flags, flag);
    forall j | 0 <= j < |flags|
      ensures Launch(s, flag).deps[j] == Awaited(flags + [flag], j)
    {
      AwaitedPrefix(flags, flag, j);
    }
  }

  // ----- schedules -----

  datatype Step = LaunchNext | StartCall(k: nat) | FinishCall(k: nat)

  /** Runs a list of steps over a batch whose calls have these flags; None when a step is not enabled. */
  function Run(flags: seq<bool>, steps: seq<Step>): Option<Schedule>
    decreases |steps|
  {
    if steps == [] then Some(EMPTY)
    else
      var before := Run(flags, steps[..|steps| - 1]);
      if before == None then None
      else
        var s := before.value;
        match steps[|steps| - 1]
        case LaunchNext => if |s.deps| < |flags| then Some(Launch(s, flags[|s.deps|])) else None
        case StartCall(k) => if CanStart(s, k) then Some(Start(s, k)) else None
        case FinishCall(k) => if CanFinish(s, k) then Some(Finish(s, k)) else None
  }

  /** Every call that has begun had its dependencies settled. */
  ghost predicate Closed(s: Schedule) {
    && |s.deps| == |s.phase|
    && forall j | 0 <= j < |s.deps| && s.phase[j] != Waiting :: Settled(s.phase, s.deps[j])
  }

  lemma LaunchKeepsClosed(s: Schedule, sequential: bool)
    requires Closed(s)
    ensures Closed(Launch(s, sequential))
  {
    var t := Launch(s, sequential);
    forall j | 0 <= j < |t.deps| && t.phase[j] != Waiting
      ensures Settled(t.phase, t.deps[j])
    {
      assert Settled(s.phase, s.deps[j]);
    }
  }

  lemma StepKeepsClosed(s: Schedule, k: nat)
    requires Closed(s)
    ensures CanStart(s, k) ==> Closed(Start(s, k))
    ensures CanFinish(s, k) ==> Closed(Finish(s, k))
  {
    if CanStart(s, k) || CanFinish(s, k) {
      var t := if CanStart(s, k) then Start(s, k) else Finish(s, k);
      forall j | 0 <= j < |t.deps| && t.phase[j] != Waiting
        ensures Settled(t.phase, t.deps[j])
      {
        assert Settled(s.phase, s.deps[j]);
      }
    }
  }

  lemma {:induction false} Reachable(flags: seq<bool>, steps: seq<Step>)
    requires Run(flags, steps).Some?
    ensures var s := Run(flags, steps).value; Closed(s) && |s.deps| <= |flags| && Built(s, flags[..|s.deps|])
    decreases |steps|
  {
    if steps != [] {
      Reachable(flags, steps[..|steps| - 1]);
      var s := Run(flags, steps[..|steps| - 1]).value;
      match steps[|steps| - 1]
      case LaunchNext =>
        LaunchKeepsClosed(s, flags[|s.deps|]);
        assert flags[..|s.deps| + 1] == flags[..|s.deps|] + [flags[|s.deps|]];
        LaunchBuilds(s, flags[..|s.deps|], flags[|s.deps|]);
      case StartCall(k) => StepKeepsClosed(s, k);
      case FinishCall(k) => StepKeepsClosed(s, k);
    }
  }

  /** What call j awaits: the last sequential call in front of it and, if it is sequential itself, the wave since. */
  lemma AwaitedAre(flags: seq<bool>, d: nat, j: nat)
    requires j < |flags|
    ensures d in Awaited(flags, j) <==> LastSequential(flags, j) == Some(d) || (flags[j] && WaveStart(flags, j) <= d < j)
  {
    var last := LastSequential(flags, j);
    var lasts, wave := if last.Some? then [last.value] else [], if flags[j] then Range(WaveStart(flags, j), j) else [];
    assert Awaited(flags, j) == lasts + wave;
    assert d in lasts + wave <==> d in lasts || d in wave;
  }

  lemma DependencyDone(s: Schedule, flags: seq<bool>, d: nat, j: nat)
    requires Closed(s) && Built(s, flags) && j < |flags| && s.phase[j] != Waiting
    requires LastSequential(flags, j) == Some(d) || (flags[j] && WaveStart(flags, j) <= d < j)
    ensures d < j && s.phase[d] == Done
  {
    AwaitedAre(flags, d, j);
    assert s.deps[j] == Awaited(flags, j) && Settled(s.phase, s.deps[j]);
  }

  /** A barrier that is not in call j's own wave is closed by the last sequential call in front of it. */
  lemma LastInFront(flags: seq<bool>, i: nat, j: nat) returns (l: nat)
    requires i < j < |flags| && Barrier(flags, i, j) && !(flags[j] && WaveStart(flags, j) <= i)
    ensures LastSequential(flags, j) == Some(l) && i <= l < j && flags[l]
  {
    var k :| i <= k <= j && flags[k];
    l := LastSequential(flags, j).value;
  }

  /** Safety: behind a barrier, nothing begins before everything in front of it has finished. */
  lemma {:induction false} BarrierHolds(s: Schedule, flags: seq<bool>, i: nat, j: nat)
    requires Closed(s) && Built(s, flags) && i < j < |flags| && Barrier(flags, i, j)
    requires s.phase[j] != Waiting
    ensures s.phase[i] == Done
    decreases j
  {
    if flags[j] && WaveStart(flags, j) <= i {
      DependencyDone(s, flags, i, j);
    } else {
      var l := LastInFront(flags, i, j);
      DependencyDone(s, flags, l, j);
      if i < l {
        assert Barrier(flags, i, l);
        BarrierHolds(s, flags, i, l);
      }
    }
  }

  /** Run from a reached schedule: lists of steps compose. */
  lemma RunStep(flags: seq<bool>, steps: seq<Step>, step: Step)
    requires Run(flags, steps).Some?
    ensures var s := Run(flags, steps).value;
      Run(flags, steps + [step]) == match step
        case LaunchNext => if |s.deps| < |flags| then Some(Launch(s, flags[|s.deps|])) else None
        case StartCall(k) => if CanStart(s, k) then Some(Start(s, k)) else None
        case FinishCall(k) => if CanFinish(s, k) then Some(Finish(s, k)) else None
  {
    assert (steps + [step])[..|steps|] == steps;
  }

  lemma {:induction false} LaunchAll(flags: seq<bool>, n: nat) returns (steps: seq<Step>)
    requires n <= |flags|
    ensures Run(flags, steps).Some?
    ensures var s := Run(flags, steps).value; |s.deps| == |s.phase| == n && forall k | 0 <= k < n :: s.phase[k] == Waiting
  {
    steps := [];
    if n > 0 {
      steps := LaunchAll(flags, n - 1);
      RunStep(flags, steps, LaunchNext);
      steps := steps + [LaunchNext];
    }
  }

  /** Launch everything, then run the first n calls one after another. */
  lemma {:induction false} FinishFirst(flags: seq<bool>, n: nat) returns (steps: seq<Step>)
    requires n <= |flags|
    ensures Run(flags, steps).Some?
    ensures var s := Run(flags, steps).value;
      |s.deps| == |s.phase| == |flags| && forall k | 0 <= k < |flags| :: s.phase[k] == if k < n then Done else Waiting
  {
    if n == 0 {
      steps := LaunchAll(flags, |flags|);
    } else {
      steps := FinishFirst(flags, n - 1);
      Reachable(flags, steps);
      assert flags[..|flags|] == flags;
      assert Run(flags, steps).value.deps[n - 1] == Awaited(flags, n - 1);
      RunStep(flags, steps, StartCall(n - 1));
      steps := steps + [StartCall(n - 1)];
      RunStep(flags, steps, FinishCall(n - 1));
      steps := steps + [FinishCall(n - 1)];
    }
  }

  /** Call j begins once everything before it has finished, and nothing after it has begun. */
  lemma BeginFirst(flags: seq<bool>, j: nat) returns (steps: seq<Step>)
    requires j < |flags|
    ensures Run(flags, steps).Some?
    ensures var phase := Run(flags, steps).value.phase;
      |phase| == |flags| && phase[j] == Running && forall k | j < k < |flags| :: phase[k] == Waiting
  {
    steps := FinishFirst(flags, j);
    Reachable(flags, steps);
    assert flags[..|flags|] == flags;
    assert Run(flags, steps).value.deps[j] == Awaited(flags, j);
    RunStep(flags, steps, StartCall(j));
    steps := steps + [StartCall(j)];
  }

  /** Liveness of the wave rule: with no barrier between them two calls can be in flight together. */
  lemma NoBarrierOverlap(flags: seq<bool>, i: nat, j: nat) returns (steps: seq<Step>)
    requires i < j < |flags| && !Barrier(flags, i, j)
    ensures Run(flags, steps).Some?
    ensures var s := Run(flags, steps).value; |s.phase| == |flags| && s.phase[i] == Running && s.phase[j] == Running
  {
    steps := FinishFirst(flags, i);
    Reachable(flags, steps);
    assert flags[..|flags|] == flags;
    var s := Run(flags, steps).value;
    assert !flags[i] && !flags[j];
    assert LastSequential(flags, j).Some? ==> LastSequential(flags, j).value < i;
    assert s.deps[i] == Awaited(flags, i) && s.deps[j] == Awaited(flags, j);
    RunStep(flags, steps, StartCall(i));
    var t := Start(s, i);
    assert CanStart(t, j) by {
      forall d: nat | d in t.deps[j] ensures d < |t.phase| && t.phase[d] == Done { assert d < i; }
    }
    steps := steps + [StartCall(i)];
    RunStep(flags, steps, StartCall(j));
    steps := steps + [StartCall(j)];
  }

  /** Call j may only begin once call i has finished, in every schedule of the batch. */
  ghost predicate MustPrecede(flags: seq<bool>, i: nat, j: nat) {
    forall steps :: Run(flags, steps).Some? ==>
      var phase := Run(flags, steps).value.phase;
      i < |phase| && j < |phase| && phase[j] != Waiting ==> phase[i] == Done
  }

  /** The built dependencies order exactly the pairs the wave rule orders. */
  lemma WaveRule(flags: seq<bool>, i: nat, j: nat)
    requires i < |flags| && j < |flags|
    ensures MustPrecede(flags, i, j) <==> i < j && Barrier(flags, i, j)
  {
    if j <= i {
      var steps := BeginFirst(flags, j);
      var phase := Run(flags, steps).value.phase;
      assert phase[j] != Waiting && phase[i] != Done;
    } else if Barrier(flags, i, j) {
      forall steps | Run(flags, steps).Some?
        ensures var phase := Run(flags, steps).value.phase;
          i < |phase| && j < |phase| && phase[j] != Waiting ==> phase[i] == Done
      {
        Reachable(flags, steps);
        var s := Run(flags, steps).value;
        if j < |s.phase| && s.phase[j] != Waiting {
          var k :| i <= k <= j && flags[k];
          assert flags[..|s.deps|][k];
          BarrierHolds(s, flags[..|s.deps|], i, j);
        }
      }
    } else {
      var steps := NoBarrierOverlap(flags, i, j);
    }
  }

  /** A sequential call is never in flight together with any other call. */
  lemma SequentialAlone(flags: seq<bool>, steps: seq<Step>, i: nat, j: nat)
    requires i < |flags| && j < |flags| && i != j && flags[i]
    requires Run(flags, steps).Some?
    ensures var phase := Run(flags, steps).value.phase;
      !(i < |phase| && j < |phase| && phase[i] == Running && phase[j] == Running)
  {
    var a, b := if i < j then i else j, if i < j then j else i;
    assert Barrier(flags, a, b);
    WaveRule(flags, a, b);
  }

  predicate AllDone(s: Schedule) {
    forall i | 0 <= i < |s.phase| :: s.phase[i] == Done
  }

  function FirstUnfinished(phase: seq<Phase>): (k: nat)
    requires exists i | 0 <= i < |phase| :: phase[i] != Done
    ensures k < |phase| && phase[k] != Done && forall i | 0 <= i < k :: phase[i] == Done
  {
    if phase[0] != Done then 0
    else
      assert exists i | 0 <= i < |phase[1..]| :: phase[1..][i] != Done by {
        var i :| 0 <= i < |phase| && phase[i] != Done;
        assert phase[1..][i - 1] != Done;
      }
      var k := 1 + FirstUnfinished(phase[1..]);
      assert forall i | 1 <= i < k :: phase[i] == phase[1..][i - 1];
      k
  }

  /** No schedule gets stuck: whenever a launched call is unfinished, the first such call can move. */
  lemma Progress(s: Schedule, flags: seq<bool>)
    requires Closed(s) && Built(s, flags) && !AllDone(s)
    ensures var k := FirstUnfinished(s.phase); CanStart(s, k) || CanFinish(s, k)
  {
    var k := FirstUnfinished(s.phase);
    assert s.deps[k] == Awaited(flags, k);
  }

  /** What is left to do, in steps. */
  function Remaining(phase: seq<Phase>): nat {
    if phase == [] then 0
    else Remaining(phase[..|phase| - 1]) + match phase[|phase| - 1] case Waiting => 2 case Running => 1 case Done => 0
  }

  lemma {:induction false} StepsShrink(phase: seq<Phase>, k: nat, next: Phase)
    requires k < |phase| && ((phase[k] == Waiting && next == Running) || (phase[k] == Running && next == Done))
    ensures Remaining(phase[k := next]) == Remaining(phase) - 1
  {
    var n := |phase| - 1;
    if k == n {
      assert phase[k := next][..n] == phase[..n];
    } else {
      assert phase[k := next][..n] == phase[..n][k := next];
      StepsShrink(phase[..n], k, next);
    }
  }

  lemma {:induction false} NothingLeft(s: Schedule)
    ensures AllDone(s) <==> Remaining(s.phase) == 0
    decreases |s.phase|
  {
    if s.phase != [] {
      var n := |s.phase| - 1;
      NothingLeft(s.(phase := s.phase[..n]));
      assert AllDone(s) <==> AllDone(s.(phase := s.phase[..n])) && s.phase[n] == Done;
    }
  }

  /** One enabled step that launches nothing and leaves less to do. */
  lemma Continue(flags: seq<bool>, steps: seq<Step>) returns (step: Step)
    requires Run(flags, steps).Some? && !AllDone(Run(flags, steps).value)
    ensures step != LaunchNext && Run(flags, steps + [step]).Some?
    ensures var s, t := Run(flags, steps).value, Run(flags, steps + [step]).value;
      |t.phase| == |s.phase| && Remaining(t.phase) < Remaining(s.phase)
  {
    var s := Run(flags, steps).value;
    Reachable(flags, steps);
    Progress(s, flags[..|s.deps|]);
    var k := FirstUnfinished(s.phase);
    step := if CanStart(s, k) then StartCall(k) else FinishCall(k);
    RunStep(flags, steps, step);
    StepsShrink(s.phase, k, if CanStart(s, k) then Running else Done);
  }

  /** Every schedule can be carried on, without launching more, until all launched calls are done. */
  lemma {:induction false} CanComplete(flags: seq<bool>, steps: seq<Step>) returns (more: seq<Step>)
    requires Run(flags, steps).Some?
    ensures LaunchNext !in more
    ensures Run(flags, steps + more).Some?
    ensures var s, t := Run(flags, steps).value, Run(flags, steps + more).value; AllDone(t) && |t.phase| == |s.phase|
    decreases Remaining(Run(flags, steps).value.phase)
  {
    if AllDone(Run(flags, steps).value) {
      more := [];
      assert steps + [] == steps;
    } else {
      var step := Continue(flags, steps);
      var rest := CanComplete(flags, steps + [step]);
      more := [step] + rest;
      assert steps + more == steps + [step] + rest;
    }
  }
}
