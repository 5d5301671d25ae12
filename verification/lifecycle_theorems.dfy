/** The promises of `Agent.start` and `Agent.stop`, over every run. */
module LifecycleTheorems {
  import opened Lifecycle
  import opened LifecycleProofs
  import Traces

  // ---- start, unwind and cleanup never overlap ----------------------------------------

  /**
    While `stop` is suspended in its cleanup something is pending, so a new `start` is
    refused and changes nothing; and no start in flight is at one of its own awaits.
    */
  lemma CleanupExcludesStart(states: seq<State>, steps: seq<Step>, i: nat, owns: bool, claimed: bool, held: bool)
    requires Run(states, steps) && i < |states| && !states[i].cleaner.NoOne?
    ensures states[i].pending != {}
    ensures BeginStart(states[i], owns, claimed, held) == states[i].(report := Refused)
    ensures states[i].start.Idle? || states[i].start.Stopping?
  {
    RunKeeps(states, steps, i);
    NothingIsEmpty(states[i].pending);
  }

  /** While a start is booting or unwinding, a `stop` only latches its request. */
  lemma StopOnlyLatchesDuringStart(states: seq<State>, steps: seq<Step>, i: nat)
    requires Run(states, steps) && i < |states| && Booting(states[i])
    ensures forall caller :: EnterStop(states[i], caller) ==
              EndStop(states[i].(stopRequested := true, past := states[i].past.(latched := true)), caller, StopLatched)
    ensures states[i].cleaner.NoOne?
  {
    RunKeeps(states, steps, i);
  }

  // ---- the single-instance claim ------------------------------------------------------

  /** Held while started; not held while idle with nothing pending. */
  lemma ClaimIsHeldWhenNeeded(states: seq<State>, steps: seq<Step>, i: nat)
    requires Run(states, steps) && i < |states|
    ensures states[i].started ==> states[i].claim
    ensures states[i].start.Idle? && !states[i].started && states[i].pending == {} ==> !states[i].claim
  {
    RunKeeps(states, steps, i);
    NothingIsEmpty(states[i].pending);
  }

  /** The step that lets go of the claim leaves no cleanup pending, and no agent started. */
  lemma ClaimIsReleasedLast(states: seq<State>, steps: seq<Step>, i: nat)
    requires Run(states, steps) && i < |steps|
    requires states[i].claim && !states[i + 1].claim
    ensures states[i + 1].pending == {} && !states[i + 1].started
  {
    RunKeeps(states, steps, i);
    NothingIsEmpty(states[i + 1].pending);
    StepFollows(states[i], steps[i]);
  }

  // ---- cleanup phases -----------------------------------------------------------------

  /** Within one lifetime each phase succeeds at most once. */
  lemma PhasesSucceedOnce(states: seq<State>, steps: seq<Step>, i: nat)
    requires Run(states, steps) && i < |states|
    ensures states[i].past.runtimeStops <= 1 && states[i].past.disposals <= 1
    ensures states[i].past.runtimeStops == 1 ==> RUNTIME !in states[i].pending
    ensures states[i].past.disposals == 1 ==> ADAPTER !in states[i].pending
  {
    RunKeeps(states, steps, i);
  }

  /** The adapter is told its host work has settled exactly when RUNTIME is not pending. */
  lemma SettledMeansRuntimeDone(states: seq<State>, steps: seq<Step>, i: nat)
    requires Run(states, steps) && i < |states|
    ensures states[i].cleaner.DisposingAdapter? ==> (states[i].cleaner.settled <==> RUNTIME !in states[i].pending)
    ensures states[i].start.Unwinding? ==> (states[i].start.settled <==> RUNTIME !in states[i].pending)
  {
    RunKeeps(states, steps, i);
  }

  /** The lock is held throughout, up to the step that ends the attempt without being cancelled. */
  ghost predicate Attempt(states: seq<State>, steps: seq<Step>, i: nat, j: nat)
    requires |states| == |steps| + 1
  {
    && i < j < |states| && states[j].cleaner.NoOne?
    && (forall k :: i <= k < j ==> !states[k].cleaner.NoOne?)
    && steps[j - 1] != RuntimeStopReturns(StopCancelled) && steps[j - 1] != DisposalReturns(DisposalCancelled)
  }

  /** While the lock is held for a cleanup the adapter phase is struck off only at its end. */
  lemma AdapterStaysPending(s: State, a: Step)
    requires Inv(s) && Enabled(s, a) && !s.cleaner.NoOne? && ADAPTER in s.pending
    ensures s.cleaner.StoppingRuntime? && a != RuntimeStopReturns(StopCancelled) ==> !Apply(s, a).cleaner.NoOne?
    ensures !Apply(s, a).cleaner.NoOne? ==> ADAPTER in Apply(s, a).pending
    ensures a == RuntimeStopReturns(StopFailed) ==>
              Apply(s, a).cleaner == DisposingAdapter(s.cleaner.caller, false, true) && Apply(s, a).pending == s.pending
  {
  }

  lemma {:induction false} AttemptKeepsAdapter(states: seq<State>, steps: seq<Step>, i: nat, j: nat, k: nat)
    requires Run(states, steps) && Attempt(states, steps, i, j) && ADAPTER in states[i].pending && i <= k < j
    ensures ADAPTER in states[k].pending
    decreases k
  {
    if i < k {
      AttemptKeepsAdapter(states, steps, i, j, k - 1);
      RunKeeps(states, steps, k - 1);
      AdapterStaysPending(states[k - 1], steps[k - 1]);
    }
  }

  /**
    A cleanup that begins with the adapter phase pending, and is not cancelled, reaches the
    adapter's disposal before it ends, whether the runtime stop returned, raised or was
    skipped; and one that raised leaves the work unsettled.
    */
  lemma AdapterIsAttemptedRegardless(states: seq<State>, steps: seq<Step>, i: nat, j: nat)
    requires Run(states, steps) && Attempt(states, steps, i, j) && ADAPTER in states[i].pending
    ensures exists k :: i <= k < j && states[k].cleaner.DisposingAdapter?
    ensures forall k :: i <= k < j && steps[k] == RuntimeStopReturns(StopFailed) ==>
              states[k + 1].cleaner == DisposingAdapter(states[k].cleaner.caller, false, true)
  {
    AttemptKeepsAdapter(states, steps, i, j, j - 1);
    RunKeeps(states, steps, j - 1);
    AdapterStaysPending(states[j - 1], steps[j - 1]);
    assert states[j - 1].cleaner.DisposingAdapter?;
    forall k | i <= k < j && steps[k] == RuntimeStopReturns(StopFailed)
      ensures states[k + 1].cleaner == DisposingAdapter(states[k].cleaner.caller, false, true)
    {
      AttemptKeepsAdapter(states, steps, i, j, k);
      RunKeeps(states, steps, k);
      AdapterStaysPending(states[k], steps[k]);
    }
  }

  /** A `stop` that finishes leaves no phase pending, no agent started and no claim held. */
  lemma FinishedStopLeavesNothing(states: seq<State>, steps: seq<Step>, i: nat)
    requires Run(states, steps) && i < |states| && states[i].report.StopFinished?
    ensures states[i].pending == {} && !states[i].started && !states[i].claim
  {
    RunKeeps(states, steps, i);
    NothingIsEmpty(states[i].pending);
  }

  /**
    After a non-graceful runtime stop, no later attempt of the same stop that completes the
    cleanup reports a graceful stop, however often it was retried.
    */
  lemma UngracefulStopIsReported(states: seq<State>, steps: seq<Step>, i: nat, j: nat)
    requires Run(states, steps) && i < j < |states|
    requires steps[i] == RuntimeStopReturns(Stopped(false)) && SameLifetime(states, steps, i + 1, j)
    ensures !states[j].stopGraceful && states[j].report != StopFinished(true)
  {
    RunKeeps(states, steps, i);
    RunKeeps(states, steps, j);
    RuntimeStoppedFollows(states[i], false);
    LifetimeRetains(states, steps, i + 1, j);
    RetainedRemembers(states, i + 1, j);
  }

  // ---- a stop during start ------------------------------------------------------------

  /** A start during which some `stop` latched never returns with the agent running. */
  lemma LatchedStartNeverRuns(states: seq<State>, steps: seq<Step>, k: nat, j: nat)
    requires Path(states, steps) && Inv(states[0]) && k <= j < |states|
    requires states[k].report.StopLatched? && SameLifetime(states, steps, k, j)
    requires states[j].report.StartReturned?
    ensures !states[j].started
  {
    PathKeeps(states, steps, k);
    PathKeeps(states, steps, j);
    LifetimeRetains(states, steps, k, j);
    RetainedRemembers(states, k, j);
  }

  /**
    A `stop` that finds the lock free and unqueued while a start is booting or unwinding,
    or is granted it then, has its way: that start never returns with the agent running.
    */
  lemma ServedStopWins(states: seq<State>, steps: seq<Step>, k: nat, j: nat)
    requires Path(states, steps) && Inv(states[0]) && k < j < |states| && Booting(states[k])
    requires (steps[k].StopCalled? && states[k].queue == []) || steps[k].LockGranted?
    requires SameLifetime(states, steps, k + 1, j) && states[j].report.StartReturned?
    ensures !states[j].started
  {
    PathKeeps(states, steps, k);
    assert steps[k].LockGranted? ==> states[k].queue[0] in states[k].queue;
    LatchedStartNeverRuns(states, steps, k + 1, j);
  }

  /** The agent is down and a `start` would be accepted, and no request is left over. */
  predicate Startable(s: State) {
    s.start.Idle? && !s.started && Nothing(s.pending) && !s.stopRequested
  }

  /** What may follow a state from an accepted `start` up to the next one. */
  ghost predicate Leg(s: State, states: seq<State>, steps: seq<Step>) {
    && Path(states, steps) && states[0] == s && steps != []
    && steps[0].StartCalled? && !states[1].report.Refused? && SameLifetime(states, steps, 1, |steps|)
  }

  lemma {:induction false} LegStaysUncontended(s: State, states: seq<State>, steps: seq<Step>, i: nat)
    requires Inv(s) && Startable(s) && s.queue == [] && Leg(s, states, steps) && i < |states|
    ensures Inv(states[i]) && Uncontended(states[i]) && Targeted(states[i])
  {
    if i > 0 {
      LegStaysUncontended(s, states, steps, i - 1);
      StepKeeps(states[i - 1], steps[i - 1]);
      StepUncontended(states[i - 1], steps[i - 1]);
      StepFollows(states[i - 1], steps[i - 1]);
    }
  }

  lemma StartIsAccounted(s: State, a: Step)
    requires Inv(s) && Startable(s) && Enabled(s, a) && a.StartCalled?
    ensures Accounted(Apply(s, a))
  {
  }

  lemma {:induction false} LegStaysAccounted(s: State, states: seq<State>, steps: seq<Step>, i: nat)
    requires Inv(s) && Startable(s) && Leg(s, states, steps) && 1 <= i < |states|
    ensures Inv(states[i]) && Accounted(states[i])
  {
    PathKeeps(states, steps, i);
    PathKeeps(states, steps, i - 1);
    if i == 1 {
      StartIsAccounted(s, steps[0]);
    } else {
      LegStaysAccounted(s, states, steps, i - 1);
      StepRetains(states, steps, i - 1);
    }
  }

  /** A `stop` arrives while the start is in flight, and yet it returns with the agent running. */
  ghost predicate Loses(states: seq<State>, steps: seq<Step>, k: nat)
    requires |states| == |steps| + 1
  {
    && k < |steps| && steps[k].StopCalled? && Starting(states[k])
    && states[|steps|].report.StartReturned? && states[|steps|].started
  }

  /** A start that has come to its own `stop` never returns with the agent running. */
  lemma OwnStopWins(s: State, states: seq<State>, steps: seq<Step>, k: nat)
    requires Inv(s) && Startable(s) && Leg(s, states, steps)
    requires 0 < k < |states| && states[k].start.Stopping? && states[|steps|].report.StartReturned?
    ensures !states[|steps|].started
  {
    LegStaysAccounted(s, states, steps, k);
    PathKeeps(states, steps, |steps|);
    LifetimeRetains(states, steps, k, |steps|);
    RetainedRemembers(states, k, |steps|);
  }

  /**
    A `stop` that arrives while a start is in flight keeps that start from returning with
    the agent running, if the start was made while nobody waited for the stop lock.
    */
  lemma StopDuringStartWins(s: State, states: seq<State>, steps: seq<Step>, k: nat)
    requires Inv(s) && Startable(s) && s.queue == [] && Leg(s, states, steps)
    ensures !Loses(states, steps, k)
  {
    if Loses(states, steps, k) {
      LegStaysUncontended(s, states, steps, k);
      if Booting(states[k]) {
        ServedStopWins(states, steps, k, |steps|);
      } else {
        OwnStopWins(s, states, steps, k);
      }
    }
  }

  // ---- the condition a host can check before it calls `start` -------------------------

  const BOTH: set<CleanupPhase> := {ADAPTER, RUNTIME}

  const BOOT: seq<Step> := [StartCalled(false, true, false)] + ([InitializeReturns] + [AdapterReturns])

  /** A start at the last of its awaits, every step of it having succeeded. */
  function Booted(s: State): State {
    Entered(s, false).(claim := true, pending := BOTH, start := StartingRuntime)
  }

  lemma BootStates(s: State) returns (a: State, b: State)
    requires s.start.Idle? && !s.started && Nothing(s.pending)
    ensures !a.report.Refused?
    ensures Path([s, a, b, Booted(s)], BOOT)
  {
    a := Entered(s, false).(claim := true);
    b := a.(pending := {ADAPTER}, start := StartingAdapter);
    assert {} + {ADAPTER} == {ADAPTER} && {ADAPTER} + {RUNTIME} == BOTH;
  }

  lemma Extend(states: seq<State>, steps: seq<Step>, a: Step)
    requires Path(states, steps) && Enabled(states[|steps|], a)
    ensures Path(states + [Apply(states[|steps|], a)], steps + [a])
  {
    var longer, more := states + [Apply(states[|steps|], a)], steps + [a];
    forall i | 0 <= i < |more| ensures Enabled(longer[i], more[i]) && longer[i + 1] == Apply(longer[i], more[i]) {
      assert i < |steps| ==> Enabled(states[i], steps[i]);
    }
  }

  /** A start is called while others wait, and one more `stop` arrives before it is up. */
  lemma StopArrivesLate(s: State) returns (states: seq<State>, steps: seq<Step>)
    requires Inv(s) && Startable(s) && s.queue != []
    ensures Leg(s, states, steps) && |steps| == 4 && steps[3].StopCalled? && Starting(states[3])
    ensures states[4] == Booted(s).(queue := s.queue + [Host])
  {
    var a, b := BootStates(s);
    states, steps := [s, a, b, Booted(s)], BOOT;
    Extend(states, steps, StopCalled);
    states, steps := states + [Apply(Booted(s), StopCalled)], steps + [StopCalled];
  }

  lemma ExtendLeg(s: State, states: seq<State>, steps: seq<Step>, a: Step)
    requires Leg(s, states, steps) && Enabled(states[|steps|], a) && !a.StartCalled?
    ensures Leg(s, states + [Apply(states[|steps|], a)], steps + [a])
  {
    Extend(states, steps, a);
  }

  /** A `stop` that arrives behind a waiter lets the start return with the agent running. */
  lemma LateStopLoses(s: State) returns (states: seq<State>, steps: seq<Step>)
    requires Inv(s) && Startable(s) && s.queue != []
    ensures Leg(s, states, steps) && Loses(states, steps, 3)
  {
    states, steps := StopArrivesLate(s);
    var up := Apply(states[4], RuntimeReturns);
    ExtendLeg(s, states, steps, RuntimeReturns);
    states, steps := states + [up], steps + [RuntimeReturns];
  }

  /** The booting start once the first waiter has latched a request and left `rest` waiting. */
  function Latched(s: State, rest: seq<Caller>): State {
    Booted(s).(queue := rest, stopRequested := true, past := Past(true, 0, 0), report := StopLatched)
  }

  lemma WaiterLatches(s: State, rest: seq<Caller>)
    requires s.cleaner.NoOne? && !s.started
    ensures var d := Booted(s).(queue := [Host] + rest);
            Enabled(d, LockGranted) && Apply(d, LockGranted) == Latched(s, rest)
  {
    assert ([Host] + rest)[1..] == rest;
  }

  /** The start's own `stop` joins a queue that is not empty, and is cancelled in it. */
  lemma OwnStopIsCancelled(s: State, rest: seq<Caller>)
    requires s.cleaner.NoOne? && rest != []
    ensures var e := Latched(s, rest);
            var f := Apply(e, RuntimeReturns);
            && Enabled(e, RuntimeReturns) && Enabled(f, WaitAbandoned(|rest|))
            && Apply(f, WaitAbandoned(|rest|)).stopRequested && Apply(f, WaitAbandoned(|rest|)).start.Idle?
  {
    assert Apply(Latched(s, rest), RuntimeReturns).queue == rest + [Starter];
  }

  lemma HostWaitsFirst(s: State)
    requires Inv(s) && Startable(s) && s.queue != []
    ensures s.queue == [Host] + s.queue[1..]
  {
    assert !Queued(s);
    assert s.queue[0] in s.queue;
    assert s.queue[0] != Starter;
    match s.queue[0] case Host => case Starter =>
  }

  /** One waiter latches, the start's own `stop` queues behind the next, and is cancelled there. */
  lemma LateStopLeaks(s: State) returns (states: seq<State>, steps: seq<Step>)
    requires Inv(s) && Startable(s) && s.queue != []
    ensures Leg(s, states, steps) && !Targeted(states[|steps|])
  {
    states, steps := StopArrivesLate(s);
    var rest := s.queue[1..] + [Host];
    HostWaitsFirst(s);
    assert s.queue + [Host] == [Host] + rest;
    WaiterLatches(s, rest);
    OwnStopIsCancelled(s, rest);
    ExtendLeg(s, states, steps, LockGranted);
    states, steps := states + [Latched(s, rest)], steps + [LockGranted];
    var queued := Apply(Latched(s, rest), RuntimeReturns);
    ExtendLeg(s, states, steps, RuntimeReturns);
    states, steps := states + [queued], steps + [RuntimeReturns];
    var cancelled := WaitAbandoned(|rest|);
    ExtendLeg(s, states, steps, cancelled);
    states, steps := states + [Apply(queued, cancelled)], steps + [cancelled];
  }

  /**
    Some `stop` that arrives during the next start can fail to keep it from returning with
    the agent running exactly when somebody waits for the stop lock as `start` is called.
    */
  lemma StopsWinExactlyWhenUnqueued(s: State)
    requires Inv(s) && Startable(s)
    ensures (forall states, steps, k :: Leg(s, states, steps) ==> !Loses(states, steps, k)) <==> s.queue == []
  {
    if s.queue == [] {
      forall states, steps, k: nat | Leg(s, states, steps) ensures !Loses(states, steps, k) {
        StopDuringStartWins(s, states, steps, k);
      }
    } else {
      var states, steps := LateStopLoses(s);
    }
  }

  /** And a request can outlive the next start under exactly the same condition. */
  lemma RequestsStayTargetedExactlyWhenUnqueued(s: State)
    requires Inv(s) && Startable(s)
    ensures (forall states, steps, i :: Leg(s, states, steps) && 0 <= i < |states| ==> Targeted(states[i])) <==> s.queue == []
  {
    if s.queue == [] {
      forall states, steps, i | Leg(s, states, steps) && 0 <= i < |states| ensures Targeted(states[i]) {
        LegStaysUncontended(s, states, steps, i);
      }
    } else {
      var states, steps := LateStopLeaks(s);
    }
  }

  /** Every accepted start was called while nobody waited for the stop lock. */
  ghost predicate StartsUnqueued(states: seq<State>, steps: seq<Step>)
    requires |states| == |steps| + 1
  {
    forall k :: 0 <= k < |steps| ==> UnqueuedStart(states[k], steps[k])
  }

  /** Over a whole run of such starts no request outlives its start. */
  lemma {:induction false} UnqueuedStartsNeverLeak(states: seq<State>, steps: seq<Step>, i: nat)
    requires Run(states, steps) && StartsUnqueued(states, steps) && i < |states|
    ensures Targeted(states[i]) && Uncontended(states[i])
  {
    if i > 0 {
      UnqueuedStartsNeverLeak(states, steps, i - 1);
      RunKeeps(states, steps, i - 1);
      StepUncontended(states[i - 1], steps[i - 1]);
      StepFollows(states[i - 1], steps[i - 1]);
    }
  }

  /** The stretch of a run from an accepted start is a leg. */
  lemma LegOfRun(states: seq<State>, steps: seq<Step>, b: nat, j: nat)
    requires Path(states, steps) && b < j < |states|
    requires steps[b].StartCalled? && !states[b + 1].report.Refused? && SameLifetime(states, steps, b + 1, j)
    ensures Leg(states[b], states[b..j + 1], steps[b..j])
  {
    var leg, moves := states[b..j + 1], steps[b..j];
    forall i | 0 <= i < |moves| ensures Enabled(leg[i], moves[i]) && leg[i + 1] == Apply(leg[i], moves[i]) {
      assert leg[i] == states[b + i] && moves[i] == steps[b + i] && leg[i + 1] == states[b + i + 1];
    }
    forall i | 1 <= i < |moves| && moves[i].StartCalled? ensures leg[i + 1].report.Refused? {
      assert moves[i] == steps[b + i] && leg[i + 1] == states[b + i + 1];
    }
  }

  /** And every `stop` that arrives during one of them wins: start `b`, stop `k`, return `j`. */
  lemma UnqueuedStartsObeyStops(states: seq<State>, steps: seq<Step>, b: nat, k: nat, j: nat)
    requires Run(states, steps) && StartsUnqueued(states, steps) && b < k < j < |states|
    requires steps[b].StartCalled? && !states[b + 1].report.Refused? && SameLifetime(states, steps, b + 1, j)
    requires steps[k].StopCalled? && Starting(states[k]) && states[j].report.StartReturned?
    ensures !states[j].started
  {
    UnqueuedStartsNeverLeak(states, steps, b);
    RunKeeps(states, steps, b);
    assert UnqueuedStart(states[b], steps[b]);
    LegOfRun(states, steps, b, j);
    StopDuringStartWins(states[b], states[b..j + 1], steps[b..j], k - b);
  }

  // ---- does a latched request outlive its start? --------------------------------------

  /** The promise holds throughout a run exactly when no step of the run leaks. */
  lemma {:induction false} RequestsStayTargeted(states: seq<State>, steps: seq<Step>)
    requires Run(states, steps)
    ensures (forall i :: 0 <= i < |states| ==> Targeted(states[i])) <==>
            (forall i :: 0 <= i < |steps| ==> !Leaks(states[i], steps[i]))
  {
    if forall i :: 0 <= i < |steps| ==> !Leaks(states[i], steps[i]) {
      forall i | 0 <= i < |states| ensures Targeted(states[i]) {
        TargetedUpTo(states, steps, i);
      }
    }
    if forall i :: 0 <= i < |states| ==> Targeted(states[i]) {
      forall i | 0 <= i < |steps| ensures !Leaks(states[i], steps[i]) {
        RunKeeps(states, steps, i);
        StepFollows(states[i], steps[i]);
        assert Targeted(states[i + 1]);
      }
    }
  }

  lemma {:induction false} TargetedUpTo(states: seq<State>, steps: seq<Step>, i: nat)
    requires Run(states, steps) && i < |states|
    requires forall k :: 0 <= k < |steps| ==> !Leaks(states[k], steps[k])
    ensures Targeted(states[i])
  {
    if i > 0 {
      TargetedUpTo(states, steps, i - 1);
      RunKeeps(states, steps, i - 1);
      assert !Leaks(states[i - 1], steps[i - 1]);
      StepFollows(states[i - 1], steps[i - 1]);
    }
  }

  /** It is enough that nobody is queued for the stop lock while a start awaits its runtime. */
  lemma {:induction false} UncontendedStartsNeverLeak(states: seq<State>, steps: seq<Step>, i: nat)
    requires Run(states, steps) && i < |states|
    requires forall k :: 0 <= k < |states| && states[k].start.StartingRuntime? ==> states[k].queue == []
    ensures Targeted(states[i]) && !Queued(states[i])
  {
    if i > 0 {
      var s, a := states[i - 1], steps[i - 1];
      UncontendedStartsNeverLeak(states, steps, i - 1);
      RunKeeps(states, steps, i - 1);
      assert Leaks(s, a) ==> Queued(s);
      StepFollows(s, a);
    }
  }

  // ---- a run that leaks ---------------------------------------------------------------

  ghost predicate Reaches(first: State, steps: seq<Step>, last: State) {
    Traces.Leads(Enabled, Apply, first, steps, last)
  }

  lemma One(s: State, a: Step, n: State)
    requires Enabled(s, a) && Apply(s, a) == n
    ensures Reaches(s, [a], n)
  {
    assert Traces.Leads(Enabled, Apply, n, [a][1..], n);
  }

  lemma Then(first: State, a: seq<Step>, mid: State, b: seq<Step>, last: State)
    requires Reaches(first, a, mid) && Reaches(mid, b, last)
    ensures Reaches(first, a + b, last)
  {
    Traces.Append(Enabled, Apply, first, a, mid, b, last);
  }

  const TEARDOWN: seq<Step> := [RuntimeStopReturns(Stopped(true))] + [DisposalReturns(Disposed)]

  /** An idle agent starts, up to the last await of its start. */
  lemma Boots(s: State)
    requires s.start.Idle? && !s.started && Nothing(s.pending)
    ensures Reaches(s, BOOT, Booted(s))
  {
    var a, b := BootStates(s);
    var states := [s, a, b, Booted(s)];
    assert states[0] == s && states[1] == a && states[2] == b && states[3] == Booted(s);
    assert BOOT[0] == StartCalled(false, true, false) && BOOT[1] == InitializeReturns && BOOT[2] == AdapterReturns;
    One(s, BOOT[0], a);
    One(a, InitializeReturns, b);
    One(b, AdapterReturns, Booted(s));
    Then(a, [InitializeReturns], b, [AdapterReturns], Booted(s));
    Then(s, [BOOT[0]], a, [InitializeReturns] + [AdapterReturns], Booted(s));
  }

  function TornDown(s: State): State {
    s.(cleaner := NoOne, pending := {}, claim := false, past := Disposal1(RuntimeStop1(s.past)))
  }

  /** Both phases of a cleanup succeed at once, gracefully. */
  lemma TearsDown(s: State, caller: Caller)
    requires s.cleaner == StoppingRuntime(caller) && s.pending == BOTH && s.stopGraceful
    ensures Reaches(s, TEARDOWN, EndStop(TornDown(s), caller, StopFinished(true)))
  {
    var a := s.(cleaner := DisposingAdapter(caller, true, false), pending := {ADAPTER},
                past := RuntimeStop1(s.past), report := Ongoing);
    assert BOTH - {RUNTIME} == {ADAPTER} && {ADAPTER} - {ADAPTER} == {};
    One(s, RuntimeStopReturns(Stopped(true)), a);
    One(a, DisposalReturns(Disposed), EndStop(TornDown(s), caller, StopFinished(true)));
    Then(s, [RuntimeStopReturns(Stopped(true))], a, [DisposalReturns(Disposed)],
         EndStop(TornDown(s), caller, StopFinished(true)));
  }

  /** Three hosts stop a running agent; the first tears it down, two are left queued. */
  const DOWN: State := Init.(queue := [Host, Host], report := StopFinished(true), past := Past(false, 1, 1))

  const STOPS: seq<Step> := [StopCalled] + ([StopCalled] + [StopCalled])

  lemma ThreeStops() returns (steps: seq<Step>)
    ensures Reaches(Init, steps, DOWN)
  {
    var booted := Booted(Init);
    var up := Init.(started := true, claim := true, pending := BOTH, report := StartReturned);
    var one := up.(started := false, cleaner := StoppingRuntime(Host), report := Ongoing);
    var three := one.(queue := [Host, Host]);
    Boots(Init);
    One(booted, RuntimeReturns, up);
    Then(Init, BOOT, booted, [RuntimeReturns], up);
    One(up, StopCalled, one);
    One(one, StopCalled, one.(queue := [Host]));
    One(one.(queue := [Host]), StopCalled, three);
    Then(one, [StopCalled], one.(queue := [Host]), [StopCalled], three);
    Then(up, [StopCalled], one, [StopCalled] + [StopCalled], three);
    TearsDown(three, Host);
    Then(up, STOPS, three, TEARDOWN, DOWN);
    steps := BOOT + [RuntimeReturns] + (STOPS + TEARDOWN);
    Then(Init, BOOT + [RuntimeReturns], up, STOPS + TEARDOWN, DOWN);
  }

  /** An idle agent on which a request is pending, although no start is in flight. */
  const LEAKED: State := Init.(stopRequested := true, report := StartReturned, past := Past(true, 1, 1))

  /**
    A new start begins before the queued stops run: the first of them latches, the second
    is granted the lock only once the agent is up and takes it down, and the start's own
    stop, queued behind it, then latches a request for a start that is about to return.
    */
  lemma QueuedStopLeaks() returns (steps: seq<Step>)
    ensures Reaches(DOWN, steps, LEAKED)
  {
    var booting := Booted(DOWN);
    var latched := booting.(queue := [Host], stopRequested := true, past := Past(true, 0, 0), report := StopLatched);
    var queued := latched.(started := true, start := Stopping, queue := [Host, Starter], report := Ongoing);
    var second := queued.(started := false, stopRequested := false, queue := [Starter],
                          cleaner := StoppingRuntime(Host));
    var down := EndStop(TornDown(second), Host, StopFinished(true));
    Boots(DOWN);
    assert [Host, Host][1..] == [Host] && [Host, Starter][1..] == [Starter] && [Starter][1..] == [];
    One(booting, LockGranted, latched);
    One(latched, RuntimeReturns, queued);
    One(queued, LockGranted, second);
    TearsDown(second, Host);
    One(down, LockGranted, LEAKED);
    Then(second, TEARDOWN, down, [LockGranted], LEAKED);
    Then(queued, [LockGranted], second, TEARDOWN + [LockGranted], LEAKED);
    Then(latched, [RuntimeReturns], queued, [LockGranted] + (TEARDOWN + [LockGranted]), LEAKED);
    steps := [RuntimeReturns] + ([LockGranted] + (TEARDOWN + [LockGranted]));
    Then(booting, [LockGranted], latched, steps, LEAKED);
    steps := [LockGranted] + steps;
    Then(DOWN, BOOT, booting, steps, LEAKED);
    steps := BOOT + steps;
  }

  /** The next start comes up, stops itself, and returns with no agent running. */
  lemma NextStartIsPoisoned() returns (steps: seq<Step>, last: State)
    ensures Reaches(LEAKED, steps, last) && last.report.StartReturned? && !last.started
    ensures forall i :: 0 <= i < |steps| ==> !steps[i].StopCalled?
  {
    var booting := Booted(LEAKED);
    var stopping := booting.(start := Stopping, stopRequested := false, cleaner := StoppingRuntime(Starter));
    last := EndStop(TornDown(stopping), Starter, StopFinished(true));
    Boots(LEAKED);
    One(booting, RuntimeReturns, stopping);
    TearsDown(stopping, Starter);
    Then(booting, [RuntimeReturns], stopping, TEARDOWN, last);
    Then(LEAKED, BOOT, booting, [RuntimeReturns] + TEARDOWN, last);
    steps := BOOT + ([RuntimeReturns] + TEARDOWN);
  }

  /** So a request can outlive its start, and stop a later start nobody asked to stop. */
  lemma RequestsCanLeak() returns (states: seq<State>, steps: seq<Step>)
    ensures Run(states, steps) && states[|steps|] == LEAKED && !Targeted(states[|steps|])
  {
    var toDown := ThreeStops();
    var toLeak := QueuedStopLeaks();
    steps := toDown + toLeak;
    Then(Init, toDown, DOWN, toLeak, LEAKED);
    states := Traces.LeadsIsPath(Enabled, Apply, Init, steps, LEAKED);
  }
}
