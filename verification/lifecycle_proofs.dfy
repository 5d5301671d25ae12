/** What every run of `start` and `stop` keeps, and the one promise that can fail. */
module LifecycleProofs {
  import opened Lifecycle

  ghost predicate Queued(s: State) {
    Starter in s.queue
  }

  ghost predicate CleansFor(s: State, caller: Caller) {
    !s.cleaner.NoOne? && s.cleaner.caller == caller
  }

  /** `start` is suspended at one of its own awaits, not in its nested `stop`. */
  predicate Booting(s: State) {
    !s.start.Idle? && !s.start.Stopping?
  }

  /** What the await of `start` says about the rest of the agent. */
  ghost predicate StartConsistent(s: State) {
    && (s.start.Stopping? <==> Queued(s) != CleansFor(s, Starter))
    && !(Queued(s) && CleansFor(s, Starter))
    && (s.start.Unwinding? ==> ADAPTER in s.pending && (s.start.settled <==> RUNTIME !in s.pending))
    && (s.start.Initializing? ==> s.claim && RUNTIME !in s.pending)
    && (s.start.StartingAdapter? ==> s.claim && ADAPTER in s.pending && RUNTIME !in s.pending)
    && (s.start.StartingRuntime? ==> s.claim && ADAPTER in s.pending && RUNTIME in s.pending)
    && (Booting(s) ==> !s.started && s.cleaner.NoOne? && s.past.runtimeStops == 0 && s.past.disposals == 0)
  }

  ghost predicate CleanerConsistent(s: State) {
    && (!s.cleaner.NoOne? ==> !s.started && !s.stopRequested)
    && (s.cleaner.StoppingRuntime? ==> RUNTIME in s.pending)
    && (s.cleaner.DisposingAdapter? ==>
          ADAPTER in s.pending && (s.cleaner.settled <==> RUNTIME !in s.pending) &&
          (s.cleaner.settled <==> !s.cleaner.failed))
  }

  /** `start` queues for the stop lock at most once. */
  ghost predicate Once(queue: seq<Caller>) {
    forall i, j :: 0 <= i < j < |queue| ==> queue[i].Host? || queue[j].Host?
  }

  ghost predicate QueuedOnce(s: State) {
    Once(s.queue)
  }

  ghost predicate ClaimConsistent(s: State) {
    && (s.started ==> s.claim && RUNTIME in s.pending && ADAPTER in s.pending)
    && (!s.started && Nothing(s.pending) && !s.start.Initializing? ==> !s.claim)
  }

  ghost predicate HistoryConsistent(s: State) {
    && s.past.runtimeStops + (if RUNTIME in s.pending then 1 else 0) <= 1
    && s.past.disposals + (if ADAPTER in s.pending then 1 else 0) <= 1
    && (s.past.latched && Booting(s) && !s.start.Unwinding? ==> s.stopRequested)
    && (s.report.StartReturned? && s.past.latched ==> !s.started)
    && (s.report.StopLatched? ==> s.past.latched)
    && (s.report.StopFinished? ==> s.report.graceful == s.stopGraceful)
    && (s.report.StopFinished? || s.report.StopIdle? ==> Nothing(s.pending) && !s.started && !s.claim)
  }

  ghost predicate Inv(s: State) {
    StartConsistent(s) && CleanerConsistent(s) && QueuedOnce(s) && ClaimConsistent(s) && HistoryConsistent(s)
  }

  lemma BeginStartKeeps(s: State, owns: bool, claimed: bool, runtimeHeld: bool)
    requires Inv(s) && s.start.Idle?
    ensures Inv(BeginStart(s, owns, claimed, runtimeHeld))
  {
  }

  /** A start step succeeds. */
  lemma AdvanceStartKeeps(s: State)
    requires Inv(s)
    ensures s.start.Initializing? ==> Inv(Initialized(s))
    ensures s.start.StartingAdapter? ==> Inv(AdapterStarted(s))
    ensures s.start.StartingRuntime? ==> Inv(RuntimeStarted(s))
  {
  }

  /** A start step fails, or the unwind it led to ends. */
  lemma UnwindKeeps(s: State, runtimeHeld: bool, r: Release)
    requires Inv(s)
    ensures s.start.Initializing? || s.start.StartingAdapter? || s.start.StartingRuntime? ==>
              Inv(BeginUnwind(s, runtimeHeld))
    ensures s.start.Unwinding? ==> Inv(ReleaseEnds(s, r))
  {
  }

  /** `stop` runs with the lock, for a host or for `start` honouring a request. */
  lemma EnterStopKeeps(s: State, caller: Caller)
    requires Inv(s) && s.cleaner.NoOne?
    requires caller.Host?
    ensures Inv(EnterStop(s, caller))
  {
  }

  lemma LockGrantedKeeps(s: State)
    requires Inv(s) && Enabled(s, LockGranted)
    ensures Inv(Apply(s, LockGranted))
  {
    var rest := s.queue[1..];
    assert s.queue == [s.queue[0]] + rest;
    if s.queue[0].Host? {
      assert Queued(s.(queue := rest)) == Queued(s);
      EnterStopKeeps(s.(queue := rest), Host);
    } else {
      StarterGrantedKeeps(s);
    }
  }

  lemma StarterGrantedKeeps(s: State)
    requires Inv(s) && Enabled(s, LockGranted) && s.queue[0].Starter?
    ensures Inv(Apply(s, LockGranted))
  {
    assert s.start.Stopping?;
    assert Starter !in s.queue[1..];
    assert s.started ==> RUNTIME in s.pending;
  }

  lemma StopCalledKeeps(s: State)
    requires Inv(s)
    ensures Inv(CallStop(s, Host))
  {
    if s.cleaner.NoOne? && s.queue == [] {
      EnterStopKeeps(s, Host);
    }
  }

  lemma WithoutWaiter(queue: seq<Caller>, i: nat)
    requires Once(queue) && i < |queue|
    ensures var rest := queue[..i] + queue[i + 1..];
            Once(rest) && (Starter in rest <==> queue[i].Host? && Starter in queue)
  {
    var rest := queue[..i] + queue[i + 1..];
    assert forall k :: 0 <= k < |rest| ==> rest[k] == if k < i then queue[k] else queue[k + 1];
    if queue[i].Host? && Starter in queue {
      var k :| 0 <= k < |queue| && queue[k] == Starter;
      assert rest[if k < i then k else k - 1] == Starter;
    }
  }

  lemma LeaveQueueKeeps(s: State, rest: seq<Caller>, caller: Caller)
    requires Inv(s) && caller in s.queue && Once(rest)
    requires Starter in rest <==> caller.Host? && Queued(s)
    ensures Inv(EndStop(s.(queue := rest), caller, StopRaised))
  {
  }

  lemma WaitAbandonedKeeps(s: State, i: nat)
    requires Inv(s) && Enabled(s, WaitAbandoned(i))
    ensures Inv(Apply(s, WaitAbandoned(i)))
  {
    WithoutWaiter(s.queue, i);
    LeaveQueueKeeps(s, s.queue[..i] + s.queue[i + 1..], s.queue[i]);
  }

  /** An attempt that raises or is cancelled gives up the lock and nothing else. */
  lemma AbortKeeps(s: State)
    requires Inv(s) && !s.cleaner.NoOne?
    ensures Inv(EndStop(s.(cleaner := NoOne), s.cleaner.caller, StopRaised))
  {
  }

  lemma RuntimeStoppedKeeps(s: State, graceful: bool)
    requires Inv(s) && s.cleaner.StoppingRuntime?
    ensures Inv(RuntimeStopEnds(s, s.cleaner.caller, Stopped(graceful)))
  {
  }

  lemma RuntimeStopKeeps(s: State, r: RuntimeStop)
    requires Inv(s) && s.cleaner.StoppingRuntime?
    ensures Inv(RuntimeStopEnds(s, s.cleaner.caller, r))
  {
    if r.Stopped? {
      RuntimeStoppedKeeps(s, r.graceful);
    } else {
      AbortKeeps(s);
    }
  }

  lemma DisposedKeeps(s: State)
    requires Inv(s) && s.cleaner.DisposingAdapter?
    ensures Inv(DisposalEnds(s, s.cleaner.caller, s.cleaner.failed, Disposed))
  {
  }

  lemma DisposalKeeps(s: State, r: Disposal)
    requires Inv(s) && Enabled(s, DisposalReturns(r))
    ensures Inv(DisposalEnds(s, s.cleaner.caller, s.cleaner.failed, r))
  {
    if r.Disposed? {
      DisposedKeeps(s);
    } else {
      AbortKeeps(s);
    }
  }

  lemma StepKeeps(s: State, a: Step)
    requires Inv(s) && Enabled(s, a)
    ensures Inv(Apply(s, a))
  {
    match a
    case StartCalled(owns, claimed, held) => BeginStartKeeps(s, owns, claimed, held);
    case InitializeReturns => AdvanceStartKeeps(s);
    case AdapterReturns => AdvanceStartKeeps(s);
    case RuntimeReturns => AdvanceStartKeeps(s);
    case StartStepFails(held) => UnwindKeeps(s, held, Kept);
    case ReleaseReturns(r) => UnwindKeeps(s, false, r);
    case StopCalled => StopCalledKeeps(s);
    case LockGranted => LockGrantedKeeps(s);
    case WaitAbandoned(i) => WaitAbandonedKeeps(s, i);
    case RuntimeStopReturns(r) => RuntimeStopKeeps(s, r);
    case DisposalReturns(r) => DisposalKeeps(s, r);
  }

  lemma {:induction false} PathKeeps(states: seq<State>, steps: seq<Step>, i: nat)
    requires Path(states, steps) && i < |states| && Inv(states[0])
    ensures Inv(states[i])
  {
    if i > 0 {
      PathKeeps(states, steps, i - 1);
      StepKeeps(states[i - 1], steps[i - 1]);
    }
  }

  lemma RunKeeps(states: seq<State>, steps: seq<Step>, i: nat)
    requires Run(states, steps) && i < |states|
    ensures Inv(states[i])
  {
    PathKeeps(states, steps, i);
  }

  // ---- how one step relates two states ------------------------------------------------

  /** A pending request targets a start that is in flight. */
  predicate Targeted(s: State) {
    s.stopRequested ==> Starting(s)
  }

  /**
    `start`'s own `stop` had to queue, and either gets the lock after another caller has
    already taken the agent down, or is cancelled in the queue with the request pending.
    */
  predicate Leaks(s: State, a: Step) {
    match a
    case LockGranted => s.queue != [] && s.queue[0].Starter? && !s.started
    case WaitAbandoned(i) => i < |s.queue| && s.queue[i].Starter? && s.stopRequested
    case _ => false
  }

  /**
    The claim is let go last; a request loses its target by a leak; `start` queues once up;
    while a start boots nobody comes to wait for the free lock.
    */
  ghost predicate Follows(s: State, n: State, leak: bool) {
    && (s.claim && !n.claim ==> Nothing(n.pending) && !n.started)
    && (Targeted(s) ==> (Targeted(n) <==> !leak))
    && (!Queued(s) && (s.start.StartingRuntime? ==> s.queue == []) ==> !Queued(n))
    && (s.queue == [] && Booting(n) ==> n.queue == [])
  }

  /** A request, and a start's own `stop`, come from a latch of the same lifetime. */
  predicate Accounted(s: State) {
    s.stopRequested || s.start.Stopping? ==> s.past.latched
  }

  /**
    Within a lifetime a latch and a non-graceful runtime stop are not forgotten, requests
    stay accounted for, and nothing boots that was not booting.
    */
  ghost predicate Remembers(s: State, n: State) {
    && (s.past.latched ==> n.past.latched) && (!s.stopGraceful ==> !n.stopGraceful)
    && (Accounted(s) ==> Accounted(n)) && (Booting(n) ==> Booting(s))
  }

  lemma StartFollows(s: State, runtimeHeld: bool, r: Release)
    requires Inv(s)
    ensures s.start.Initializing? ==> Follows(s, Initialized(s), false) && Remembers(s, Initialized(s))
    ensures s.start.StartingAdapter? ==> Follows(s, AdapterStarted(s), false) && Remembers(s, AdapterStarted(s))
    ensures s.start.StartingRuntime? ==> Follows(s, RuntimeStarted(s), false) && Remembers(s, RuntimeStarted(s))
    ensures s.start.Unwinding? ==> Follows(s, ReleaseEnds(s, r), false) && Remembers(s, ReleaseEnds(s, r))
    ensures Booting(s) && !s.start.Unwinding? ==>
              Follows(s, BeginUnwind(s, runtimeHeld), false) && Remembers(s, BeginUnwind(s, runtimeHeld))
  {
  }

  lemma BeginStartFollows(s: State, owns: bool, claimed: bool, runtimeHeld: bool)
    requires Inv(s) && s.start.Idle?
    ensures var n := BeginStart(s, owns, claimed, runtimeHeld);
            Follows(s, n, false) && (n.report.Refused? ==> Remembers(s, n))
  {
  }

  lemma StopFollows(s: State)
    requires Inv(s)
    ensures Follows(s, CallStop(s, Host), false) && Remembers(s, CallStop(s, Host))
  {
  }

  lemma LockGrantedFollows(s: State)
    requires Inv(s) && Enabled(s, LockGranted)
    ensures Follows(s, Apply(s, LockGranted), Leaks(s, LockGranted)) && Remembers(s, Apply(s, LockGranted))
  {
    assert s.queue[0] in s.queue;
  }

  lemma WaitAbandonedFollows(s: State, i: nat)
    requires Inv(s) && Enabled(s, WaitAbandoned(i))
    ensures var n := Apply(s, WaitAbandoned(i));
            Follows(s, n, Leaks(s, WaitAbandoned(i))) && Remembers(s, n)
  {
    assert s.queue[i] in s.queue;
  }

  lemma AbortFollows(s: State)
    requires Inv(s) && !s.cleaner.NoOne?
    ensures var n := EndStop(s.(cleaner := NoOne), s.cleaner.caller, StopRaised);
            Follows(s, n, false) && Remembers(s, n)
  {
  }

  lemma RuntimeStoppedFollows(s: State, graceful: bool)
    requires Inv(s) && s.cleaner.StoppingRuntime?
    ensures var n := RuntimeStopEnds(s, s.cleaner.caller, Stopped(graceful));
            Follows(s, n, false) && Remembers(s, n) && (!graceful ==> !n.stopGraceful)
  {
  }

  lemma DisposedFollows(s: State)
    requires Inv(s) && s.cleaner.DisposingAdapter?
    ensures var n := DisposalEnds(s, s.cleaner.caller, s.cleaner.failed, Disposed);
            Follows(s, n, false) && Remembers(s, n)
  {
  }

  /** Every step, whatever it does, lets go of the claim last and leaks only as `Leaks` says. */
  lemma StepFollows(s: State, a: Step)
    requires Inv(s) && Enabled(s, a)
    ensures Follows(s, Apply(s, a), Leaks(s, a))
    ensures (a.StartCalled? ==> Apply(s, a).report.Refused?) ==> Remembers(s, Apply(s, a))
  {
    match a
    case StartCalled(owns, claimed, held) => BeginStartFollows(s, owns, claimed, held);
    case InitializeReturns => StartFollows(s, false, Kept);
    case AdapterReturns => StartFollows(s, false, Kept);
    case RuntimeReturns => StartFollows(s, false, Kept);
    case StartStepFails(held) => StartFollows(s, held, Kept);
    case ReleaseReturns(r) => StartFollows(s, false, r);
    case StopCalled => StopFollows(s);
    case LockGranted => LockGrantedFollows(s);
    case WaitAbandoned(i) => WaitAbandonedFollows(s, i);
    case RuntimeStopReturns(r) =>
      if r.Stopped? { RuntimeStoppedFollows(s, r.graceful); } else { AbortFollows(s); }
    case DisposalReturns(r) =>
      if r.Disposed? { DisposedFollows(s); } else { AbortFollows(s); }
  }

  // ---- what a stretch of a run remembers ----------------------------------------------

  /** No start was accepted strictly between two points of a run. */
  ghost predicate SameLifetime(states: seq<State>, steps: seq<Step>, i: nat, j: nat)
    requires |states| == |steps| + 1 && i <= j < |states|
  {
    forall k :: i <= k < j && steps[k].StartCalled? ==> states[k + 1].report.Refused?
  }

  ghost predicate Retained(states: seq<State>, i: nat, j: nat)
    requires i <= j < |states|
  {
    forall k :: i <= k < j ==> Remembers(states[k], states[k + 1])
  }

  lemma StepRetains(states: seq<State>, steps: seq<Step>, k: nat)
    requires Path(states, steps) && Inv(states[0]) && k < |steps|
    requires steps[k].StartCalled? ==> states[k + 1].report.Refused?
    ensures Remembers(states[k], states[k + 1])
  {
    PathKeeps(states, steps, k);
    StepFollows(states[k], steps[k]);
  }

  /** Within a lifetime every step remembers. */
  lemma LifetimeRetains(states: seq<State>, steps: seq<Step>, i: nat, j: nat)
    requires Path(states, steps) && Inv(states[0]) && i <= j < |states| && SameLifetime(states, steps, i, j)
    ensures Retained(states, i, j)
  {
    forall k | i <= k < j ensures Remembers(states[k], states[k + 1]) {
      StepRetains(states, steps, k);
    }
  }

  lemma {:induction false} RetainedRemembers(states: seq<State>, i: nat, j: nat)
    requires i <= j < |states| && Retained(states, i, j)
    ensures Remembers(states[i], states[j])
    decreases j
  {
    if i < j {
      RetainedRemembers(states, i, j - 1);
      assert Remembers(states[j - 1], states[j - 1 + 1]);
    }
  }

  // ---- a start made while nobody waits for the stop lock ------------------------------

  /** Nobody waits for the stop lock while a start boots, and `start` never does. */
  ghost predicate Uncontended(s: State) {
    !Queued(s) && (Booting(s) ==> s.queue == [])
  }

  /** If the step is an accepted start, nobody waits for the stop lock as it is called. */
  predicate UnqueuedStart(s: State, a: Step) {
    a.StartCalled? && !Apply(s, a).report.Refused? ==> s.queue == []
  }

  lemma StepUncontended(s: State, a: Step)
    requires Inv(s) && Enabled(s, a) && Uncontended(s) && UnqueuedStart(s, a)
    ensures Uncontended(Apply(s, a)) && !Leaks(s, a)
  {
    StepFollows(s, a);
    assert a.LockGranted? ==> s.queue[0] in s.queue;
    assert a.WaitAbandoned? ==> s.queue[a.i] in s.queue;
  }
}
