/** What `start` and `stop` answer and leave behind, from the state they are called in and what their awaits do. */
module LifecycleOutcomes {
  import opened Lifecycle
  import opened LifecycleProofs
  import opened LifecycleTheorems

  // ---- how a call of `stop` begins ----------------------------------------------------

  /** How `stop` answers when it is over: to its host, or through the `start` that called it. */
  predicate Answers(n: State, start: Start, caller: Caller, answer: Report) {
    match caller
    case Host => n.start == start && n.report == answer
    case Starter => n.start.Idle? && n.report == if answer.StopRaised? then StartRaised else StartReturned
  }

  /**
    A `stop` that has the lock latches a request while a start is not up, has nothing to do
    on an agent that is down and owes nothing, and otherwise begins a cleanup: at the
    runtime's await exactly when that phase is owed.
    */
  ghost predicate Serves(s: State, n: State, caller: Caller) {
    if Starting(s) && !s.started then
      n == s.(stopRequested := true, past := s.past.(latched := true), start := n.start, report := n.report) &&
      Answers(n, s.start, caller, StopLatched)
    else if !s.started && s.pending == {} then
      n == s.(start := n.start, report := n.report) && Answers(n, s.start, caller, StopIdle)
    else
      n == s.(started := false, stopRequested := false, report := Ongoing,
              cleaner := if RUNTIME in s.pending then StoppingRuntime(caller) else DisposingAdapter(caller, true, false))
  }

  /** A host's `stop` is served at once when the lock is free and unqueued, and waits otherwise. */
  lemma StopIsServed(s: State)
    requires Inv(s)
    ensures s.cleaner.NoOne? && s.queue == [] ==> Serves(s, Apply(s, StopCalled), Host)
    ensures !s.cleaner.NoOne? || s.queue != [] ==> Apply(s, StopCalled) == s.(queue := s.queue + [Host], report := Ongoing)
  {
    NothingIsEmpty(s.pending);
  }

  /** The freed lock goes to the head of the queue, which is then served. */
  lemma WaiterIsServed(s: State)
    requires Inv(s) && Enabled(s, LockGranted)
    ensures Serves(s.(queue := s.queue[1..]), Apply(s, LockGranted), s.queue[0])
  {
    NothingIsEmpty(s.pending);
    if s.started {
      assert RUNTIME in s.pending;
    }
  }

  /** A queued `stop` that is cancelled leaves the queue and raises; nothing else changes. */
  lemma WaiterIsCancelled(s: State, i: nat)
    requires Inv(s) && i < |s.queue|
    ensures var n := Apply(s, WaitAbandoned(i));
            && n == s.(queue := s.queue[..i] + s.queue[i + 1..], start := n.start, report := n.report)
            && Answers(n, s.start, s.queue[i], StopRaised)
  {
  }

  /** In every run "nothing to stop" is answered only when nothing runs and no cleanup is owed. */
  lemma IdleMeansNothingOwed(states: seq<State>, steps: seq<Step>, i: nat)
    requires Run(states, steps) && i < |states| && states[i].report.StopIdle?
    ensures states[i].pending == {} && !states[i].started && !states[i].claim
  {
    RunKeeps(states, steps, i);
    NothingIsEmpty(states[i].pending);
  }

  // ---- how a cleanup ends -------------------------------------------------------------

  /** The attempt failed or was cancelled in one of its phases. */
  predicate Raises(m: State, r: RuntimeStop, d: Disposal) {
    !r.Stopped? || (ADAPTER in m.pending && (d.DisposalFailed? || d.DisposalCancelled?))
  }

  /** Which phases an attempt strikes off: exactly those that succeed. */
  function Struck(r: RuntimeStop, d: Disposal): set<CleanupPhase> {
    (if r.Stopped? then {RUNTIME} else {}) + (if !r.StopCancelled? && d.Disposed? then {ADAPTER} else {})
  }

  /** The lock is free again, and the claim and the answer say whether the attempt completed. */
  ghost predicate AttemptEnds(m: State, n: State, struck: set<CleanupPhase>, raised: bool, graceful: bool)
    requires !m.cleaner.NoOne?
  {
    && n.cleaner.NoOne? && !n.started && !n.stopRequested && n.queue == m.queue && n.pending == m.pending - struck
    && n.claim == (m.claim && raised) && n.stopGraceful == graceful
    && Answers(n, m.start, m.cleaner.caller, if raised then StopRaised else StopFinished(graceful))
  }

  /**
    From the runtime's await, whatever the two awaits do: a phase is struck off exactly when
    it succeeds, the attempt raises exactly when one fails or is cancelled, and only an
    attempt that does not raise lets go of the claim.
    */
  lemma CleanupOutcome(m: State, r: RuntimeStop, d: Disposal) returns (n: State, steps: seq<Step>)
    requires Inv(m) && m.cleaner.StoppingRuntime? && (r.Stopped? ==> !d.Waits?)
    ensures Reaches(m, steps, n) && forall a :: a in steps ==> a == RuntimeStopReturns(r) || a == DisposalReturns(d)
    ensures !Raises(m, r, d) ==> n.pending == {}
    ensures AttemptEnds(m, n, Struck(r, d), Raises(m, r, d), m.stopGraceful && (r.Stopped? ==> r.graceful))
  {
    var stops, disposes := RuntimeStopReturns(r), DisposalReturns(d);
    var first := Apply(m, stops);
    StepKeeps(m, stops);
    One(m, stops, first);
    AfterFirstPhase(m, r);
    n, steps := first, [stops];
    if first.cleaner.DisposingAdapter? {
      n := Apply(first, disposes);
      One(first, disposes, n);
      Then(m, [stops], first, [disposes], n);
      steps := [stops] + [disposes];
      AfterSecondPhase(first, d);
    }
    StrikeBoth(m.pending, r, d);
  }

  lemma StrikeBoth(pending: set<CleanupPhase>, r: RuntimeStop, d: Disposal)
    ensures var rest := pending - if r.Stopped? then {RUNTIME} else {};
            && (!r.StopCancelled? ==> rest - (if d.Disposed? then {ADAPTER} else {}) == pending - Struck(r, d))
            && (r.StopCancelled? || ADAPTER !in pending ==> rest == pending - Struck(r, d))
    ensures r.Stopped? && (d.Disposed? || ADAPTER !in pending) ==> pending - Struck(r, d) == {}
  {
    NothingIsEmpty(pending - Struck(r, d));
  }

  /** The runtime phase leads to the adapter's await, if that phase is owed and nobody cancelled. */
  lemma AfterFirstPhase(m: State, r: RuntimeStop)
    requires Inv(m) && m.cleaner.StoppingRuntime?
    ensures var n := Apply(m, RuntimeStopReturns(r));
            var struck: set<CleanupPhase> := if r.Stopped? then {RUNTIME} else {};
            var graceful := m.stopGraceful && (r.Stopped? ==> r.graceful);
            if !r.StopCancelled? && ADAPTER in m.pending then
              n.cleaner == DisposingAdapter(m.cleaner.caller, r.Stopped?, !r.Stopped?) && n.pending == m.pending - struck &&
              n.claim == m.claim && n.stopGraceful == graceful && n.start == m.start && n.queue == m.queue && !n.started
            else AttemptEnds(m, n, struck, !r.Stopped?, graceful)
  {
  }

  /** The adapter phase ends the attempt, which raises if either phase did. */
  lemma AfterSecondPhase(m: State, d: Disposal)
    requires Inv(m) && Enabled(m, DisposalReturns(d))
    ensures AttemptEnds(m, Apply(m, DisposalReturns(d)), if d.Disposed? then {ADAPTER} else {},
                        m.cleaner.failed || d.DisposalFailed? || d.DisposalCancelled?, m.stopGraceful)
  {
  }

  /**
    A `stop` of an agent that is down and owes cleanup, with the lock free and unqueued,
    begins a cleanup, and when its awaits succeed nothing is owed and the claim is gone.
    */
  lemma OwedCleanupIsRetried(s: State, graceful: bool) returns (n: State, steps: seq<Step>)
    requires Inv(s) && s.start.Idle? && !s.started && s.cleaner.NoOne? && s.queue == [] && s.pending != {}
    ensures steps != [] && steps[0] == StopCalled && Reaches(s, steps, n)
    ensures !Apply(s, StopCalled).cleaner.NoOne?
    ensures Apply(s, StopCalled).cleaner.StoppingRuntime? <==> RUNTIME in s.pending
    ensures n.pending == {} && !n.claim && n.cleaner.NoOne? && n.start.Idle? && !n.started
    ensures n.report == StopFinished(s.stopGraceful && (RUNTIME in s.pending ==> graceful))
  {
    StopIsServed(s);
    StepKeeps(s, StopCalled);
    NothingIsEmpty(s.pending);
    var begun := Apply(s, StopCalled);
    One(s, StopCalled, begun);
    var rest: seq<Step>;
    if RUNTIME in s.pending {
      n, rest := CleanupOutcome(begun, Stopped(graceful), Disposed);
    } else {
      n, rest := Apply(begun, DisposalReturns(Disposed)), [DisposalReturns(Disposed)];
      One(begun, DisposalReturns(Disposed), n);
      AfterSecondPhase(begun, Disposed);
      assert forall p :: p in n.pending ==> p == RUNTIME || p == ADAPTER;
    }
    Then(s, [StopCalled], begun, rest, n);
    steps := [StopCalled] + rest;
  }

  // ---- how a start begins and ends ----------------------------------------------------

  /** A start is refused exactly over a started agent or owed cleanup, and then changes nothing. */
  lemma StartIsRefused(s: State, owns: bool, claimed: bool, held: bool)
    requires Inv(s) && s.start.Idle?
    ensures var n := Apply(s, StartCalled(owns, claimed, held));
            && (n.report.Refused? <==> s.started || s.pending != {})
            && (n.report.Refused? ==> n == s.(report := Refused))
  {
    NothingIsEmpty(s.pending);
  }

  /**
    An accepted start claims the instance first; without the claim it unwinds the resources
    it took over, or raises having taken nothing.
    */
  lemma StartBegins(s: State, owns: bool, claimed: bool, held: bool)
    requires Inv(s) && s.start.Idle? && !s.started && s.pending == {}
    ensures var n := Apply(s, StartCalled(owns, claimed, held));
            && n.queue == s.queue && n.cleaner == s.cleaner && !n.started && n.stopGraceful
            && (claimed ==> n.start.Initializing? && n.claim && n.pending == (if owns then {ADAPTER} else {}) &&
                            n.stopRequested == s.stopRequested)
            && (!claimed && owns ==> n.start == Unwinding(!held) && !n.claim && (RUNTIME in n.pending <==> held) &&
                                     ADAPTER in n.pending && n.stopRequested == s.stopRequested)
            && (!claimed && !owns ==> n.start.Idle? && n.report.StartRaised? && !n.claim && n.pending == {})
  {
    NothingIsEmpty(s.pending);
    assert {} + {ADAPTER} == {ADAPTER};
  }

  /** What an await of `start` that succeeds leads to, whatever `stop` calls came meanwhile. */
  lemma StartAdvances(s: State)
    requires Inv(s)
    ensures s.start.Initializing? ==>
              Apply(s, InitializeReturns) == s.(start := StartingAdapter, pending := s.pending + {ADAPTER}, report := Ongoing)
    ensures s.start.StartingAdapter? ==>
              Apply(s, AdapterReturns) == s.(start := StartingRuntime, pending := s.pending + {RUNTIME}, report := Ongoing)
    ensures s.start.StartingRuntime? && !s.stopRequested ==>
              Apply(s, RuntimeReturns) == s.(start := Idle, started := true, report := StartReturned)
    ensures s.start.StartingRuntime? && s.stopRequested && s.queue == [] ==>
              Apply(s, RuntimeReturns) ==
                s.(start := Stopping, stopRequested := false, cleaner := StoppingRuntime(Starter), report := Ongoing)
    ensures s.start.StartingRuntime? && s.stopRequested && s.queue != [] ==>
              Apply(s, RuntimeReturns) == s.(start := Stopping, started := true, queue := s.queue + [Starter], report := Ongoing)
  {
  }

  /** A start nobody stops, and whose awaits succeed, returns with the agent running. */
  lemma UndisturbedStartRuns(s: State)
    requires Inv(s) && Startable(s)
    ensures Reaches(s, BOOT + [RuntimeReturns],
                    Booted(s).(start := Idle, started := true, report := StartReturned))
    ensures Booted(s).claim && Booted(s).pending == {RUNTIME, ADAPTER} && Booted(s).queue == s.queue
  {
    Boots(s);
    var up := Booted(s).(start := Idle, started := true, report := StartReturned);
    One(Booted(s), RuntimeReturns, up);
    Then(s, BOOT, Booted(s), [RuntimeReturns], up);
  }

  /** A start that was asked to stop takes the agent down itself and returns or raises with that. */
  lemma AskedStartStops(s: State, r: RuntimeStop, d: Disposal) returns (n: State, steps: seq<Step>)
    requires Inv(s) && s.start.StartingRuntime? && s.stopRequested && s.queue == [] && (r.Stopped? ==> !d.Waits?)
    ensures Reaches(s, steps, n) && n.start.Idle? && !n.started && !n.stopRequested
    ensures n.report == if Raises(s, r, d) then StartRaised else StartReturned
    ensures n.pending == s.pending - Struck(r, d) && n.claim == Raises(s, r, d)
  {
    StartAdvances(s);
    StepKeeps(s, RuntimeReturns);
    var begun := Apply(s, RuntimeReturns);
    One(s, RuntimeReturns, begun);
    var rest: seq<Step>;
    n, rest := CleanupOutcome(begun, r, d);
    Then(s, [RuntimeReturns], begun, rest, n);
    steps := [RuntimeReturns] + rest;
  }

  /** What a failed start still owes: the runtime if one is held, the adapter unless it was released. */
  function Owed(s: State, held: bool, release: Release): set<CleanupPhase> {
    (if held then {RUNTIME} else {}) + (if ADAPTER in s.pending && !release.Released? then {ADAPTER} else {})
  }

  /**
    A start that fails at any of its awaits tries to release the adapter it owes, told that
    work has settled exactly when no runtime is held; then it raises, its request is gone,
    and it keeps the claim exactly while something is owed.
    */
  lemma FailureOutcome(s: State, held: bool, release: Release) returns (n: State, steps: seq<Step>)
    requires Inv(s) && Booting(s) && !s.start.Unwinding?
    ensures Reaches(s, steps, n) && steps != [] && steps[0] == StartStepFails(held)
    ensures if ADAPTER in s.pending then
              steps == [StartStepFails(held)] + [ReleaseReturns(release)] &&
              Apply(s, StartStepFails(held)).start == Unwinding(!held)
            else steps == [StartStepFails(held)]
    ensures n.start.Idle? && n.report.StartRaised? && !n.started && !n.stopRequested && n.queue == s.queue
    ensures n.pending == Owed(s, held, release) && (n.claim <==> n.pending != {})
  {
    var fails, released := StartStepFails(held), ReleaseReturns(release);
    var first := Apply(s, fails);
    One(s, fails, first);
    n, steps := first, [fails];
    if ADAPTER in s.pending {
      StepKeeps(s, fails);
      n := Apply(first, released);
      One(first, released, n);
      Then(s, [fails], first, [released], n);
      steps := [fails] + [released];
    }
    NothingIsEmpty(n.pending);
    assert forall p: CleanupPhase :: p in n.pending <==> p in Owed(s, held, release) by {
      forall p: CleanupPhase ensures p in n.pending <==> p in Owed(s, held, release) {
        match p case RUNTIME => case ADAPTER =>
      }
    }
  }

  /** The unwind's release ends the failed start: the adapter is struck off only if it was released. */
  lemma ReleaseOutcome(s: State, release: Release)
    requires Inv(s) && s.start.Unwinding?
    ensures var n := Apply(s, ReleaseReturns(release));
            && n.start.Idle? && n.report.StartRaised? && !n.started && !n.stopRequested && n.queue == s.queue
            && n.pending == (if release.Released? then s.pending - {ADAPTER} else s.pending)
            && (n.claim <==> s.claim && n.pending != {})
  {
    NothingIsEmpty(Apply(s, ReleaseReturns(release)).pending);
  }
}
