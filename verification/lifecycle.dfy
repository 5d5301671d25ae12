/**
  agent.py: `Agent.start`, `stop` and the unwind of a failed start, cut at their awaits.

  One `start` is in flight at a time; any number of `stop` calls may be.  Each await may
  succeed, raise or be cancelled, and anything else may run meanwhile.  `asyncio.Lock` is
  fair: a caller that cannot have the stop lock at once joins a queue, and a freed lock
  goes to the head of the queue.
  */
module Lifecycle {
  datatype CleanupPhase = RUNTIME | ADAPTER

  /** Who called `stop`: the host, or `start` itself honouring a latched request. */
  datatype Caller = Host | Starter

  /** The await `start` is suspended at. */
  datatype Start =
    | Idle
    | Initializing
    | StartingAdapter
    | StartingRuntime
    | Unwinding(settled: bool)     // release_adapter(work_settled=settled)
    | Stopping                     // its own `stop`, queued or cleaning up

  /** The await the holder of the stop lock is suspended at. */
  datatype Cleaner =
    | NoOne
    | StoppingRuntime(caller: Caller)
    | DisposingAdapter(caller: Caller, settled: bool, failed: bool)

  /** How the call that ended in the last step ended. */
  datatype Report =
    | Ongoing
    | Refused                      // `start` on a started agent, or over pending cleanup
    | StartReturned
    | StartRaised
    | StopLatched                  // True, the request recorded for `start`
    | StopIdle                     // True, nothing to stop
    | StopFinished(graceful: bool)
    | StopRaised

  /** History of the lifetime the last accepted `start` began. */
  datatype Past = Past(latched: bool, runtimeStops: nat, disposals: nat)

  datatype State = State(
    started: bool,
    stopRequested: bool,
    stopGraceful: bool,
    pending: set<CleanupPhase>,
    claim: bool,                   // the single-instance guard is held
    start: Start,
    cleaner: Cleaner,
    queue: seq<Caller>,            // waiters of the stop lock, in order
    report: Report,
    past: Past)

  function RuntimeStop1(p: Past): Past { p.(runtimeStops := p.runtimeStops + 1) }

  function Disposal1(p: Past): Past { p.(disposals := p.disposals + 1) }

  const Init: State := State(false, false, true, {}, false, Idle, NoOne, [], Ongoing, Past(false, 0, 0))

  /** `_starting`: a start is in flight, its own `stop` included. */
  predicate Starting(s: State) {
    !s.start.Idle?
  }

  /** `not self._cleanup_pending`. */
  predicate Nothing(pending: set<CleanupPhase>) {
    RUNTIME !in pending && ADAPTER !in pending
  }

  lemma NothingIsEmpty(pending: set<CleanupPhase>)
    ensures Nothing(pending) <==> pending == {}
  {
    assert forall p :: p in pending ==> p == RUNTIME || p == ADAPTER;
  }

  // ---- start --------------------------------------------------------------------------

  /** What `start` records before anything can fail; a new lifetime begins. */
  function Entered(s: State, owns: bool): State {
    s.(pending := if owns then {ADAPTER} else {}, stopGraceful := true,
       start := Initializing, report := Ongoing, past := Past(false, 0, 0))
  }

  /** `start` up to its first await; `owns`: the adapter hands over registered resources. */
  function BeginStart(s: State, owns: bool, claimed: bool, runtimeHeld: bool): State {
    if s.started || !Nothing(s.pending) then s.(report := Refused)
    else if claimed then Entered(s, owns).(claim := true)
    else if owns then BeginUnwind(Entered(s, owns), runtimeHeld)
    else Entered(s, owns).(start := Idle, report := StartRaised)
  }

  function Initialized(s: State): State {
    s.(pending := s.pending + {ADAPTER}, start := StartingAdapter, report := Ongoing)
  }

  function AdapterStarted(s: State): State {
    s.(pending := s.pending + {RUNTIME}, start := StartingRuntime, report := Ongoing)
  }

  function RuntimeStarted(s: State): State {
    if s.stopRequested then CallStop(s.(started := true, start := Stopping), Starter)
    else s.(started := true, start := Idle, report := StartReturned)
  }

  /** `_unwind_failed_start` up to its await; `runtimeHeld`: a runtime is held, not serving. */
  function BeginUnwind(s: State, runtimeHeld: bool): State {
    if runtimeHeld then ReleaseAdapter(s.(pending := s.pending + {RUNTIME}), false)
    else ReleaseAdapter(s.(pending := s.pending - {RUNTIME}), true)
  }

  function ReleaseAdapter(s: State, settled: bool): State {
    if ADAPTER in s.pending then s.(start := Unwinding(settled), report := Ongoing) else EndUnwind(s)
  }

  function EndUnwind(s: State): State {
    if Nothing(s.pending) then AbandonStart(s.(claim := false)) else AbandonStart(s)
  }

  function AbandonStart(s: State): State {
    s.(stopRequested := false, start := Idle, report := StartRaised)
  }

  datatype Release = Released | Kept | ReleaseCancelled

  function ReleaseEnds(s: State, r: Release): State {
    match r
    case Released => EndUnwind(s.(pending := s.pending - {ADAPTER}, past := Disposal1(s.past)))
    case Kept => EndUnwind(s)
    case ReleaseCancelled => AbandonStart(s)
  }

  // ---- stop ---------------------------------------------------------------------------

  /** `stop` up to the lock: entered at once when free and unqueued, else queued for. */
  function CallStop(s: State, caller: Caller): State {
    if s.cleaner.NoOne? && s.queue == [] then EnterStop(s, caller)
    else s.(queue := s.queue + [caller], report := Ongoing)
  }

  /** `stop` with the lock, up to the first cleanup await. */
  function EnterStop(s: State, caller: Caller): State {
    if Starting(s) && !s.started then EndStop(s.(stopRequested := true, past := s.past.(latched := true)), caller, StopLatched)
    else if !s.started && Nothing(s.pending) then EndStop(s, caller, StopIdle)
    else if RUNTIME in s.pending then
      s.(stopRequested := false, started := false, cleaner := StoppingRuntime(caller), report := Ongoing)
    else AfterRuntime(s.(stopRequested := false, started := false), caller, false)
  }

  /** The caller of `stop` gets its answer; `start` returns or raises with it. */
  function EndStop(s: State, caller: Caller, answer: Report): State {
    if caller.Host? then s.(report := answer)
    else if answer.StopRaised? then s.(start := Idle, report := StartRaised)
    else s.(start := Idle, report := StartReturned)
  }

  /** `_run_cleanup` after the runtime phase was attempted or skipped. */
  function AfterRuntime(s: State, caller: Caller, failed: bool): State {
    if ADAPTER in s.pending
    then s.(cleaner := DisposingAdapter(caller, RUNTIME !in s.pending, failed), report := Ongoing)
    else EndCleanup(s, caller, failed)
  }

  /** The lock is released; the guard too when no phase failed. */
  function EndCleanup(s: State, caller: Caller, failed: bool): State {
    if failed then EndStop(s.(cleaner := NoOne), caller, StopRaised)
    else EndStop(s.(cleaner := NoOne, claim := false), caller, StopFinished(s.stopGraceful))
  }

  datatype RuntimeStop = Stopped(graceful: bool) | StopFailed | StopCancelled

  function RuntimeStopEnds(s: State, caller: Caller, r: RuntimeStop): State {
    match r
    case Stopped(graceful) =>
      AfterRuntime(s.(stopGraceful := s.stopGraceful && graceful, pending := s.pending - {RUNTIME},
                      past := RuntimeStop1(s.past)), caller, false)
    case StopFailed => AfterRuntime(s, caller, true)
    case StopCancelled => EndStop(s.(cleaner := NoOne), caller, StopRaised)
  }

  datatype Disposal = Disposed | Waits | DisposalFailed | DisposalCancelled

  function DisposalEnds(s: State, caller: Caller, failed: bool, r: Disposal): State {
    match r
    case Disposed =>
      EndCleanup(s.(pending := s.pending - {ADAPTER}, past := Disposal1(s.past)), caller, failed)
    case Waits => EndCleanup(s, caller, failed)
    case DisposalFailed => EndCleanup(s, caller, true)
    case DisposalCancelled => EndStop(s.(cleaner := NoOne), caller, StopRaised)
  }

  // ---- steps --------------------------------------------------------------------------

  datatype Step =
    | StartCalled(owns: bool, claimed: bool, runtimeHeld: bool)
    | InitializeReturns
    | AdapterReturns
    | RuntimeReturns
    | StartStepFails(runtimeHeld: bool)      // the awaited start step raises or is cancelled
    | ReleaseReturns(release: Release)
    | StopCalled
    | LockGranted
    | WaitAbandoned(i: nat)                  // a queued caller is cancelled
    | RuntimeStopReturns(runtimeStop: RuntimeStop)
    | DisposalReturns(disposal: Disposal)

  /** `Waits` answers only unsettled work: `dispose_adapter(work_settled=True)` is True or raises. */
  predicate Enabled(s: State, a: Step) {
    match a
    case StartCalled(_, _, _) => s.start.Idle?
    case InitializeReturns => s.start.Initializing?
    case AdapterReturns => s.start.StartingAdapter?
    case RuntimeReturns => s.start.StartingRuntime?
    case StartStepFails(_) => s.start.Initializing? || s.start.StartingAdapter? || s.start.StartingRuntime?
    case ReleaseReturns(_) => s.start.Unwinding?
    case StopCalled => true
    case LockGranted => s.cleaner.NoOne? && s.queue != []
    case WaitAbandoned(i) => i < |s.queue|
    case RuntimeStopReturns(_) => s.cleaner.StoppingRuntime?
    case DisposalReturns(r) => s.cleaner.DisposingAdapter? && (r.Waits? ==> !s.cleaner.settled)
  }

  /** The state after an enabled step. */
  function Apply(s: State, a: Step): State {
    match a
    case StartCalled(owns, claimed, held) => BeginStart(s, owns, claimed, held)
    case InitializeReturns => Initialized(s)
    case AdapterReturns => AdapterStarted(s)
    case RuntimeReturns => RuntimeStarted(s)
    case StartStepFails(held) => BeginUnwind(s, held)
    case ReleaseReturns(r) => ReleaseEnds(s, r)
    case StopCalled => CallStop(s, Host)
    case LockGranted => if s.queue == [] then s else EnterStop(s.(queue := s.queue[1..]), s.queue[0])
    case WaitAbandoned(i) =>
      if i >= |s.queue| then s
      else EndStop(s.(queue := s.queue[..i] + s.queue[i + 1..]), s.queue[i], StopRaised)
    case RuntimeStopReturns(r) => if s.cleaner.NoOne? then s else RuntimeStopEnds(s, s.cleaner.caller, r)
    case DisposalReturns(r) =>
      if !s.cleaner.DisposingAdapter? then s else DisposalEnds(s, s.cleaner.caller, s.cleaner.failed, r)
  }

  /** `states` is visited by taking `steps` one after the other. */
  ghost predicate Path(states: seq<State>, steps: seq<Step>) {
    && |states| == |steps| + 1
    && forall i :: 0 <= i < |steps| ==>
         Enabled(states[i], steps[i]) && states[i + 1] == Apply(states[i], steps[i])
  }

  ghost predicate Run(states: seq<State>, steps: seq<Step>) {
    Path(states, steps) && states[0] == Init
  }
}
