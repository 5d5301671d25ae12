/**
  `Agent` as the object its coroutines update: one method per stretch of code between two
  awaits.  The object carries the protocol state it is in as a ghost, and every method
  takes it from a state that keeps the protocol's invariant to the protocol's next state;
  `Resume` lets whichever coroutine is due run, so the object follows every protocol run.
  */
module AgentObject {
  import opened Lifecycle
  import LifecycleProofs

  class Agent {
    var started: bool
    var starting: bool
    var stopRequested: bool
    var stopGraceful: bool
    var cleanupPending: set<CleanupPhase>
    var instanceGuard: bool        // held by the runtime on the agent's behalf
    var position: Start            // the await of the start in flight
    var cleaner: Cleaner           // the holder of the stop lock
    var waiters: seq<Caller>       // and its queue
    ghost var state: State

    /** The fields agree with a protocol state. */
    ghost predicate Shows(s: State)
      reads this
    {
      && started == s.started && starting == Starting(s)
      && stopRequested == s.stopRequested && stopGraceful == s.stopGraceful
      && cleanupPending == s.pending && instanceGuard == s.claim
      && position == s.start && cleaner == s.cleaner && waiters == s.queue
    }

    ghost predicate Valid()
      reads this
    {
      Shows(state) && LifecycleProofs.Inv(state)
    }

    /** What the fields alone promise at every await. */
    predicate Disciplined()
      reads this
    {
      && (starting <==> !position.Idle?)
      && (started ==> instanceGuard && cleanupPending == {RUNTIME, ADAPTER})
      && (!starting && !started && cleanupPending == {} ==> !instanceGuard)
      && (!cleaner.NoOne? ==> cleanupPending != {} && !started && (position.Idle? || position.Stopping?))
      && (position.Initializing? || position.StartingAdapter? || position.StartingRuntime? ==> instanceGuard)
    }

    /** The guard is let go only with nothing pending and no agent started. */
    predicate GuardKept(before: bool)
      reads this
    {
      before && !instanceGuard ==> cleanupPending == {} && !started
    }

    lemma ValidIsDisciplined()
      requires Valid()
      ensures Disciplined()
    {
      NothingIsEmpty(cleanupPending);
      if started {
        assert forall p :: p in cleanupPending ==> p == RUNTIME || p == ADAPTER;
        assert cleanupPending == {RUNTIME, ADAPTER};
      }
    }

    constructor ()
      ensures Valid() && state == Init && Disciplined()
    {
      started, starting, stopRequested, stopGraceful := false, false, false, true;
      cleanupPending := {};
      instanceGuard := false;
      position, cleaner, waiters := Idle, NoOne, [];
      state := Init;
    }

    /** The fields have taken a step; so does the protocol state. */
    ghost method Commit(a: Step)
      requires LifecycleProofs.Inv(state) && Enabled(state, a) && Shows(Apply(state, a))
      modifies this`state
      ensures Valid() && state == Apply(old(state), a) && Disciplined() && GuardKept(old(state).claim)
    {
      LifecycleProofs.StepKeeps(state, a);
      LifecycleProofs.StepFollows(state, a);
      state := Apply(state, a);
      ValidIsDisciplined();
      NothingIsEmpty(cleanupPending);
    }

    // ---- start ------------------------------------------------------------------------

    /** `start` up to its first await. */
    method BeginStart(owns: bool, claimed: bool, runtimeHeld: bool)
      requires Valid() && position.Idle?
      modifies this
      ensures Valid() && state == Lifecycle.BeginStart(old(state), owns, claimed, runtimeHeld)
      ensures Disciplined() && GuardKept(old(instanceGuard))
      ensures old(started) || old(cleanupPending) != {} ==>
                cleanupPending == old(cleanupPending) && instanceGuard == old(instanceGuard) && position.Idle?
    {
      NothingIsEmpty(cleanupPending);
      if !started && cleanupPending == {} {
        if owns {
          cleanupPending := cleanupPending + {ADAPTER};
        }
        starting := true;
        stopGraceful := true;
        position := Initializing;
        if claimed {
          instanceGuard := true;
        } else if owns {
          Unwind(Entered(state, owns), runtimeHeld);
        } else {
          starting := false;
          position := Idle;
        }
      }
      Commit(StartCalled(owns, claimed, runtimeHeld));
    }

    /** `start` between the metadata fetch and the adapter's startup. */
    method Initialized()
      requires Valid() && position.Initializing?
      modifies this
      ensures Valid() && state == Lifecycle.Initialized(old(state))
      ensures Disciplined() && ADAPTER in cleanupPending && instanceGuard
    {
      cleanupPending := cleanupPending + {ADAPTER};
      position := StartingAdapter;
      Commit(InitializeReturns);
    }

    /** `start` between the adapter's startup and the runtime's. */
    method AdapterStarted()
      requires Valid() && position.StartingAdapter?
      modifies this
      ensures Valid() && state == Lifecycle.AdapterStarted(old(state))
      ensures Disciplined() && RUNTIME in cleanupPending && instanceGuard
    {
      cleanupPending := cleanupPending + {RUNTIME};
      position := StartingRuntime;
      Commit(AdapterReturns);
    }

    /** `start` once the runtime is up: it returns, or stops the agent as it was asked to. */
    method RuntimeStarted()
      requires Valid() && position.StartingRuntime?
      modifies this
      ensures Valid() && state == Lifecycle.RuntimeStarted(old(state))
      ensures Disciplined() && (position.Idle? && started ==> !old(stopRequested))
    {
      started := true;
      if stopRequested {
        position := Stopping;
        AskForLock(state.(started := true, start := Stopping), Starter);
      } else {
        starting := false;
        position := Idle;
      }
      Commit(RuntimeReturns);
    }

    /** The awaited step of `start` raises or is cancelled. */
    method StepFailed(runtimeHeld: bool)
      requires Valid() && Enabled(state, StartStepFails(runtimeHeld))
      modifies this
      ensures Valid() && state == Lifecycle.BeginUnwind(old(state), runtimeHeld)
      ensures Disciplined() && GuardKept(old(instanceGuard)) && !started
    {
      Unwind(state, runtimeHeld);
      Commit(StartStepFails(runtimeHeld));
    }

    /** `_unwind_failed_start` up to its await, and what follows when there is none. */
    method Unwind(ghost s: State, runtimeHeld: bool)
      requires Shows(s) && Starting(s)
      modifies this
      ensures Shows(Lifecycle.BeginUnwind(s, runtimeHeld)) && state == old(state)
    {
      var workSettled := !runtimeHeld;
      if workSettled {
        cleanupPending := cleanupPending - {RUNTIME};
      } else {
        cleanupPending := cleanupPending + {RUNTIME};
      }
      if ADAPTER in cleanupPending {
        position := Unwinding(workSettled);
        return;
      }
      NothingIsEmpty(cleanupPending);
      if cleanupPending == {} {
        instanceGuard := false;
      }
      stopRequested := false;
      starting := false;
      position := Idle;
    }

    /** The rest of a failed start, after `release_adapter`. */
    method EndUnwind(release: Release)
      requires Valid() && position.Unwinding?
      modifies this
      ensures Valid() && state == ReleaseEnds(old(state), release)
      ensures Disciplined() && GuardKept(old(instanceGuard)) && !stopRequested && position.Idle?
    {
      if !release.ReleaseCancelled? {
        if release.Released? {
          cleanupPending := cleanupPending - {ADAPTER};
        }
        NothingIsEmpty(cleanupPending);
        if cleanupPending == {} {
          instanceGuard := false;
        }
      }
      stopRequested := false;
      starting := false;
      position := Idle;
      Commit(ReleaseReturns(release));
    }

    // ---- stop -------------------------------------------------------------------------

    /** A host calls `stop`. */
    method Stop()
      requires Valid()
      modifies this
      ensures Valid() && state == CallStop(old(state), Host)
      ensures Disciplined() && GuardKept(old(instanceGuard))
    {
      AskForLock(state, Host);
      Commit(StopCalled);
    }

    /** The freed stop lock goes to the head of its queue. */
    method GrantLock()
      requires Valid() && cleaner.NoOne? && waiters != []
      modifies this
      ensures Valid() && state == Apply(old(state), LockGranted)
      ensures Disciplined() && GuardKept(old(instanceGuard))
    {
      var caller := waiters[0];
      waiters := waiters[1..];
      EnterStop(state.(queue := state.queue[1..]), caller);
      Commit(LockGranted);
    }

    /** A queued `stop` is cancelled. */
    method AbandonWait(i: nat)
      requires Valid() && i < |waiters|
      modifies this
      ensures Valid() && state == Apply(old(state), WaitAbandoned(i))
      ensures Disciplined() && cleanupPending == old(cleanupPending) && instanceGuard == old(instanceGuard)
    {
      var caller := waiters[i];
      waiters := waiters[..i] + waiters[i + 1..];
      Answer(state.(queue := state.queue[..i] + state.queue[i + 1..]), caller, StopRaised);
      Commit(WaitAbandoned(i));
    }

    /** `async with self._stop_lock`: entered at once when free and unqueued. */
    method AskForLock(ghost s: State, caller: Caller)
      requires Shows(s)
      modifies this
      ensures Shows(CallStop(s, caller)) && state == old(state)
    {
      if cleaner.NoOne? && waiters == [] {
        EnterStop(s, caller);
      } else {
        waiters := waiters + [caller];
      }
    }

    /** `stop` from the lock to its first await. */
    method EnterStop(ghost s: State, caller: Caller)
      requires Shows(s) && s.cleaner.NoOne?
      modifies this
      ensures Shows(Lifecycle.EnterStop(s, caller)) && state == old(state)
    {
      NothingIsEmpty(cleanupPending);
      if starting && !started {
        stopRequested := true;
        Answer(s.(stopRequested := true, past := s.past.(latched := true)), caller, StopLatched);
      } else if !started && cleanupPending == {} {
        Answer(s, caller, StopIdle);
      } else {
        stopRequested := false;
        started := false;
        if RUNTIME in cleanupPending {
          cleaner := StoppingRuntime(caller);
        } else {
          AfterRuntime(s.(stopRequested := false, started := false), caller, false);
        }
      }
    }

    /** `_run_cleanup` from the runtime phase's end to its next await. */
    method RuntimeStopped(outcome: RuntimeStop)
      requires Valid() && cleaner.StoppingRuntime?
      modifies this
      ensures Valid() && state == RuntimeStopEnds(old(state), old(cleaner).caller, outcome)
      ensures Disciplined() && GuardKept(old(instanceGuard))
    {
      var caller := cleaner.caller;
      match outcome {
        case Stopped(graceful) =>
          stopGraceful := stopGraceful && graceful;
          cleanupPending := cleanupPending - {RUNTIME};
          AfterRuntime(state.(stopGraceful := state.stopGraceful && graceful, pending := state.pending - {RUNTIME},
                              past := RuntimeStop1(state.past)), caller, false);
        case StopFailed =>
          AfterRuntime(state, caller, true);
        case StopCancelled =>
          cleaner := NoOne;
          Answer(state.(cleaner := NoOne), caller, StopRaised);
      }
      Commit(RuntimeStopReturns(outcome));
    }

    /** `_run_cleanup` at the adapter phase, its await or the end of `stop` without one. */
    method AfterRuntime(ghost s: State, caller: Caller, failed: bool)
      requires Shows(s)
      modifies this
      ensures Shows(Lifecycle.AfterRuntime(s, caller, failed)) && state == old(state)
    {
      if ADAPTER in cleanupPending {
        cleaner := DisposingAdapter(caller, RUNTIME !in cleanupPending, failed);
      } else {
        EndCleanup(s, caller, failed);
      }
    }

    /** `_run_cleanup` from the adapter phase's end to the end of `stop`. */
    method AdapterDisposed(outcome: Disposal)
      requires Valid() && Enabled(state, DisposalReturns(outcome))
      modifies this
      ensures Valid() && state == DisposalEnds(old(state), old(cleaner).caller, old(cleaner).failed, outcome)
      ensures Disciplined() && GuardKept(old(instanceGuard)) && cleaner.NoOne?
    {
      var caller, failed := cleaner.caller, cleaner.failed;
      match outcome {
        case Disposed =>
          cleanupPending := cleanupPending - {ADAPTER};
          EndCleanup(state.(pending := state.pending - {ADAPTER}, past := Disposal1(state.past)), caller, failed);
        case Waits =>
          EndCleanup(state, caller, failed);
        case DisposalFailed =>
          EndCleanup(state, caller, true);
        case DisposalCancelled =>
          cleaner := NoOne;
          Answer(state.(cleaner := NoOne), caller, StopRaised);
      }
      Commit(DisposalReturns(outcome));
    }

    /** The end of `stop`: the guard goes unless a phase failed. */
    method EndCleanup(ghost s: State, caller: Caller, failed: bool)
      requires Shows(s)
      modifies this
      ensures Shows(Lifecycle.EndCleanup(s, caller, failed)) && state == old(state)
    {
      cleaner := NoOne;
      if failed {
        Answer(s.(cleaner := NoOne), caller, StopRaised);
      } else {
        instanceGuard := false;
        Answer(s.(cleaner := NoOne, claim := false), caller, StopFinished(stopGraceful));
      }
    }

    /** `stop` returns or raises; when `start` called it, `_starting` is cleared on the way out. */
    method Answer(ghost s: State, caller: Caller, ghost answer: Report)
      requires Shows(s)
      modifies this
      ensures Shows(EndStop(s, caller, answer)) && state == old(state)
    {
      if caller.Starter? {
        starting := false;
        position := Idle;
      }
    }

    // ---- the event loop ---------------------------------------------------------------

    /** Whatever is due next runs: the object follows the protocol, and its fields keep their promises. */
    method Resume(a: Step)
      requires Valid() && Enabled(state, a)
      modifies this
      ensures Valid() && state == Apply(old(state), a)
      ensures Disciplined()
    {
      match a
      case StartCalled(owns, claimed, held) => BeginStart(owns, claimed, held);
      case InitializeReturns => Initialized();
      case AdapterReturns => AdapterStarted();
      case RuntimeReturns => RuntimeStarted();
      case StartStepFails(held) => StepFailed(held);
      case ReleaseReturns(release) => EndUnwind(release);
      case StopCalled => Stop();
      case LockGranted => GrantLock();
      case WaitAbandoned(i) => AbandonWait(i);
      case RuntimeStopReturns(outcome) => RuntimeStopped(outcome);
      case DisposalReturns(outcome) => AdapterDisposed(outcome);
    }
  }
}
