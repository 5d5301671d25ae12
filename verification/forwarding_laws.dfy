/** What each step of a run of the forwarding protocol does, in the fields of the event it is about. */
module ForwardingLaws {
  import opened Options
  import opened Rooms
  import opened Forwarding
  import opened ForwardingInvariant
  import opened ForwardingSafety
  import Dedup

  /** A message event with an id to deduplicate by. */
  predicate Carries(e: Event, id: string) {
    e.kind.Message? && e.msgId == Some(id) && id != ""
  }

  /** A message that carries an id recorded among the last 10,000. */
  ghost predicate Redelivered(log: seq<string>, e: Event) {
    exists id :: Carries(e, id) && Dedup.StillFresh(log, id, 10_000)
  }

  /** What the dedup check and the filters make of an event. */
  ghost function Decision(c: Config, log: seq<string>, e: Event): Phase {
    if Redelivered(log, e) then Settled(Suppressed)
    else if e.kind.Unforwardable? || (c.messagesOnly && !e.kind.Message?) then Settled(Skipped)
    else WaitingLock
  }

  // ---- admission and the check --------------------------------------------------------

  lemma CheckDecides(c: Config, s: State, t: TaskId)
    requires Recorded(s) && t < |s.tasks| && Registered(s, t)
    ensures var n := Check(c, s, t);
            n.tasks[t].phase == Decision(c, s.log, s.tasks[t].event) && n.log == s.log && n.cache == s.cache
  {
    var e := s.tasks[t].event;
    var id := MsgId(e);
    if id.Some? {
      Dedup.WindowIsFresh(s.log, id.value, 10_000);
      assert Carries(e, id.value);
    }
  }

  /**
    An admitted room event first waits for its subscription; any other event, and a room
    event once it is subscribed, is suppressed, skipped or let on to its room's lock.
    */
  lemma AdmissionsDecide(c: Config, states: seq<State>, steps: seq<Step>, i: nat, t: TaskId)
    requires Run(c, states, steps) && i < |steps| && (steps[i] == Admit(t) || steps[i] == Subscribed(t))
    ensures var e, n := states[i].tasks[t].event, states[i + 1];
            && n.log == states[i].log && n.cache == states[i].cache
            && n.tasks[t].phase ==
                 if steps[i].Admit? && (e.kind.RoomAdded? || e.kind.RoomGone?) && e.room.Some? && e.room.value != ""
                 then Subscribing
                 else Decision(c, states[i].log, e)
  {
    RunKeeps(c, states, steps, i);
    var s := states[i];
    if steps[i].Admit? {
      RegisterKeeps(c, s, t);
      if !NeedsSubscription(s.tasks[t].event) {
        CheckDecides(c, Register(s, t), t);
      }
    } else {
      CheckDecides(c, s, t);
    }
  }

  /** The front of a room's queue takes its lock, then a permit, then forwards. */
  lemma HoldersAdvance(c: Config, states: seq<State>, steps: seq<Step>, i: nat, t: TaskId)
    requires Run(c, states, steps) && i < |steps|
    ensures steps[i] == TakeLock(t) ==>
              states[i + 1].tasks[t].phase.WaitingCapacity? && states[i + 1].permits == states[i].permits
    ensures steps[i] == TakePermit(t) ==> InForward(states[i + 1], t) && states[i + 1].permits == states[i].permits - 1
    ensures steps[i] == TakeLock(t) || steps[i] == TakePermit(t) ==>
              states[i + 1].log == states[i].log && states[i + 1].cache == states[i].cache
  {
  }

  // ---- the end of a forward -----------------------------------------------------------

  lemma SettleRecords(s: State, t: TaskId, outcome: Outcome)
    requires Recorded(s) && t < |s.tasks| && Registered(s, t)
    ensures var n, e := Settle(s, t, outcome), s.tasks[t].event;
            && n.tasks[t].phase == Settled(outcome)
            && (outcome.Delivered? ==> forall id :: Carries(e, id) ==>
                  n.log == if Dedup.StillFresh(s.log, id, 10_000) then s.log else s.log + [id])
            && (!outcome.Delivered? || (forall id :: !Carries(e, id)) ==> n.log == s.log && n.cache == s.cache)
  {
    var e := s.tasks[t].event;
    if MsgId(e).Some? {
      assert Carries(e, MsgId(e).value);
      Dedup.WindowIsFresh(s.log, MsgId(e).value, 10_000);
    }
  }

  /**
    A forward that returns delivers its task and records its message's id; one that raises
    fails its task and records nothing.
    */
  lemma ForwardsEnd(c: Config, states: seq<State>, steps: seq<Step>, i: nat, t: TaskId, ok: bool)
    requires Run(c, states, steps) && i < |steps| && steps[i] == EndForward(t, ok)
    ensures states[i + 1].tasks[t].phase == Settled(if ok then Delivered else Failed)
    ensures !ok ==> states[i + 1].log == states[i].log && states[i + 1].cache == states[i].cache
    ensures ok ==> forall id :: Carries(states[i].tasks[t].event, id) ==>
              states[i + 1].log == (if Dedup.StillFresh(states[i].log, id, 10_000) then states[i].log else states[i].log + [id])
  {
    RunKeeps(c, states, steps, i);
    SettleRecords(states[i], t, if ok then Delivered else Failed);
  }

  // ---- where recordings come from -----------------------------------------------------

  /** The k-th step of the run is the return of a forward of this message id. */
  ghost predicate Returned(states: seq<State>, steps: seq<Step>, k: nat, id: string) {
    && k < |steps| && k < |states| && steps[k].EndForward? && steps[k].ok
    && steps[k].t < |states[k].tasks| && Carries(states[k].tasks[steps[k].t].event, id)
  }

  ghost predicate ReturnedBefore(states: seq<State>, steps: seq<Step>, i: nat, id: string) {
    exists k: nat :: k < i && Returned(states, steps, k, id)
  }

  lemma TaskStepRecords(c: Config, s: State, a: Step)
    requires Inv(c, s) && Enabled(s, a) && IsTaskStep(a) && !(a.EndForward? && a.ok)
    ensures Apply(c, s, a).log == s.log && Apply(c, s, a).cache == s.cache
  {
    match a
    case Admit(t) => AdmitExplains(c, s, t);
    case Subscribed(t) => CheckDecides(c, s, t);
    case _ =>
  }

  /** Nothing else touches the log or the cache. */
  lemma OnlyReturnsRecord(c: Config, s: State, a: Step)
    requires Inv(c, s) && Enabled(s, a) && !(a.EndForward? && a.ok)
    ensures Apply(c, s, a).log == s.log
  {
    if IsTaskStep(a) {
      TaskStepRecords(c, s, a);
    }
  }

  /** A step that adds an id to the log is the return of a forward of that id. */
  lemma StepRecords(c: Config, s: State, a: Step, id: string)
    requires Inv(c, s) && Enabled(s, a) && id in Apply(c, s, a).log && id !in s.log
    ensures a.EndForward? && a.ok && a.t < |s.tasks| && Carries(s.tasks[a.t].event, id)
  {
    if a.EndForward? && a.ok {
      if !Carries(s.tasks[a.t].event, id) {
        RecordedByOther(c, s, a.t, id);
      }
    } else {
      OnlyReturnsRecord(c, s, a);
    }
  }

  lemma {:induction false} RecordedMeansReturned(c: Config, states: seq<State>, steps: seq<Step>, i: nat, id: string)
    requires Run(c, states, steps) && i < |states| && id in states[i].log
    ensures ReturnedBefore(states, steps, i, id)
  {
    if i > 0 {
      if id in states[i - 1].log {
        RecordedMeansReturned(c, states, steps, i - 1, id);
      } else {
        RunKeeps(c, states, steps, i - 1);
        StepRecords(c, states[i - 1], steps[i - 1], id);
        assert Returned(states, steps, i - 1, id);
      }
    }
  }

  lemma RecordedByOther(c: Config, s: State, t: TaskId, id: string)
    requires Inv(c, s) && t < |s.tasks| && Registered(s, t) && !Carries(s.tasks[t].event, id)
    requires id in Settle(s, t, Delivered).log
    ensures id in s.log
  {
    SettleRecords(s, t, Delivered);
    var e := s.tasks[t].event;
    if other :| Carries(e, other) {
      assert Settle(s, t, Delivered).log == if Dedup.StillFresh(s.log, other, 10_000) then s.log else s.log + [other];
    }
  }

  /**
    An id none of whose forwards has returned is not cached, and no task that carries it was
    suppressed: whatever failed or was cancelled stays retryable.
    */
  lemma FailuresStayRetryable(c: Config, states: seq<State>, steps: seq<Step>, i: nat, id: string)
    requires Run(c, states, steps) && i < |states| && !ReturnedBefore(states, steps, i, id)
    ensures id !in states[i].cache
    ensures forall t :: 0 <= t < |states[i].tasks| && Carries(states[i].tasks[t].event, id) ==>
              states[i].tasks[t].phase != Settled(Suppressed)
  {
    RunKeeps(c, states, steps, i);
    OutcomesAreExplained(c, states, steps, i);
    var s := states[i];
    if id in s.log {
      RecordedMeansReturned(c, states, steps, i, id);
    }
    assert forall m :: m in s.cache ==> m in s.log;
    forall t | 0 <= t < |s.tasks| && Carries(s.tasks[t].event, id) ensures s.tasks[t].phase != Settled(Suppressed) {
      assert Explained(c, s.log, s.tasks[t]);
    }
  }

  // ---- arrivals, shutdown and the runner ----------------------------------------------

  /** Exactly the unsettled tasks of one origin are asked to cancel. */
  ghost predicate Asks(s: State, n: State, origin: Origin) {
    && |n.tasks| == |s.tasks|
    && forall t :: 0 <= t < |s.tasks| ==>
         n.tasks[t] == if s.tasks[t].origin == origin && !s.tasks[t].phase.Settled?
                       then s.tasks[t].(cancelled := true) else s.tasks[t]
  }

  /** An arrival is a new task that has not run; leaving the loop and closing ask their own tasks to cancel. */
  lemma ArrivalsAndShutdown(c: Config, states: seq<State>, steps: seq<Step>, i: nat)
    requires Run(c, states, steps) && i < |steps|
    ensures var s, n := states[i], states[i + 1];
            match steps[i]
            case Spawn(origin, e) => n == s.(tasks := s.tasks + [Task(origin, e, Created, 0, false, 0)])
            case LeaveConsume =>
              n == s.(tasks := n.tasks, runner := Draining) &&
              Asks(s, n, if s.runner.Consuming? then FromLoop else FromRehydration)
            case CancelNudges => n == s.(tasks := n.tasks, runner := Closing) && Asks(s, n, FromControl)
            case _ => true
  {
  }

  /** Events arrive while their source runs, nudges until the link is down, control signals always. */
  lemma ArrivalsAreTaken(s: State, e: Event, room: string)
    ensures s.runner.Consuming? ==> Enabled(s, Spawn(FromLoop, e))
    ensures s.runner.Rehydrating? ==> Enabled(s, Spawn(FromRehydration, e))
    ensures !s.runner.Disconnected? && !s.runner.Closing? && !s.runner.Closed? ==> Enabled(s, Spawn(FromControl, e))
    ensures Enabled(s, CancelRoom(room))
    ensures s.runner.Consuming? || s.runner.Rehydrating? ==> Enabled(s, LeaveConsume)
  {
  }

  /** A lost connection drains, and the runner can connect and consume again, all else as it was. */
  lemma RunnerComesBack(c: Config, s: State)
    requires s.runner.Draining? && AllSettled(s, FromLoop) && AllSettled(s, FromRehydration)
    ensures Path(c, [s, s.(runner := Offline), s.(runner := Rehydrating), s.(runner := Consuming)],
                 [FinishDrain, Connect, FinishRehydration])
  {
  }

  /** A drained runner can exit and take its link down; once its nudges have settled it is closed. */
  lemma RunnerGoesDown(c: Config, s: State)
    requires s.runner.Draining? && AllSettled(s, FromLoop) && AllSettled(s, FromRehydration)
    ensures Path(c, [s, s.(runner := Offline), s.(runner := Exited), s.(runner := Disconnected)],
                 [FinishDrain, ExitRun, LinkDown])
    ensures var closing := Apply(c, s.(runner := Disconnected), CancelNudges);
            AllSettled(closing, FromControl) ==>
              Enabled(closing, FinishClose) && Apply(c, closing, FinishClose) == closing.(runner := Closed)
  {
  }
}
