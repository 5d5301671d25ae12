/** Safety of every run: exclusion, capacity, recording, cancellation, quiescence. */
module ForwardingSafety {
  import opened Options
  import opened Rooms
  import opened Forwarding
  import opened ForwardingInvariant
  import Dedup

  // ---- exclusion and capacity ---------------------------------------------------------

  /**
    In every run at most one task of a room id (the shared `None` room included) is inside
    `forward`, although the gate object behind the id may be deleted and created anew.
    */
  lemma OneForwardPerRoom(c: Config, states: seq<State>, steps: seq<Step>, i: nat, t: TaskId, u: TaskId)
    requires Run(c, states, steps) && i < |states|
    requires InForward(states[i], t) && InForward(states[i], u)
    requires states[i].tasks[t].event.room == states[i].tasks[u].event.room
    ensures t == u
  {
    RunKeeps(c, states, steps, i);
    var s := states[i];
    assert Registered(s, t) && Registered(s, u);
    assert HeldBy(s, s.tasks[t].gate, t) && HeldBy(s, s.tasks[t].gate, u);
  }

  /** `remove` and `del` on leaving `accepted` never fail, and hit the task's own gate. */
  lemma OwnersStayRegistered(c: Config, states: seq<State>, steps: seq<Step>, i: nat, t: TaskId)
    requires Run(c, states, steps) && i < |states| && Member(states[i], t)
    ensures Registered(states[i], t)
  {
    RunKeeps(c, states, steps, i);
  }

  ghost function ForwardingIn(tasks: seq<Task>): set<TaskId> {
    set t: TaskId | t < |tasks| && tasks[t].phase.Forwarding?
  }

  ghost function Forwarders(s: State): set<TaskId> {
    ForwardingIn(s.tasks)
  }

  lemma {:induction false} CountForwarders(tasks: seq<Task>)
    ensures |ForwardingIn(tasks)| == Weigh(tasks, ForwardWeight)
  {
    if tasks == [] {
      assert ForwardingIn(tasks) == {};
    } else {
      var n := |tasks| - 1;
      CountForwarders(tasks[..n]);
      var before := ForwardingIn(tasks[..n]);
      assert ForwardingIn(tasks) == if tasks[n].phase.Forwarding? then before + {n} else before;
    }
  }

  /**
    Free permits plus forwarding tasks is the capacity in every state of every run, and
    every permit holder also holds its room's lock.
    */
  lemma CapacityConserved(c: Config, states: seq<State>, steps: seq<Step>, i: nat)
    requires Run(c, states, steps) && i < |states|
    ensures states[i].permits >= 0 && states[i].permits + |Forwarders(states[i])| == c.capacity
    ensures forall t :: t in Forwarders(states[i]) ==>
              states[i].tasks[t].gate < |states[i].gates| && states[i].gates[states[i].tasks[t].gate].locked
  {
    RunKeeps(c, states, steps, i);
    var s := states[i];
    CountForwarders(s.tasks);
    forall t | t in Forwarders(s)
      ensures s.tasks[t].gate < |s.gates| && s.gates[s.tasks[t].gate].locked
    {
      assert HeldBy(s, s.tasks[t].gate, t) && Registered(s, t);
    }
  }

  // ---- what a step may do to one task -------------------------------------------------

  /** How many more steps a task in this phase can take. */
  function Rank(p: Phase): nat {
    match p
    case Created => 5
    case Subscribing => 4
    case WaitingLock => 3
    case WaitingCapacity => 2
    case Forwarding => 1
    case Settled(_) => 0
  }

  /** The task whose resumption the step is. */
  function Actor(a: Step): TaskId
    requires IsTaskStep(a)
  {
    match a
    case Admit(t) => t
    case Withdraw(t) => t
    case Subscribed(t) => t
    case TakeLock(t) => t
    case TakePermit(t) => t
    case EndForward(t, _) => t
    case DeliverCancel(t) => t
  }

  /** `n` is reached from `s` by moving task `t` alone, closer to settling. */
  ghost predicate Moves(s: State, n: State, t: TaskId) {
    && t < |s.tasks| == |n.tasks| && n.tasks == s.tasks[t := s.tasks[t].(phase := n.tasks[t].phase,
                                      gate := n.tasks[t].gate, checkedAt := n.tasks[t].checkedAt)]
    && Rank(n.tasks[t].phase) < Rank(s.tasks[t].phase)
  }

  lemma CheckMoves(c: Config, s: State, t: TaskId)
    requires t < |s.tasks| && Registered(s, t) && s.tasks[t].phase.Subscribing?
    ensures Moves(s, Check(c, s, t), t)
  {
  }

  lemma AdmitMoves(c: Config, s: State, t: TaskId)
    requires Inv(c, s) && Enabled(s, Admit(t))
    ensures Moves(s, Apply(c, s, Admit(t)), t)
  {
    RegisterKeepsOwned(s, t);
    if !NeedsSubscription(s.tasks[t].event) {
      CheckMoves(c, Register(s, t), t);
    }
  }

  /** A resumption moves its task alone; a cancelled task moves only to settle as cancelled. */
  lemma TaskStepMoves(c: Config, s: State, a: Step)
    requires Inv(c, s) && Enabled(s, a) && IsTaskStep(a)
    ensures Moves(s, Apply(c, s, a), Actor(a))
    ensures s.tasks[Actor(a)].cancelled ==> Apply(c, s, a).tasks[Actor(a)].phase == Settled(Cancelled)
  {
    match a
    case Admit(t) => AdmitMoves(c, s, t);
    case Subscribed(t) => CheckMoves(c, s, t);
    case _ =>
  }

  lemma StepOnTask(c: Config, s: State, a: Step, t: TaskId)
    requires Inv(c, s) && Enabled(s, a) && t < |s.tasks|
    ensures var n := Apply(c, s, a);
            && t < |n.tasks| && n.tasks[t].event == s.tasks[t].event
            && (s.tasks[t].phase.Settled? ==> n.tasks[t].phase == s.tasks[t].phase)
            && (s.tasks[t].cancelled ==> n.tasks[t].cancelled)
            && (s.tasks[t].cancelled && n.tasks[t].phase != s.tasks[t].phase ==>
                  n.tasks[t].phase == Settled(Cancelled))
  {
    if IsTaskStep(a) {
      TaskStepMoves(c, s, a);
    }
  }

  lemma {:induction false} SettledForever(c: Config, states: seq<State>, steps: seq<Step>, i: nat, j: nat, t: TaskId)
    requires Run(c, states, steps) && i <= j < |states| && t < |states[i].tasks|
    requires states[i].tasks[t].phase.Settled?
    ensures t < |states[j].tasks| && states[j].tasks[t].phase == states[i].tasks[t].phase
    decreases j
  {
    if i < j {
      SettledForever(c, states, steps, i, j - 1, t);
      RunKeeps(c, states, steps, j - 1);
      StepOnTask(c, states[j - 1], steps[j - 1], t);
    }
  }

  // ---- outcomes -----------------------------------------------------------------------

  /** What a task's phase says about its event: how it was filtered, and why it settled. */
  ghost predicate Explained(c: Config, log: seq<string>, k: Task) {
    match k.phase
    case Created => true
    case Subscribing => NeedsSubscription(k.event)
    case Settled(Suppressed) => MsgId(k.event).Some? && MsgId(k.event).value in log
    case Settled(Skipped) => !Forwardable(c, k.event)
    case Settled(Cancelled) => k.cancelled
    case Settled(NoBacklog) => !k.origin.FromLoop?
    case Settled(Delivered) => Forwardable(c, k.event) && (MsgId(k.event).Some? ==> MsgId(k.event).value in log)
    case _ => Forwardable(c, k.event)
  }

  lemma CheckExplains(c: Config, s: State, t: TaskId)
    requires Recorded(s) && t < |s.tasks| && Registered(s, t)
    ensures Check(c, s, t).log == s.log && Explained(c, s.log, Check(c, s, t).tasks[t])
  {
    assert forall id :: id in s.cache ==> id in s.log;
  }

  lemma AdmitExplains(c: Config, s: State, t: TaskId)
    requires Inv(c, s) && Enabled(s, Admit(t))
    ensures Apply(c, s, Admit(t)).log == s.log && Explained(c, s.log, Apply(c, s, Admit(t)).tasks[t])
  {
    RegisterKeeps(c, s, t);
    if !NeedsSubscription(s.tasks[t].event) {
      CheckExplains(c, Register(s, t), t);
    }
  }

  lemma TaskStepExplains(c: Config, s: State, a: Step)
    requires Inv(c, s) && Enabled(s, a) && IsTaskStep(a) && Explained(c, s.log, s.tasks[Actor(a)])
    ensures Explained(c, Apply(c, s, a).log, Apply(c, s, a).tasks[Actor(a)])
    ensures s.log <= Apply(c, s, a).log
  {
    match a
    case Admit(t) => AdmitExplains(c, s, t);
    case Subscribed(t) => CheckExplains(c, s, t);
    case EndForward(t, ok) =>
      assert forall id :: id in s.cache ==> id in s.log;
    case _ =>
  }

  lemma StepExplains(c: Config, s: State, a: Step, t: TaskId)
    requires Inv(c, s) && Enabled(s, a) && forall u :: 0 <= u < |s.tasks| ==> Explained(c, s.log, s.tasks[u])
    requires t < |Apply(c, s, a).tasks|
    ensures Explained(c, Apply(c, s, a).log, Apply(c, s, a).tasks[t])
  {
    if IsTaskStep(a) {
      TaskStepExplains(c, s, a);
      TaskStepMoves(c, s, a);
    }
  }

  /**
    In every state of every run each task's phase is explained by its event: only
    forwardable events forward, each skipped one is not, a suppressed or delivered message
    is recorded, and only tasks asked to cancel end cancelled.
    */
  lemma {:induction false} OutcomesAreExplained(c: Config, states: seq<State>, steps: seq<Step>, i: nat)
    requires Run(c, states, steps) && i < |states|
    ensures forall t :: 0 <= t < |states[i].tasks| ==> Explained(c, states[i].log, states[i].tasks[t])
  {
    if i > 0 {
      OutcomesAreExplained(c, states, steps, i - 1);
      RunKeeps(c, states, steps, i - 1);
      forall t | 0 <= t < |states[i].tasks| ensures Explained(c, states[i].log, states[i].tasks[t]) {
        StepExplains(c, states[i - 1], steps[i - 1], t);
      }
    }
  }

  /** A forward that returns leaves its message's id among the last MESSAGE_LIMIT recordings. */
  lemma DeliveryIsRecorded(c: Config, states: seq<State>, steps: seq<Step>, i: nat, t: TaskId, id: string)
    requires Run(c, states, steps) && i < |steps| && steps[i] == EndForward(t, true)
    requires MsgId(states[i].tasks[t].event) == Some(id)
    ensures Dedup.StillFresh(states[i + 1].log, id, Dedup.MESSAGE_LIMIT)
    ensures states[i].log <= states[i + 1].log
  {
    RunKeeps(c, states, steps, i);
    var log := states[i].log;
    assert states[i + 1].log == Dedup.Log(log, id, Dedup.MESSAGE_LIMIT);
    if id in Dedup.Window(log, Dedup.MESSAGE_LIMIT) {
      Dedup.WindowIsFresh(log, id, Dedup.MESSAGE_LIMIT);
    } else {
      assert (log + [id])[|log|] == id;
    }
  }

  // ---- recording ----------------------------------------------------------------------

  /** The step performs the dedup check of task `t`. */
  predicate Checks(s: State, a: Step, t: TaskId) {
    t < |s.tasks| &&
    (a == Subscribed(t) || (a == Admit(t) && !NeedsSubscription(s.tasks[t].event)))
  }

  /**
    A task checked while its id is among the last MESSAGE_LIMIT recordings is suppressed,
    for good: it never forwards.
    */
  lemma CachedIdsAreSuppressed(c: Config, states: seq<State>, steps: seq<Step>, i: nat, j: nat, t: TaskId, id: string)
    requires Run(c, states, steps) && i < j < |states|
    requires Checks(states[i], steps[i], t) && MsgId(states[i].tasks[t].event) == Some(id)
    requires Dedup.StillFresh(states[i].log, id, Dedup.MESSAGE_LIMIT)
    ensures t < |states[j].tasks| && states[j].tasks[t].phase == Settled(Suppressed)
  {
    RunKeeps(c, states, steps, i);
    Dedup.WindowIsFresh(states[i].log, id, Dedup.MESSAGE_LIMIT);
    SettledForever(c, states, steps, i + 1, j, t);
  }

  /** Whatever forwards was, at its check, not among the last MESSAGE_LIMIT recordings. */
  lemma ForwardsWereUnseen(c: Config, states: seq<State>, steps: seq<Step>, i: nat, t: TaskId)
    requires Run(c, states, steps) && i < |states| && InForward(states[i], t)
    requires MsgId(states[i].tasks[t].event).Some?
    ensures states[i].tasks[t].checkedAt <= |states[i].log|
    ensures !Dedup.StillFresh(states[i].log[..states[i].tasks[t].checkedAt],
                              MsgId(states[i].tasks[t].event).value, Dedup.MESSAGE_LIMIT)
  {
    RunKeeps(c, states, steps, i);
    var k := states[i].tasks[t];
    assert CheckedUnseen(states[i], k);
    Dedup.WindowIsFresh(states[i].log[..k.checkedAt], MsgId(k.event).value, Dedup.MESSAGE_LIMIT);
  }

  // ---- cancellation -------------------------------------------------------------------

  /** The unsettled tasks that were admitted for a room. */
  ghost function Admitted(s: State, room: RoomId): set<TaskId> {
    set t: TaskId | 0 <= t < |s.tasks| && Member(s, t) && s.tasks[t].event.room == room
  }

  /**
    `cancel(room)` reaches exactly the unsettled tasks admitted for the room, and leaves
    the gates, the map and every other task as they were.
    */
  lemma CancelReachesTheRoom(c: Config, states: seq<State>, steps: seq<Step>, i: nat, room: string)
    requires Run(c, states, steps) && i < |states|
    ensures Cancellable(states[i], room) == Admitted(states[i], Some(room))
    ensures var s, n := states[i], Apply(c, states[i], CancelRoom(room));
            && n == s.(tasks := n.tasks) && |n.tasks| == |s.tasks|
            && forall t :: 0 <= t < |s.tasks| ==>
                 n.tasks[t] == if t in Admitted(s, Some(room)) then s.tasks[t].(cancelled := true) else s.tasks[t]
  {
    RunKeeps(c, states, steps, i);
    var s := states[i];
    forall t: TaskId ensures t in Cancellable(s, room) <==> t in Admitted(s, Some(room)) {
      if Member(s, t) { assert Registered(s, t); }
      if t in Cancellable(s, room) {
        var g := s.rooms[Some(room)];
        assert Lists(s, g, t);
        assert s.rooms[s.tasks[t].event.room] == g;
      }
    }
  }

  /** Members of one room share one gate, and nobody else holds or takes it while one holds it. */
  lemma HolderKeepsOthersOut(c: Config, s: State, owner: TaskId, t: TaskId)
    requires Inv(c, s) && Member(s, owner) && Member(s, t) && owner != t
    requires s.tasks[owner].event.room == s.tasks[t].event.room
    ensures s.tasks[t].gate == s.tasks[owner].gate
    ensures Holds(s, owner) ==> !Holds(s, t) && !Enabled(s, TakeLock(t))
  {
    assert Registered(s, owner) && Registered(s, t);
    var g := s.tasks[owner].gate;
    assert HeldBy(s, g, owner) <==> Holds(s, owner);
    assert HeldBy(s, g, t) <==> Holds(s, t);
  }

  /** A task keeps its event. */
  lemma {:induction false} EventsStay(c: Config, states: seq<State>, steps: seq<Step>, i: nat, j: nat, t: TaskId)
    requires Run(c, states, steps) && i <= j < |states| && t < |states[i].tasks|
    ensures t < |states[j].tasks| && states[j].tasks[t].event == states[i].tasks[t].event
    decreases j
  {
    if i < j {
      EventsStay(c, states, steps, i, j - 1, t);
      RunKeeps(c, states, steps, j - 1);
      StepOnTask(c, states[j - 1], steps[j - 1], t);
    }
  }

  /**
    A task admitted while a room still has an owner shares that owner's gate for as long as
    both are in the room, and in none of those states holds the lock or can take it while
    the owner holds it.
    */
  lemma LateArrivalSharesTheGate(c: Config, states: seq<State>, steps: seq<Step>, i: nat, j: nat, owner: TaskId, t: TaskId)
    requires Run(c, states, steps) && i < |steps| && steps[i] == Admit(t)
    requires Member(states[i], owner) && states[i].tasks[owner].event.room == states[i].tasks[t].event.room
    requires i < j < |states| && Member(states[j], owner) && Member(states[j], t)
    ensures states[j].tasks[t].gate == states[j].tasks[owner].gate
    ensures Holds(states[j], owner) ==> !Holds(states[j], t) && !Enabled(states[j], TakeLock(t))
  {
    RunKeeps(c, states, steps, j);
    EventsStay(c, states, steps, i, j, owner);
    EventsStay(c, states, steps, i, j, t);
    HolderKeepsOthersOut(c, states[j], owner, t);
  }

  /** A cancelled task does nothing more: it waits where it was, then settles as cancelled. */
  lemma {:induction false} CancelledNeverForwards(c: Config, states: seq<State>, steps: seq<Step>, i: nat, j: nat, t: TaskId)
    requires Run(c, states, steps) && i <= j < |states|
    requires Unsettled(states[i], t) && states[i].tasks[t].cancelled
    ensures t < |states[j].tasks| && states[j].tasks[t].cancelled
    ensures states[j].tasks[t].phase == states[i].tasks[t].phase || states[j].tasks[t].phase == Settled(Cancelled)
    decreases j
  {
    if i < j {
      CancelledNeverForwards(c, states, steps, i, j - 1, t);
      RunKeeps(c, states, steps, j - 1);
      StepOnTask(c, states[j - 1], steps[j - 1], t);
    }
  }

  // ---- ownership, as the RoomForwards object keeps it ---------------------------------

  ghost function Ownership(s: State): Rooms.Ownership
    requires Mapped(s)
  {
    map r | r in s.rooms :: s.gates[s.rooms[r]].tasks
  }

  /** Entering `accepted` in the protocol is what `RoomForwards.Accept` does. */
  lemma RegisterMatchesAccept(s: State, t: TaskId)
    requires Owned(s) && Mapped(s) && Unsettled(s, t) && s.tasks[t].phase.Created?
    ensures Mapped(Register(s, t))
    ensures Ownership(Register(s, t)) == Joined(Ownership(s), s.tasks[t].event.room, t)
  {
    RegisterKeepsOwned(s, t);
  }

  /** Leaving it is what `RoomForwards.Settle` does, under that method's precondition. */
  lemma SettleMatchesSettle(s: State, t: TaskId, outcome: Outcome)
    requires Owned(s) && Mapped(s) && Member(s, t)
    ensures Registered(s, t) && Mapped(Settle(s, t, outcome))
    ensures Ownership(Settle(s, t, outcome)) == Left(Ownership(s), s.tasks[t].event.room, t)
  {
    SettleKeepsOwned(s, t, outcome);
    var room := s.tasks[t].event.room;
    var n := Settle(s, t, outcome);
    forall r | r in n.rooms && r != room
      ensures n.gates[n.rooms[r]].tasks == s.gates[s.rooms[r]].tasks
    {
      assert n.rooms[r] != s.rooms[room];
    }
  }

  // ---- quiescence ---------------------------------------------------------------------

  /**
    Once the consume loop is left, every task it spawned has settled.  This rests on what
    `FinishDrain` and `MaySpawn` take over from the source: `gather` returns only when its
    tasks are done, and only the consume loop spawns tasks of its own.
    */
  lemma ConsumeLeavesNothing(c: Config, states: seq<State>, steps: seq<Step>, i: nat)
    requires Run(c, states, steps) && i < |states|
    requires !states[i].runner.Consuming? && !states[i].runner.Draining?
    ensures AllSettled(states[i], FromLoop)
  {
    RunKeeps(c, states, steps, i);
  }

  /** With no unsettled task, no room is owned, no lock is set and every permit is free. */
  lemma SettledMeansEmpty(c: Config, s: State)
    requires Inv(c, s) && forall t :: !Unsettled(s, t)
    ensures s.rooms == map[] && s.permits == c.capacity
    ensures forall g :: 0 <= g < |s.gates| ==> !s.gates[g].locked && s.gates[g].tasks == {}
  {
    forall r | r in s.rooms ensures false {
      var t :| t in s.gates[s.rooms[r]].tasks;
      assert Lists(s, s.rooms[r], t);
    }
    forall g | 0 <= g < |s.gates| ensures !s.gates[g].locked && s.gates[g].tasks == {} {
      assert forall t :: t in s.gates[g].tasks ==> Lists(s, g, t);
      assert forall t :: HeldBy(s, g, t) ==> Unsettled(s, t);
    }
    if Weigh(s.tasks, ForwardWeight) > 0 {
      var t := WeighPositive(s.tasks, ForwardWeight);
      assert Unsettled(s, t);
    }
  }

  /** After `run` has exited and `close` has completed no gate remains. */
  lemma ClosedIsEmpty(c: Config, states: seq<State>, steps: seq<Step>, i: nat)
    requires Run(c, states, steps) && i < |states| && states[i].runner.Closed?
    ensures states[i].rooms == map[] && states[i].permits == c.capacity
    ensures forall t :: !Unsettled(states[i], t)
  {
    RunKeeps(c, states, steps, i);
    var s := states[i];
    forall t: TaskId ensures !Unsettled(s, t) {
      if t < |s.tasks| {
        match s.tasks[t].origin
        case FromLoop =>
        case FromRehydration =>
        case FromControl =>
      }
    }
    SettledMeansEmpty(c, s);
  }
}
