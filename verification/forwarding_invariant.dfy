/** What every step of the forwarding protocol keeps. */
module ForwardingInvariant {
  import opened Options
  import opened Rooms
  import opened Forwarding
  import Dedup

  // ---- the invariant ------------------------------------------------------------------

  predicate Lists(s: State, g: nat, t: TaskId) {
    g < |s.gates| && t in s.gates[g].tasks
  }

  /** Members are exactly the listed owners of the mapped gates. */
  ghost predicate Owned(s: State) {
    && (forall t: TaskId :: Member(s, t) ==> Registered(s, t))
    && (forall g: nat, t: TaskId :: Lists(s, g, t) ==> Member(s, t) && s.tasks[t].gate == g)
  }

  /** A mapped gate exists, has an owner, and serves one room. */
  ghost predicate Mapped(s: State) {
    && (forall r :: r in s.rooms ==> s.rooms[r] < |s.gates| && s.gates[s.rooms[r]].tasks != {})
    && (forall r, q :: r in s.rooms && q in s.rooms && s.rooms[r] == s.rooms[q] ==> r == q)
  }

  ghost predicate HeldBy(s: State, g: nat, t: TaskId) {
    Holds(s, t) && s.tasks[t].gate == g
  }

  /** A lock is set exactly while one task holds it. */
  ghost predicate Locked(s: State) {
    && (forall g, t, u :: HeldBy(s, g, t) && HeldBy(s, g, u) ==> t == u)
    && (forall g :: 0 <= g < |s.gates| ==> (s.gates[g].locked <==> exists t :: HeldBy(s, g, t)))
  }

  function ForwardWeight(p: Phase): nat { if p.Forwarding? then 1 else 0 }

  /** The sum of a weight over all tasks. */
  ghost function Weigh(tasks: seq<Task>, w: Phase -> nat): nat {
    if tasks == [] then 0 else Weigh(tasks[..|tasks| - 1], w) + w(tasks[|tasks| - 1].phase)
  }

  /** Free permits and forwarding tasks add up to the capacity. */
  ghost predicate Conserved(c: Config, s: State) {
    s.permits >= 0 && s.permits + Weigh(s.tasks, ForwardWeight) == c.capacity
  }

  ghost predicate DeliveredId(s: State, t: TaskId, id: string) {
    t < |s.tasks| && s.tasks[t].phase == Settled(Delivered) && MsgId(s.tasks[t].event) == Some(id)
  }

  /** The task went through the dedup check and was let on. */
  predicate PassedCheck(k: Task) {
    match k.phase
    case WaitingLock => true
    case WaitingCapacity => true
    case Forwarding => true
    case Settled(o) => o.Delivered? || o.Failed?
    case _ => false
  }

  /** The task's id was not among the last MESSAGE_LIMIT recordings when it was checked. */
  ghost predicate CheckedUnseen(s: State, k: Task) {
    && k.checkedAt <= |s.log|
    && (MsgId(k.event).Some? ==>
          MsgId(k.event).value !in Dedup.Window(s.log[..k.checkedAt], Dedup.MESSAGE_LIMIT))
  }

  ghost predicate Recorded(s: State) {
    && s.cache == Dedup.Window(s.log, Dedup.MESSAGE_LIMIT) && Dedup.Distinct(s.cache)
    && (forall id :: id in s.log ==> exists t :: DeliveredId(s, t, id))
    && (forall t :: 0 <= t < |s.tasks| && s.tasks[t].phase == Settled(Suppressed) ==>
          MsgId(s.tasks[t].event).Some? && exists u :: DeliveredId(s, u, MsgId(s.tasks[t].event).value))
    && (forall t :: 0 <= t < |s.tasks| && PassedCheck(s.tasks[t]) ==> CheckedUnseen(s, s.tasks[t]))
  }

  /** Whoever waits for a group of tasks moves on only when the group has settled. */
  ghost predicate Awaited(s: State) {
    && (!s.runner.Consuming? && !s.runner.Draining? ==> AllSettled(s, FromLoop))
    && (!s.runner.Rehydrating? && !s.runner.Draining? ==> AllSettled(s, FromRehydration))
    && (s.runner.Closed? ==> AllSettled(s, FromControl))
  }

  ghost predicate Inv(c: Config, s: State) {
    Owned(s) && Mapped(s) && Locked(s) && Conserved(c, s) && Recorded(s) && Awaited(s)
  }

  // ---- counting -----------------------------------------------------------------------

  lemma {:induction false} WeighUpdate(tasks: seq<Task>, i: nat, k: Task, w: Phase -> nat)
    requires i < |tasks|
    ensures Weigh(tasks[i := k], w) == Weigh(tasks, w) - w(tasks[i].phase) + w(k.phase)
    ensures Weigh(tasks, w) >= w(tasks[i].phase)
  {
    var n := |tasks| - 1;
    var updated := tasks[i := k];
    if i < n {
      WeighUpdate(tasks[..n], i, k, w);
      assert updated[..n] == tasks[..n][i := k];
    } else {
      assert updated[..n] == tasks[..n];
    }
  }

  lemma WeighAppend(tasks: seq<Task>, k: Task, w: Phase -> nat)
    ensures Weigh(tasks + [k], w) == Weigh(tasks, w) + w(k.phase)
  {
    assert (tasks + [k])[..|tasks|] == tasks;
  }

  lemma {:induction false} WeighSame(a: seq<Task>, b: seq<Task>, w: Phase -> nat)
    requires |a| == |b| && forall i :: 0 <= i < |a| ==> a[i].phase == b[i].phase
    ensures Weigh(a, w) == Weigh(b, w)
  {
    if a != [] {
      WeighSame(a[..|a| - 1], b[..|b| - 1], w);
    }
  }

  lemma {:induction false} WeighPositive(tasks: seq<Task>, w: Phase -> nat) returns (i: nat)
    requires Weigh(tasks, w) > 0
    ensures i < |tasks| && w(tasks[i].phase) > 0
  {
    var n := |tasks| - 1;
    if w(tasks[n].phase) > 0 {
      i := n;
    } else {
      i := WeighPositive(tasks[..n], w);
    }
  }

  // ---- the pieces ---------------------------------------------------------------------

  lemma RegisterKeepsOwned(s: State, t: TaskId)
    requires Owned(s) && Mapped(s) && Unsettled(s, t) && s.tasks[t].phase.Created?
    ensures Owned(Register(s, t)) && Mapped(Register(s, t))
  {
    var n := Register(s, t);
    var room := s.tasks[t].event.room;
    var g := n.rooms[room];
    assert forall h, u :: Lists(n, h, u) <==> Lists(s, h, u) || (h == g && u == t);
    assert forall u :: Member(n, u) <==> Member(s, u) || u == t;
    forall u: TaskId | Member(n, u) ensures Registered(n, u) {
      if u != t {
        assert Member(s, u) && Registered(s, u);
      } else {
        assert Lists(n, g, t);
      }
    }
    forall h: nat, u: TaskId | Lists(n, h, u) ensures Member(n, u) && n.tasks[u].gate == h {
      assert u == t || Lists(s, h, u);
      assert !Lists(s, h, t);
    }
    forall r | r in n.rooms ensures n.rooms[r] < |n.gates| && n.gates[n.rooms[r]].tasks != {} {
      if n.rooms[r] == g {
        assert t in n.gates[g].tasks;
      }
    }
  }

  lemma RegisterKeeps(c: Config, s: State, t: TaskId)
    requires Inv(c, s) && Unsettled(s, t) && s.tasks[t].phase.Created?
    ensures Inv(c, Register(s, t)) && Member(Register(s, t), t)
  {
    var n := Register(s, t);
    WeighUpdate(s.tasks, t, n.tasks[t], ForwardWeight);
    RegisterKeepsOwned(s, t);
    RegisterKeepsLocked(s, t);
    RecordedKeeps(s, n, t);
  }

  lemma RegisterKeepsLocked(s: State, t: TaskId)
    requires Owned(s) && Mapped(s) && Locked(s) && Unsettled(s, t) && s.tasks[t].phase.Created?
    ensures Locked(Register(s, t))
  {
    var n := Register(s, t);
    assert forall h, u :: HeldBy(n, h, u) <==> HeldBy(s, h, u);
    forall u: TaskId | Holds(s, u) ensures s.tasks[u].gate < |s.gates| {
      assert Member(s, u) && Registered(s, u);
    }
  }

  /** Changing one task that is neither delivered before nor suppressed after. */
  lemma RecordedKeeps(s: State, n: State, t: TaskId)
    requires Recorded(s) && t < |s.tasks| && n.cache == s.cache && n.log == s.log
    requires |n.tasks| == |s.tasks| && forall u :: 0 <= u < |s.tasks| && u != t ==> n.tasks[u] == s.tasks[u]
    requires s.tasks[t].phase != Settled(Delivered)
    requires n.tasks[t].phase == Settled(Suppressed) ==>
               MsgId(n.tasks[t].event).Some? && MsgId(n.tasks[t].event).value in s.log
    requires PassedCheck(n.tasks[t]) ==> CheckedUnseen(n, n.tasks[t])
    ensures Recorded(n)
  {
    assert forall u, id :: DeliveredId(s, u, id) ==> DeliveredId(n, u, id);
  }

  lemma SettleKeeps(c: Config, s: State, t: TaskId, outcome: Outcome)
    requires Inv(c, s) && Member(s, t)
    requires outcome.Delivered? || outcome.Failed? ==> s.tasks[t].phase.Forwarding?
    requires outcome.Suppressed? ==> MsgId(s.tasks[t].event).Some? && MsgId(s.tasks[t].event).value in s.cache
    ensures Inv(c, Settle(s, t, outcome))
  {
    var n := Settle(s, t, outcome);
    var k := s.tasks[t];
    WeighUpdate(s.tasks, t, n.tasks[t], ForwardWeight);
    SettleKeepsOwned(s, t, outcome);
    SettleKeepsLocked(s, t, outcome);
    SettleKeepsRecorded(s, t, outcome);
  }

  lemma SettleKeepsOwned(s: State, t: TaskId, outcome: Outcome)
    requires Owned(s) && Mapped(s) && Member(s, t)
    ensures Owned(Settle(s, t, outcome)) && Mapped(Settle(s, t, outcome))
  {
    var n := Settle(s, t, outcome);
    var k := s.tasks[t];
    forall g: nat, u: TaskId ensures Lists(n, g, u) <==> Lists(s, g, u) && u != t {
      assert Lists(s, g, t) ==> g == k.gate;
      if g == k.gate { assert n.gates[g].tasks == s.gates[g].tasks - {t}; }
    }
    assert forall u :: Member(n, u) <==> Member(s, u) && u != t;
    forall u: TaskId | Member(n, u) ensures Registered(n, u) {
      assert Member(s, u) && Registered(s, u);
      assert Lists(s, s.tasks[u].gate, u);
    }
  }

  lemma SettleKeepsLocked(s: State, t: TaskId, outcome: Outcome)
    requires Owned(s) && Locked(s) && Member(s, t)
    ensures Locked(Settle(s, t, outcome))
  {
    var n := Settle(s, t, outcome);
    assert forall g, u :: HeldBy(n, g, u) <==> u != t && HeldBy(s, g, u);
    forall g | 0 <= g < |n.gates|
      ensures n.gates[g].locked <==> exists u :: HeldBy(n, g, u)
    {
      if g == s.tasks[t].gate && Holds(s, t) {
        assert HeldBy(s, g, t);
      } else if s.gates[g].locked {
        var u :| HeldBy(s, g, u);
        assert HeldBy(n, g, u);
      }
    }
  }

  lemma SettleKeepsRecorded(s: State, t: TaskId, outcome: Outcome)
    requires Recorded(s) && Member(s, t) && Registered(s, t)
    requires outcome.Delivered? || outcome.Failed? ==> s.tasks[t].phase.Forwarding?
    requires outcome.Suppressed? ==> MsgId(s.tasks[t].event).Some? && MsgId(s.tasks[t].event).value in s.cache
    ensures Recorded(Settle(s, t, outcome))
  {
    var n := Settle(s, t, outcome);
    var id := MsgId(s.tasks[t].event);
    assert outcome.Suppressed? ==> id.value in s.log;
    if outcome.Delivered? && id.Some? {
      Dedup.RememberTracksWindow(s.cache, s.log, id.value, Dedup.MESSAGE_LIMIT);
      assert DeliveredId(n, t, id.value);
    }
    assert forall u, m :: DeliveredId(s, u, m) ==> DeliveredId(n, u, m);
    assert s.log <= n.log;
    forall u | 0 <= u < |n.tasks| && PassedCheck(n.tasks[u]) ensures CheckedUnseen(n, n.tasks[u]) {
      assert PassedCheck(s.tasks[u]) && CheckedUnseen(s, s.tasks[u]);
      assert n.log[..s.tasks[u].checkedAt] == s.log[..s.tasks[u].checkedAt];
    }
  }

  /** Moving a task between phases that hold the same lock and permit, gates untouched. */
  lemma MoveKeeps(s: State, n: State, t: TaskId)
    requires Owned(s) && Mapped(s) && t < |s.tasks|
    requires |n.tasks| == |s.tasks| && |n.gates| == |s.gates| && n.rooms == s.rooms
    requires forall u :: 0 <= u < |s.tasks| && u != t ==> n.tasks[u] == s.tasks[u]
    requires forall g :: 0 <= g < |s.gates| ==> n.gates[g].tasks == s.gates[g].tasks
    requires n.tasks[t].gate == s.tasks[t].gate && n.tasks[t].event == s.tasks[t].event
    requires Member(n, t) == Member(s, t)
    ensures Owned(n) && Mapped(n)
  {
    forall u: TaskId | Member(n, u) ensures Registered(n, u) { assert Member(s, u) && Registered(s, u); }
    assert forall g, u :: Lists(n, g, u) <==> Lists(s, g, u);
    assert forall u :: Member(n, u) <==> Member(s, u);
  }

  lemma CheckKeeps(c: Config, s: State, t: TaskId)
    requires Inv(c, s) && Member(s, t) && s.tasks[t].phase.Subscribing?
    ensures Inv(c, Check(c, s, t))
  {
    var e := s.tasks[t].event;
    var id := MsgId(e);
    if id.Some? && id.value in s.cache {
      SettleKeeps(c, s, t, Suppressed);
    } else if !Forwardable(c, e) {
      SettleKeeps(c, s, t, Skipped);
    } else {
      var n := Check(c, s, t);
      WeighUpdate(s.tasks, t, n.tasks[t], ForwardWeight);
      MoveKeeps(s, n, t);
      assert forall g, u :: HeldBy(n, g, u) <==> HeldBy(s, g, u);
      assert s.log[..|s.log|] == s.log;
      RecordedKeeps(s, n, t);
    }
  }

  lemma TakeLockKeeps(c: Config, s: State, t: TaskId)
    requires Inv(c, s) && Enabled(s, TakeLock(t))
    ensures Inv(c, Apply(c, s, TakeLock(t)))
  {
    var n := Apply(c, s, TakeLock(t));
    var g := s.tasks[t].gate;
    WeighUpdate(s.tasks, t, n.tasks[t], ForwardWeight);
    MoveKeeps(s, n, t);
    assert forall u :: !HeldBy(s, g, u);
    assert forall h, u :: HeldBy(n, h, u) <==> (HeldBy(s, h, u) || (h == g && u == t));
    assert HeldBy(n, g, t);
    RecordedKeeps(s, n, t);
  }

  lemma TakePermitKeeps(c: Config, s: State, t: TaskId)
    requires Inv(c, s) && Enabled(s, TakePermit(t))
    ensures Inv(c, Apply(c, s, TakePermit(t)))
  {
    var n := Apply(c, s, TakePermit(t));
    WeighUpdate(s.tasks, t, n.tasks[t], ForwardWeight);
    MoveKeeps(s, n, t);
    assert forall h, u :: HeldBy(n, h, u) <==> HeldBy(s, h, u);
    RecordedKeeps(s, n, t);
  }

  /** A task that never entered `accepted` settles. */
  lemma DropKeeps(c: Config, s: State, t: TaskId, outcome: Outcome)
    requires Inv(c, s) && Unsettled(s, t) && !Member(s, t) && (outcome.NoBacklog? || outcome.Cancelled?)
    ensures Inv(c, SetPhase(s, t, Settled(outcome)))
  {
    var n := SetPhase(s, t, Settled(outcome));
    WeighUpdate(s.tasks, t, n.tasks[t], ForwardWeight);
    MoveKeeps(s, n, t);
    assert forall h, u :: HeldBy(n, h, u) <==> HeldBy(s, h, u);
    RecordedKeeps(s, n, t);
  }

  lemma MarkKeeps(c: Config, s: State, group: set<TaskId>)
    requires Inv(c, s)
    ensures Inv(c, Mark(s, group))
  {
    var n := Mark(s, group);
    WeighSame(s.tasks, n.tasks, ForwardWeight);
    forall u: TaskId | Member(n, u) ensures Registered(n, u) { assert Member(s, u); }
    assert forall h, u :: Lists(n, h, u) <==> Lists(s, h, u);
    assert forall h, u :: HeldBy(n, h, u) <==> HeldBy(s, h, u);
    assert forall u, id :: DeliveredId(n, u, id) <==> DeliveredId(s, u, id);
    forall u | 0 <= u < |n.tasks| && PassedCheck(n.tasks[u]) ensures CheckedUnseen(n, n.tasks[u]) {
      assert CheckedUnseen(s, s.tasks[u]);
    }
  }

  lemma SpawnKeeps(c: Config, s: State, origin: Origin, event: Event)
    requires Inv(c, s) && MaySpawn(s, origin)
    ensures Inv(c, Apply(c, s, Spawn(origin, event)))
  {
    var n := Apply(c, s, Spawn(origin, event));
    WeighAppend(s.tasks, n.tasks[|s.tasks|], ForwardWeight);
    forall u: TaskId | Member(n, u) ensures Registered(n, u) { assert Member(s, u); }
    assert forall h, u :: Lists(n, h, u) <==> Lists(s, h, u);
    assert forall h, u :: HeldBy(n, h, u) <==> HeldBy(s, h, u);
    assert forall u, id :: DeliveredId(n, u, id) <==> DeliveredId(s, u, id);
  }

  lemma RunnerKeeps(c: Config, s: State, r: Runner)
    requires Inv(c, s) && Awaited(s.(runner := r))
    ensures Inv(c, s.(runner := r))
  {
    var n := s.(runner := r);
    forall u: TaskId | Member(n, u) ensures Registered(n, u) { assert Member(s, u); }
    assert forall h, u :: Lists(n, h, u) <==> Lists(s, h, u);
    assert forall h, u :: HeldBy(n, h, u) <==> HeldBy(s, h, u);
    assert forall u, id :: DeliveredId(n, u, id) <==> DeliveredId(s, u, id);
    forall u | 0 <= u < |n.tasks| && PassedCheck(n.tasks[u]) ensures CheckedUnseen(n, n.tasks[u]) {
      assert CheckedUnseen(s, s.tasks[u]);
    }
  }

  /** Every step keeps the invariant. */
  lemma StepKeeps(c: Config, s: State, a: Step)
    requires Inv(c, s) && Enabled(s, a)
    ensures Inv(c, Apply(c, s, a))
  {
    match a
    case Admit(t) =>
      RegisterKeeps(c, s, t);
      if !NeedsSubscription(s.tasks[t].event) {
        CheckKeeps(c, Register(s, t), t);
      }
    case Withdraw(t) => DropKeeps(c, s, t, NoBacklog);
    case Subscribed(t) => CheckKeeps(c, s, t);
    case TakeLock(t) => TakeLockKeeps(c, s, t);
    case TakePermit(t) => TakePermitKeeps(c, s, t);
    case EndForward(t, ok) => SettleKeeps(c, s, t, if ok then Delivered else Failed);
    case DeliverCancel(t) =>
      if Member(s, t) {
        SettleKeeps(c, s, t, Cancelled);
      } else {
        DropKeeps(c, s, t, Cancelled);
      }
    case Spawn(origin, event) => SpawnKeeps(c, s, origin, event);
    case CancelRoom(room) => MarkKeeps(c, s, Cancellable(s, room));
    case LeaveConsume =>
      var group := Spawned(s, if s.runner.Consuming? then FromLoop else FromRehydration);
      MarkKeeps(c, s, group);
      RunnerKeeps(c, Mark(s, group), Draining);
    case CancelNudges =>
      MarkKeeps(c, s, Spawned(s, FromControl));
      RunnerKeeps(c, Mark(s, Spawned(s, FromControl)), Closing);
    case _ => RunnerKeeps(c, s, Apply(c, s, a).runner);
  }

  /** Every state of every run satisfies the invariant. */
  lemma {:induction false} RunKeeps(c: Config, states: seq<State>, steps: seq<Step>, i: nat)
    requires Run(c, states, steps) && i < |states|
    ensures Inv(c, states[i])
  {
    if i > 0 {
      RunKeeps(c, states, steps, i - 1);
      StepKeeps(c, states[i - 1], steps[i - 1]);
    }
  }
}
