/** Liveness of the forwarding protocol: no deadlock, and every run of task steps drains. */
module ForwardingDrain {
  import opened Options
  import opened Rooms
  import opened Forwarding
  import opened ForwardingInvariant
  import opened ForwardingSafety

  ghost function Measure(s: State): nat {
    Weigh(s.tasks, Rank)
  }

  /** Each resumption moves its task, and only its task, closer to settling. */
  lemma TaskStepDescends(c: Config, s: State, a: Step)
    requires Inv(c, s) && Enabled(s, a) && IsTaskStep(a)
    ensures Measure(Apply(c, s, a)) < Measure(s)
  {
    var t := Actor(a);
    var n := Apply(c, s, a);
    TaskStepMoves(c, s, a);
    WeighUpdate(s.tasks, t, n.tasks[t], Rank);
  }

  /** Deadlock freedom: while a task is unsettled, some task can resume. */
  lemma SomeTaskResumes(c: Config, s: State, t: TaskId) returns (a: Step)
    requires Inv(c, s) && c.capacity >= 1 && Unsettled(s, t)
    ensures IsTaskStep(a) && Enabled(s, a)
  {
    if s.tasks[t].cancelled {
      return DeliverCancel(t);
    }
    match s.tasks[t].phase
    case Created => return Admit(t);
    case Subscribing => return Subscribed(t);
    case WaitingLock =>
      var g := s.tasks[t].gate;
      assert Registered(s, t);
      if s.gates[g].locked {
        var h :| HeldBy(s, g, h);
        a := HolderResumes(c, s, h);
      } else {
        return TakeLock(t);
      }
    case WaitingCapacity => a := HolderResumes(c, s, t);
    case Forwarding => a := HolderResumes(c, s, t);
  }

  /** A lock holder resumes, or waits for a forward that does. */
  lemma HolderResumes(c: Config, s: State, h: TaskId) returns (a: Step)
    requires Inv(c, s) && c.capacity >= 1 && Holds(s, h)
    ensures IsTaskStep(a) && Enabled(s, a)
  {
    assert Registered(s, h);
    if s.tasks[h].cancelled {
      return DeliverCancel(h);
    } else if s.tasks[h].phase.Forwarding? {
      return EndForward(h, true);
    } else if s.permits > 0 {
      return TakePermit(h);
    }
    var f := WeighPositive(s.tasks, ForwardWeight);
    assert Registered(s, f);
    return if s.tasks[f].cancelled then DeliverCancel(f) else EndForward(f, true);
  }

  /** A state in which one room's only task is at the given phase, and no permit is left. */
  function Alone(phase: Phase, gates: seq<Gate>): State {
    var e := Event(Message, Some("room"), Some("m"));
    State([Task(FromLoop, e, phase, 0, false, 0)], gates,
          if gates == [] then map[] else map[e.room := 0], 0, [], [], Consuming)
  }

  lemma AloneArrives(c: Config)
    requires c.capacity == 0
    ensures var idle := Init(c).(runner := Consuming);
            var arrival := Spawn(FromLoop, Alone(Created, []).tasks[0].event);
            Enabled(idle, arrival) && Apply(c, idle, arrival) == Alone(Created, [])
  {
  }

  lemma AloneIsAdmitted(c: Config)
    requires !c.messagesOnly
    ensures Enabled(Alone(Created, []), Admit(0))
    ensures Apply(c, Alone(Created, []), Admit(0)) == Alone(WaitingLock, [Gate(false, {0})])
  {
    var s := Alone(Created, []);
    var joined := Register(s, 0);
    assert {} + {0} == {0};
    assert joined.gates == [Gate(false, {})][0 := Gate(false, {} + {0})] == [Gate(false, {0})];
    assert joined.tasks == [s.tasks[0].(phase := Subscribing)];
    assert Check(c, joined, 0).tasks == Alone(WaitingLock, [Gate(false, {0})]).tasks;
    assert joined.rooms == Alone(WaitingLock, [Gate(false, {0})]).rooms;
  }

  lemma AloneTakesTheLock(c: Config)
    ensures var s := Alone(WaitingLock, [Gate(false, {0})]);
            Enabled(s, TakeLock(0)) && Apply(c, s, TakeLock(0)) == Alone(WaitingCapacity, [Gate(true, {0})])
  {
  }

  lemma AloneIsStuck(a: Step)
    requires IsTaskStep(a)
    ensures !Enabled(Alone(WaitingCapacity, [Gate(true, {0})]), a)
  {
  }

  /** With no capacity the protocol does deadlock: here a room's only task waits for good. */
  lemma ZeroCapacityDeadlocks() returns (c: Config, states: seq<State>, steps: seq<Step>)
    ensures c.capacity == 0 && Run(c, states, steps) && Unsettled(states[|steps|], 0)
    ensures forall a :: IsTaskStep(a) ==> !Enabled(states[|steps|], a)
  {
    c := Config(0, false);
    var arrived := Alone(Created, []);
    steps := [Connect, FinishRehydration, Spawn(FromLoop, arrived.tasks[0].event), Admit(0), TakeLock(0)];
    states := [Init(c), Init(c).(runner := Rehydrating), Init(c).(runner := Consuming), arrived,
               Alone(WaitingLock, [Gate(false, {0})]), Alone(WaitingCapacity, [Gate(true, {0})])];
    AloneArrives(c);
    AloneIsAdmitted(c);
    AloneTakesTheLock(c);
    forall a | IsTaskStep(a) ensures !Enabled(states[5], a) {
      AloneIsStuck(a);
    }
  }

  function Resumptions(steps: seq<Step>): nat {
    if steps == [] then 0
    else Resumptions(steps[..|steps| - 1]) + if IsTaskStep(steps[|steps| - 1]) then 1 else 0
  }

  function Spawns(steps: seq<Step>): nat {
    if steps == [] then 0
    else Spawns(steps[..|steps| - 1]) + if steps[|steps| - 1].Spawn? then 1 else 0
  }

  /** A step pays for itself: only an arrival adds work, and no more than one task's worth. */
  lemma StepPays(c: Config, s: State, a: Step)
    requires Inv(c, s) && Enabled(s, a)
    ensures Measure(Apply(c, s, a)) + (if IsTaskStep(a) then 1 else 0) <= Measure(s) + (if a.Spawn? then 5 else 0)
  {
    var n := Apply(c, s, a);
    if IsTaskStep(a) {
      TaskStepDescends(c, s, a);
    } else if a.Spawn? {
      WeighAppend(s.tasks, n.tasks[|s.tasks|], Rank);
    } else {
      WeighSame(s.tasks, n.tasks, Rank);
    }
  }

  /**
    Whatever is interleaved with it - arrivals, control signals, reconnects, shutdown - the
    work done in a stretch is bounded by what was there and what arrived.
    */
  lemma {:induction false} WorkIsBounded(c: Config, states: seq<State>, steps: seq<Step>, i: nat)
    requires Path(c, states, steps) && Inv(c, states[0]) && i < |states|
    ensures Inv(c, states[i])
    ensures Resumptions(steps[..i]) + Measure(states[i]) <= Measure(states[0]) + 5 * Spawns(steps[..i])
  {
    if i > 0 {
      WorkIsBounded(c, states, steps, i - 1);
      StepKeeps(c, states[i - 1], steps[i - 1]);
      StepPays(c, states[i - 1], steps[i - 1]);
      assert steps[..i][..i - 1] == steps[..i - 1];
    }
  }

  /** A whole run takes at most five resumptions for every task spawned. */
  lemma RunsAreBounded(c: Config, states: seq<State>, steps: seq<Step>)
    requires Run(c, states, steps)
    ensures Resumptions(steps) <= 5 * Spawns(steps)
  {
    RunKeeps(c, states, steps, 0);
    WorkIsBounded(c, states, steps, |steps|);
    assert steps[..|steps|] == steps;
  }

  /**
    Drain: every stretch of a run that ends where no task can resume, whatever its steps and
    their order, has done its bounded work and ends with every task settled, no room owned
    and every permit free.
    */
  lemma EveryScheduleDrains(c: Config, states: seq<State>, steps: seq<Step>)
    requires Path(c, states, steps) && Inv(c, states[0]) && c.capacity >= 1
    requires forall a :: IsTaskStep(a) ==> !Enabled(states[|steps|], a)
    ensures Resumptions(steps) <= Measure(states[0]) + 5 * Spawns(steps)
    ensures states[|steps|].rooms == map[] && states[|steps|].permits == c.capacity
    ensures forall t :: !Unsettled(states[|steps|], t)
  {
    WorkIsBounded(c, states, steps, |steps|);
    assert steps[..|steps|] == steps;
    var last := states[|steps|];
    forall t: TaskId ensures !Unsettled(last, t) {
      if Unsettled(last, t) {
        var a := SomeTaskResumes(c, last, t);
      }
    }
    SettledMeansEmpty(c, last);
  }

  /** A stretch of a run in which only admitted work proceeds: no arrivals, no signals. */
  ghost predicate WorkOnly(c: Config, states: seq<State>, steps: seq<Step>) {
    Path(c, states, steps) && Inv(c, states[0]) && forall i :: 0 <= i < |steps| ==> IsTaskStep(steps[i])
  }

  /** And from every reachable state work alone can get there. */
  lemma {:induction false} SomeScheduleDrains(c: Config, s: State) returns (states: seq<State>, steps: seq<Step>)
    requires Inv(c, s) && c.capacity >= 1
    ensures WorkOnly(c, states, steps) && states[0] == s
    ensures states[|steps|].rooms == map[] && states[|steps|].permits == c.capacity
    decreases Measure(s)
  {
    if t: TaskId :| Unsettled(s, t) {
      var a := SomeTaskResumes(c, s, t);
      StepKeeps(c, s, a);
      TaskStepDescends(c, s, a);
      states, steps := SomeScheduleDrains(c, Apply(c, s, a));
      var rest, later := states, steps;
      states, steps := [s] + rest, [a] + later;
      assert states[|steps|] == rest[|later|];
      forall i | 0 <= i < |steps|
        ensures Enabled(states[i], steps[i]) && states[i + 1] == Apply(c, states[i], steps[i])
      {
        assert i > 0 ==> steps[i] == later[i - 1] && states[i + 1] == rest[i];
      }
    } else {
      states, steps := [s], [];
      SettledMeansEmpty(c, s);
    }
  }
}
