/**
  The bridge's forwarding protocol (bridge.py over dispatch.py and control.py) as a step
  system.  A step is what one asyncio task does between two suspensions; every
  interleaving of such steps is a run.  Cancellation is a mark, delivered when the task
  resumes; `except Exception` never catches it.
  */
module Forwarding {
  import opened Options
  import opened Rooms
  import Dedup

  datatype EventKind = Message | RoomAdded | RoomGone | OtherForwardable | Unforwardable
  datatype Event = Event(kind: EventKind, room: RoomId, msgId: Option<string>)

  /** Who spawned the task, hence who waits for it: the consume loop, `gather`, or `close`. */
  datatype Origin = FromLoop | FromRehydration | FromControl

  datatype Outcome = Delivered | Failed | Suppressed | Skipped | Cancelled | NoBacklog

  datatype Phase =
    | Created                     // not run yet, or a nudge awaiting its backlog message
    | Subscribing                 // owns its gate, awaits the room (un)subscription
    | WaitingLock                 // owns its gate, passed the dedup check
    | WaitingCapacity             // holds the room lock
    | Forwarding                  // holds the room lock and a permit
    | Settled(outcome: Outcome)

  /** `checkedAt` is history: how many ids had been recorded when the dedup check passed. */
  datatype Task = Task(origin: Origin, event: Event, phase: Phase, gate: nat,
                       cancelled: bool, checkedAt: nat)

  datatype Gate = Gate(locked: bool, tasks: set<TaskId>)

  datatype Runner =
    Offline | Rehydrating | Consuming | Draining | Exited | Disconnected | Closing | Closed

  /**
    `gates` is the heap of every lock object ever created, `rooms` the `_rooms` dict into
    it; `log` is history, the unbounded log behind the dedup cache.
    */
  datatype State = State(tasks: seq<Task>, gates: seq<Gate>, rooms: map<RoomId, nat>,
                         permits: int, cache: seq<string>, log: seq<string>, runner: Runner)

  datatype Config = Config(capacity: nat, messagesOnly: bool)

  function Init(c: Config): State {
    State([], [], map[], c.capacity, [], [], Offline)
  }

  // ---- what a phase holds -------------------------------------------------------------

  predicate Unsettled(s: State, t: TaskId) {
    t < |s.tasks| && !s.tasks[t].phase.Settled?
  }

  /** The task is inside its `accepted` block. */
  predicate Member(s: State, t: TaskId) {
    Unsettled(s, t) && !s.tasks[t].phase.Created?
  }

  predicate Holds(s: State, t: TaskId) {
    t < |s.tasks| && (s.tasks[t].phase.WaitingCapacity? || s.tasks[t].phase.Forwarding?)
  }

  predicate InForward(s: State, t: TaskId) {
    t < |s.tasks| && s.tasks[t].phase.Forwarding?
  }

  /** A member's gate is the one mapped for its room, and lists it. */
  predicate Registered(s: State, t: TaskId)
    requires t < |s.tasks|
  {
    var k := s.tasks[t];
    && k.event.room in s.rooms
    && s.rooms[k.event.room] == k.gate
    && k.gate < |s.gates|
    && t in s.gates[k.gate].tasks
  }

  // ---- the events ---------------------------------------------------------------------

  /** Only message events are deduplicated, and only by a non-empty id. */
  function MsgId(e: Event): Option<string> {
    if e.kind.Message? && e.msgId.Some? && e.msgId.value != "" then e.msgId else None
  }

  predicate NeedsSubscription(e: Event) {
    (e.kind.RoomAdded? || e.kind.RoomGone?) && e.room.Some? && e.room.value != ""
  }

  predicate Forwardable(c: Config, e: Event) {
    !e.kind.Unforwardable? && (c.messagesOnly ==> e.kind.Message?)
  }

  // ---- the pieces of a task's life ----------------------------------------------------

  function SetPhase(s: State, t: TaskId, p: Phase): State
    requires t < |s.tasks|
  {
    s.(tasks := s.tasks[t := s.tasks[t].(phase := p)])
  }

  /** Entry of `accepted`: reuse the mapped gate or create one, and join it. */
  function Register(s: State, t: TaskId): State
    requires t < |s.tasks|
    requires s.tasks[t].event.room in s.rooms ==> s.rooms[s.tasks[t].event.room] < |s.gates|
  {
    var room := s.tasks[t].event.room;
    var known := room in s.rooms;
    var g := if known then s.rooms[room] else |s.gates|;
    var gates := if known then s.gates else s.gates + [Gate(false, {})];
    s.(rooms := s.rooms[room := g],
       gates := gates[g := gates[g].(tasks := gates[g].tasks + {t})],
       tasks := s.tasks[t := s.tasks[t].(phase := Subscribing, gate := g)])
  }

  /**
    Leave `ready` (permit and lock, when held), record a delivered id, then leave
    `accepted`: the last owner deletes whatever gate is mapped for its room.
    */
  function Settle(s: State, t: TaskId, outcome: Outcome): State
    requires t < |s.tasks| && Registered(s, t)
  {
    var k := s.tasks[t];
    var gate := s.gates[k.gate];
    var left := gate.tasks - {t};
    var id := MsgId(k.event);
    var records := outcome.Delivered? && id.Some?;
    s.(permits := if k.phase.Forwarding? then s.permits + 1 else s.permits,
       gates := s.gates[k.gate := Gate(if Holds(s, t) then false else gate.locked, left)],
       rooms := if left == {} then s.rooms - {k.event.room} else s.rooms,
       cache := if records then Dedup.Remember(s.cache, id.value, Dedup.MESSAGE_LIMIT) else s.cache,
       log := if records then Dedup.Log(s.log, id.value, Dedup.MESSAGE_LIMIT) else s.log,
       tasks := s.tasks[t := k.(phase := Settled(outcome))])
  }

  /** The synchronous part of `_handle_event` before `ready`: dedup, then the filters. */
  function Check(c: Config, s: State, t: TaskId): State
    requires t < |s.tasks| && Registered(s, t)
  {
    var e := s.tasks[t].event;
    var id := MsgId(e);
    if id.Some? && id.value in s.cache then Settle(s, t, Suppressed)
    else if !Forwardable(c, e) then Settle(s, t, Skipped)
    else s.(tasks := s.tasks[t := s.tasks[t].(phase := WaitingLock, checkedAt := |s.log|)])
  }

  /** Ask every unsettled task of a group to cancel. */
  function Mark(s: State, group: set<TaskId>): State {
    s.(tasks := seq(|s.tasks|, i requires 0 <= i < |s.tasks| =>
         if i in group && !s.tasks[i].phase.Settled? then s.tasks[i].(cancelled := true) else s.tasks[i]))
  }

  function Spawned(s: State, origin: Origin): set<TaskId> {
    set t | 0 <= t < |s.tasks| && s.tasks[t].origin == origin
  }

  predicate AllSettled(s: State, origin: Origin) {
    forall t :: 0 <= t < |s.tasks| && s.tasks[t].origin == origin ==> s.tasks[t].phase.Settled?
  }

  /** The tasks `RoomForwards.cancel` reaches: the mapped gate's unfinished owners. */
  function Cancellable(s: State, room: string): set<TaskId> {
    if Some(room) in s.rooms && s.rooms[Some(room)] < |s.gates| then
      set t | t in s.gates[s.rooms[Some(room)]].tasks && Unsettled(s, t)
    else {}
  }

  // ---- steps --------------------------------------------------------------------------

  datatype Step =
    // tasks
    | Admit(t: TaskId)
    | Withdraw(t: TaskId)
    | Subscribed(t: TaskId)
    | TakeLock(t: TaskId)
    | TakePermit(t: TaskId)
    | EndForward(t: TaskId, ok: bool)
    | DeliverCancel(t: TaskId)
    // arrivals, control signals and the runner
    | Spawn(origin: Origin, event: Event)
    | CancelRoom(room: string)
    | Connect
    | FinishRehydration
    | LeaveConsume
    | FinishDrain
    | ExitRun
    | LinkDown
    | CancelNudges
    | FinishClose

  predicate IsTaskStep(a: Step) {
    a.Admit? || a.Withdraw? || a.Subscribed? || a.TakeLock? || a.TakePermit? ||
    a.EndForward? || a.DeliverCancel?
  }

  predicate MaySpawn(s: State, origin: Origin) {
    match origin
    case FromLoop => s.runner.Consuming?
    case FromRehydration => s.runner.Rehydrating?
    case FromControl => !s.runner.Disconnected? && !s.runner.Closing? && !s.runner.Closed?
  }

  /** A task that resumes without a pending cancellation. */
  predicate Resumes(s: State, t: TaskId) {
    Unsettled(s, t) && !s.tasks[t].cancelled
  }

  predicate Enabled(s: State, a: Step) {
    match a
    case Admit(t) =>
      && Resumes(s, t) && s.tasks[t].phase.Created?
      && (s.tasks[t].event.room in s.rooms ==> s.rooms[s.tasks[t].event.room] < |s.gates|)
    case Withdraw(t) =>
      Resumes(s, t) && s.tasks[t].phase.Created? && !s.tasks[t].origin.FromLoop?
    case Subscribed(t) =>
      Resumes(s, t) && s.tasks[t].phase.Subscribing? && Registered(s, t)
    case TakeLock(t) =>
      && Resumes(s, t) && s.tasks[t].phase.WaitingLock?
      && s.tasks[t].gate < |s.gates| && !s.gates[s.tasks[t].gate].locked
    case TakePermit(t) =>
      Resumes(s, t) && s.tasks[t].phase.WaitingCapacity? && s.permits > 0
    case EndForward(t, _) =>
      Resumes(s, t) && s.tasks[t].phase.Forwarding? && Registered(s, t)
    case DeliverCancel(t) =>
      Unsettled(s, t) && s.tasks[t].cancelled && (Member(s, t) ==> Registered(s, t))
    case Spawn(origin, _) => MaySpawn(s, origin)
    case CancelRoom(_) => true
    case Connect => s.runner.Offline?
    case FinishRehydration => s.runner.Rehydrating? && AllSettled(s, FromRehydration)
    case LeaveConsume => s.runner.Rehydrating? || s.runner.Consuming?
    case FinishDrain => s.runner.Draining? && AllSettled(s, FromLoop) && AllSettled(s, FromRehydration)
    case ExitRun => s.runner.Offline?
    case LinkDown => s.runner.Exited?
    case CancelNudges => s.runner.Disconnected?
    case FinishClose => s.runner.Closing? && AllSettled(s, FromControl)
  }

  function Apply(c: Config, s: State, a: Step): State
    requires Enabled(s, a)
  {
    match a
    case Admit(t) =>
      var joined := Register(s, t);
      if NeedsSubscription(s.tasks[t].event) then joined else Check(c, joined, t)
    case Withdraw(t) => SetPhase(s, t, Settled(NoBacklog))
    case Subscribed(t) => Check(c, s, t)
    case TakeLock(t) =>
      var g := s.tasks[t].gate;
      SetPhase(s, t, WaitingCapacity).(gates := s.gates[g := s.gates[g].(locked := true)])
    case TakePermit(t) => SetPhase(s, t, Forwarding).(permits := s.permits - 1)
    case EndForward(t, ok) => Settle(s, t, if ok then Delivered else Failed)
    case DeliverCancel(t) =>
      if Member(s, t) then Settle(s, t, Cancelled) else SetPhase(s, t, Settled(Cancelled))
    case Spawn(origin, event) =>
      s.(tasks := s.tasks + [Task(origin, event, Created, 0, false, 0)])
    case CancelRoom(room) => Mark(s, Cancellable(s, room))
    case Connect => s.(runner := Rehydrating)
    case FinishRehydration => s.(runner := Consuming)
    case LeaveConsume =>
      Mark(s, Spawned(s, if s.runner.Consuming? then FromLoop else FromRehydration)).(runner := Draining)
    case FinishDrain => s.(runner := Offline)
    case ExitRun => s.(runner := Exited)
    case LinkDown => s.(runner := Disconnected)
    case CancelNudges => Mark(s, Spawned(s, FromControl)).(runner := Closing)
    case FinishClose => s.(runner := Closed)
  }

  /** `states` is visited by taking `steps` one after the other. */
  ghost predicate Path(c: Config, states: seq<State>, steps: seq<Step>) {
    && |states| == |steps| + 1
    && forall i :: 0 <= i < |steps| ==>
         Enabled(states[i], steps[i]) && states[i + 1] == Apply(c, states[i], steps[i])
  }

  ghost predicate Run(c: Config, states: seq<State>, steps: seq<Step>) {
    Path(c, states, steps) && states[0] == Init(c)
  }
}
