/**
  The demo's circuit breaker (breaker.py): a state machine fed with messages and polls.
  `State` is the breaker's fields as a value; class CircuitBreaker is the object that
  updates them, each method proved to take the state where its function says.
  */
module Breaker {
  import opened Options

  datatype Sender = PM | DEVELOPER | ARCHITECT | HUMAN | UNKNOWN

  datatype Action = NUDGE_HANDOFF | ADD_ARCHITECT | OPEN_FLOOR | HARD_KILL | TERMINATE_OK

  datatype Message = Message(sender: Sender, mentionsArchitect: bool, isFinalDecision: bool,
                             isPresenter: bool, isEndSignal: bool)

  datatype Config = Config(softCap: int, handoffDeadline: int, hardCap: int, wallClock: real,
                           grace: real, interactive: bool, openFloorIdle: real)

  datatype Reason = NotStopped | PresenterEnded | GraceElapsed | FloorIdle

  datatype Facts = Facts(handoffRequested: bool, architectPresent: bool, decisionSeen: bool)

  datatype Fired = Fired(nudged: bool, added: bool, terminal: bool, reason: Reason)

  datatype Floor = Floor(openedAt: Option<real>, lastPresenterAt: Option<real>, spoke: bool, endRequested: bool)

  datatype State = State(designCount: int, agentCount: int, facts: Facts, decisionAt: Option<real>,
                         fired: Fired, floor: Floor)

  const Init: State :=
    State(0, 0, Facts(false, false, false), None, Fired(false, false, false, NotStopped),
          Floor(None, None, false, false))

  predicate InDesignPair(sender: Sender) { sender.PM? || sender.DEVELOPER? }

  predicate IsAgent(sender: Sender) { InDesignPair(sender) || sender.ARCHITECT? }

  // ---- record -------------------------------------------------------------------------

  function HeardPresenter(f: Floor, m: Message): Floor {
    if m.isPresenter then f.(spoke := true, endRequested := f.endRequested || m.isEndSignal) else f
  }

  function Learned(f: Facts, m: Message): Facts {
    Facts(f.handoffRequested || (m.mentionsArchitect && !m.sender.ARCHITECT?),
          f.architectPresent || m.sender.ARCHITECT?,
          f.decisionSeen || (m.sender.ARCHITECT? && m.isFinalDecision))
  }

  function AfterRecord(s: State, m: Message): State {
    if s.fired.terminal then s
    else s.(designCount := if InDesignPair(m.sender) && !s.facts.architectPresent then s.designCount + 1 else s.designCount,
            agentCount := if IsAgent(m.sender) then s.agentCount + 1 else s.agentCount,
            facts := Learned(s.facts, m),
            floor := HeardPresenter(s.floor, m))
  }

  function NotePresent(s: State): State {
    s.(facts := s.facts.(architectPresent := true))
  }

  function Close(s: State): State {
    s.(fired := s.fired.(terminal := true))
  }

  // ---- poll ---------------------------------------------------------------------------

  function Terminated(s: State, reason: Reason): (State, seq<Action>) {
    (s.(fired := s.fired.(terminal := true, reason := reason)), [TERMINATE_OK])
  }

  /** The tail of a decided meeting without a presenter: close once the grace has elapsed. */
  function PollGrace(c: Config, s: State, now: real): (State, seq<Action>) {
    if s.decisionAt.None? then
      if 0.0 >= c.grace then Terminated(s.(decisionAt := Some(now)), GraceElapsed)
      else (s.(decisionAt := Some(now)), [])
    else if now - s.decisionAt.value >= c.grace then Terminated(s, GraceElapsed)
    else (s, [])
  }

  /** The presenter's silence is timed from the poll that first notices the last message. */
  function Stamped(f: Floor, now: real): Floor {
    if f.spoke then f.(lastPresenterAt := Some(now), spoke := false) else f
  }

  /** The tail of a decided meeting with a presenter: open the floor once, then wait. */
  function PollFloor(c: Config, s: State, now: real): (State, seq<Action>) {
    if s.floor.openedAt.None? then
      (s.(floor := s.floor.(openedAt := Some(now), lastPresenterAt := Some(now))), [OPEN_FLOOR])
    else
      var stamped := s.(floor := Stamped(s.floor, now));
      if stamped.floor.lastPresenterAt.Some? && now - stamped.floor.lastPresenterAt.value >= c.openFloorIdle
      then Terminated(stamped, FloorIdle)
      else (stamped, [])
  }

  predicate Overdue(c: Config, start: real, s: State, now: real) {
    now - start >= c.wallClock || s.agentCount >= c.hardCap
  }

  function AfterPoll(c: Config, start: real, s: State, now: real): (State, seq<Action>) {
    if s.fired.terminal then (s, [])
    else if c.interactive && s.floor.endRequested then Terminated(s, PresenterEnded)
    else if s.facts.decisionSeen then (if c.interactive then PollFloor(c, s, now) else PollGrace(c, s, now))
    else if Overdue(c, start, s, now) then (s.(fired := s.fired.(terminal := true)), [HARD_KILL])
    else if s.facts.architectPresent then (s, [])
    else if !s.fired.nudged && !s.facts.handoffRequested && s.designCount >= c.softCap then
      (s.(fired := s.fired.(nudged := true)), [NUDGE_HANDOFF])
    else if !s.fired.added && s.designCount >= c.softCap + c.handoffDeadline then
      (s.(fired := s.fired.(added := true)), [ADD_ARCHITECT])
    else (s, [])
  }

  // ---- runs ---------------------------------------------------------------------------

  datatype Input = Recorded(m: Message) | Noted | Polled(now: real) | Closed

  function Next(c: Config, start: real, s: State, i: Input): State {
    match i
    case Recorded(m) => AfterRecord(s, m)
    case Noted => NotePresent(s)
    case Polled(now) => AfterPoll(c, start, s, now).0
    case Closed => Close(s)
  }

  /** The state after a sequence of inputs. */
  function After(c: Config, start: real, inputs: seq<Input>): State {
    if inputs == [] then Init
    else Next(c, start, After(c, start, inputs[..|inputs| - 1]), inputs[|inputs| - 1])
  }

  /** What the k-th input answers; only polls answer anything. */
  function Answer(c: Config, start: real, inputs: seq<Input>, k: nat): seq<Action>
    requires k < |inputs|
  {
    if inputs[k].Polled? then AfterPoll(c, start, After(c, start, inputs[..k]), inputs[k].now).1 else []
  }

  /** The results of all polls, in order. */
  function Results(c: Config, start: real, inputs: seq<Input>): seq<seq<Action>> {
    if inputs == [] then []
    else
      var before := Results(c, start, inputs[..|inputs| - 1]);
      if inputs[|inputs| - 1].Polled? then before + [Answer(c, start, inputs, |inputs| - 1)] else before
  }

  // ---- the object ---------------------------------------------------------------------

  class CircuitBreaker {
    const config: Config
    const start: real
    var designCount: int
    var agentCount: int
    var handoffRequested: bool
    var architectPresent: bool
    var decisionSeen: bool
    var decisionAt: Option<real>
    var nudged: bool
    var added: bool
    var terminal: bool
    var floorOpenedAt: Option<real>
    var lastPresenterAt: Option<real>
    var presenterSpoke: bool
    var endRequested: bool
    var stopReason: Reason

    function View(): State
      reads this
    {
      State(designCount, agentCount, Facts(handoffRequested, architectPresent, decisionSeen), decisionAt,
            Fired(nudged, added, terminal, stopReason),
            Floor(floorOpenedAt, lastPresenterAt, presenterSpoke, endRequested))
    }

    constructor (config: Config, startTime: real)
      ensures View() == Init && this.config == config && this.start == startTime
    {
      this.config, this.start := config, startTime;
      designCount, agentCount := 0, 0;
      handoffRequested, architectPresent, decisionSeen := false, false, false;
      decisionAt := None;
      nudged, added, terminal := false, false, false;
      floorOpenedAt, lastPresenterAt := None, None;
      presenterSpoke, endRequested := false, false;
      stopReason := NotStopped;
    }

    method CloseMeeting()
      modifies this
      ensures View() == Close(old(View()))
    {
      terminal := true;
    }

    method NoteArchitectPresent()
      modifies this
      ensures View() == NotePresent(old(View()))
    {
      architectPresent := true;
    }

    method Record(m: Message)
      modifies this
      ensures View() == AfterRecord(old(View()), m)
    {
      if terminal {
        return;
      }
      if m.isPresenter {
        presenterSpoke := true;
        if m.isEndSignal {
          endRequested := true;
        }
      }
      if m.mentionsArchitect && !m.sender.ARCHITECT? {
        handoffRequested := true;
      }
      if !IsAgent(m.sender) {
        return;
      }
      agentCount := agentCount + 1;
      if InDesignPair(m.sender) && !architectPresent {
        designCount := designCount + 1;
      }
      if m.sender.ARCHITECT? {
        architectPresent := true;
        if m.isFinalDecision {
          decisionSeen := true;
        }
      }
    }

    method Poll(now: real) returns (actions: seq<Action>)
      modifies this
      ensures (View(), actions) == AfterPoll(config, start, old(View()), now)
    {
      if terminal {
        return [];
      }
      if config.interactive && endRequested {
        actions := Terminate(PresenterEnded);
        return;
      }
      if decisionSeen {
        actions := PollDecided(now);
        return;
      }
      if now - start >= config.wallClock || agentCount >= config.hardCap {
        terminal := true;
        return [HARD_KILL];
      }
      if !architectPresent {
        if !nudged && !handoffRequested && designCount >= config.softCap {
          nudged := true;
          return [NUDGE_HANDOFF];
        }
        if !added && designCount >= config.softCap + config.handoffDeadline {
          added := true;
          return [ADD_ARCHITECT];
        }
      }
      return [];
    }

    method PollDecided(now: real) returns (actions: seq<Action>)
      modifies this
      ensures (View(), actions) == if config.interactive then PollFloor(config, old(View()), now)
                                   else PollGrace(config, old(View()), now)
    {
      if !config.interactive {
        if decisionAt.None? {
          decisionAt := Some(now);
        }
        if now - decisionAt.value >= config.grace {
          actions := Terminate(GraceElapsed);
          return;
        }
        return [];
      }
      if floorOpenedAt.None? {
        floorOpenedAt := Some(now);
        lastPresenterAt := Some(now);
        return [OPEN_FLOOR];
      }
      if presenterSpoke {
        lastPresenterAt := Some(now);
        presenterSpoke := false;
      }
      if lastPresenterAt.Some? && now - lastPresenterAt.value >= config.openFloorIdle {
        actions := Terminate(FloorIdle);
        return;
      }
      return [];
    }

    method Terminate(reason: Reason) returns (actions: seq<Action>)
      modifies this
      ensures (View(), actions) == Terminated(old(View()), reason)
    {
      terminal := true;
      stopReason := reason;
      return [TERMINATE_OK];
    }
  }
}
