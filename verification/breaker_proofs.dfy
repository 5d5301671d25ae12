/** Whole-run properties of the circuit breaker. */
module BreakerProofs {
  import opened Options
  import opened Breaker

  // ---- non-interference ---------------------------------------------------------------

  /** A message the breaker must not react to: nobody it counts, no handoff, no presenter. */
  predicate Irrelevant(c: Config, i: Input) {
    i.Recorded? && !IsAgent(i.m.sender) && !i.m.mentionsArchitect && (c.interactive ==> !i.m.isPresenter)
  }

  /** The inputs without the irrelevant messages. */
  function Relevant(c: Config, inputs: seq<Input>): seq<Input> {
    if inputs == [] then []
    else
      var before := Relevant(c, inputs[..|inputs| - 1]);
      if Irrelevant(c, inputs[|inputs| - 1]) then before else before + [inputs[|inputs| - 1]]
  }

  /** The state up to what a meeting without a presenter never looks at. */
  function Visible(c: Config, s: State): State {
    if c.interactive then s else s.(floor := s.floor.(spoke := false, endRequested := false))
  }

  lemma NextRespectsVisible(c: Config, start: real, a: State, b: State, i: Input)
    requires Visible(c, a) == Visible(c, b)
    ensures Irrelevant(c, i) ==> Visible(c, Next(c, start, a, i)) == Visible(c, b)
    ensures Visible(c, Next(c, start, a, i)) == Visible(c, Next(c, start, b, i))
    ensures i.Polled? ==> AfterPoll(c, start, a, i.now).1 == AfterPoll(c, start, b, i.now).1
  {
  }

  /** Dropping every irrelevant message leaves every poll result of the run as it was. */
  lemma {:induction false} IrrelevantMessagesChangeNothing(c: Config, start: real, inputs: seq<Input>)
    ensures Results(c, start, Relevant(c, inputs)) == Results(c, start, inputs)
    ensures Visible(c, After(c, start, Relevant(c, inputs))) == Visible(c, After(c, start, inputs))
  {
    if inputs != [] {
      var rest, last := inputs[..|inputs| - 1], inputs[|inputs| - 1];
      IrrelevantMessagesChangeNothing(c, start, rest);
      var kept := Relevant(c, rest);
      NextRespectsVisible(c, start, After(c, start, kept), After(c, start, rest), last);
      NextRespectsVisible(c, start, After(c, start, rest), After(c, start, kept), last);
      assert (kept + [last])[..|kept|] == kept;
    }
  }

  // ---- what never goes back -----------------------------------------------------------

  /** Facts and fired tiers are kept, and a terminal breaker fires nothing more. */
  ghost predicate Grows(a: State, b: State) {
    && (a.facts.handoffRequested ==> b.facts.handoffRequested)
    && (a.facts.architectPresent ==> b.facts.architectPresent)
    && (a.facts.decisionSeen ==> b.facts.decisionSeen)
    && (a.fired.nudged ==> b.fired.nudged) && (a.fired.added ==> b.fired.added)
    && (a.fired.terminal ==> b.fired.terminal)
    && (a.floor.openedAt.Some? ==> b.floor.openedAt == a.floor.openedAt)
    && (a.decisionAt.Some? ==> b.decisionAt == a.decisionAt)
  }

  lemma NextGrows(c: Config, start: real, s: State, i: Input)
    ensures Grows(s, Next(c, start, s, i))
  {
  }

  lemma {:induction false} RunGrows(c: Config, start: real, inputs: seq<Input>, i: nat, j: nat)
    requires i <= j <= |inputs|
    ensures Grows(After(c, start, inputs[..i]), After(c, start, inputs[..j]))
    decreases j
  {
    if i < j {
      RunGrows(c, start, inputs, i, j - 1);
      Unfold(c, start, inputs, j - 1);
      NextGrows(c, start, After(c, start, inputs[..j - 1]), inputs[j - 1]);
    }
  }

  lemma Unfold(c: Config, start: real, inputs: seq<Input>, k: nat)
    requires k < |inputs|
    ensures After(c, start, inputs[..k + 1]) == Next(c, start, After(c, start, inputs[..k]), inputs[k])
  {
    assert inputs[..k + 1][..k] == inputs[..k];
  }

  // ---- action discipline --------------------------------------------------------------

  predicate Terminal(a: Action) { a.HARD_KILL? || a.TERMINATE_OK? }

  /** The flag that says an action has been taken. */
  predicate Taken(s: State, a: Action) {
    match a
    case NUDGE_HANDOFF => s.fired.nudged
    case ADD_ARCHITECT => s.fired.added
    case OPEN_FLOOR => s.floor.openedAt.Some?
    case HARD_KILL => s.fired.terminal
    case TERMINATE_OK => s.fired.terminal
  }

  /** A poll answers with at most one action, one not taken before and taken from then on. */
  lemma PollTakesOneNewAction(c: Config, start: real, s: State, now: real)
    ensures var (n, actions) := AfterPoll(c, start, s, now);
            |actions| <= 1 && forall a :: a in actions ==> !Taken(s, a) && Taken(n, a) && !s.fired.terminal
  {
  }

  /**
    Over every run each poll returns at most one action, each action is returned at most
    once, and nothing is returned after a terminal action.
    */
  lemma ActionsHappenOnce(c: Config, start: real, inputs: seq<Input>, i: nat, j: nat, a: Action, b: Action)
    requires i < j < |inputs| && a in Answer(c, start, inputs, i) && b in Answer(c, start, inputs, j)
    ensures |Answer(c, start, inputs, i)| == 1 && a != b && !Terminal(a)
  {
    PollTakesOneNewAction(c, start, After(c, start, inputs[..i]), inputs[i].now);
    PollTakesOneNewAction(c, start, After(c, start, inputs[..j]), inputs[j].now);
    Unfold(c, start, inputs, i);
    RunGrows(c, start, inputs, i + 1, j);
  }

  predicate IsVerdict(i: Input) {
    i.Recorded? && i.m.sender.ARCHITECT? && i.m.isFinalDecision
  }

  predicate ShowsArchitect(i: Input) {
    i.Noted? || (i.Recorded? && i.m.sender.ARCHITECT?)
  }

  /** No poll after a recorded verdict kills the meeting. */
  lemma NoKillAfterVerdict(c: Config, start: real, inputs: seq<Input>, i: nat, j: nat)
    requires i < j < |inputs| && IsVerdict(inputs[i])
    ensures HARD_KILL !in Answer(c, start, inputs, j)
  {
    Unfold(c, start, inputs, i);
    RunGrows(c, start, inputs, i + 1, j);
  }

  /** No poll after the architect joined or spoke nudges the PM or adds the architect. */
  lemma NoNudgeOrAddAfterPresence(c: Config, start: real, inputs: seq<Input>, i: nat, j: nat)
    requires i < j < |inputs| && ShowsArchitect(inputs[i])
    ensures NUDGE_HANDOFF !in Answer(c, start, inputs, j) && ADD_ARCHITECT !in Answer(c, start, inputs, j)
  {
    Unfold(c, start, inputs, i);
    RunGrows(c, start, inputs, i + 1, j);
  }

  lemma OnlyNudgesSetTheFlag(c: Config, start: real, s: State, i: Input)
    requires !s.fired.nudged && Next(c, start, s, i).fired.nudged
    ensures i.Polled? && NUDGE_HANDOFF in AfterPoll(c, start, s, i.now).1
  {
  }

  /** The nudged flag is set only by a nudge that some earlier poll returned. */
  lemma {:induction false} NudgedMeansNudge(c: Config, start: real, inputs: seq<Input>, k: nat) returns (i: nat)
    requires k <= |inputs| && After(c, start, inputs[..k]).fired.nudged
    ensures i < k && NUDGE_HANDOFF in Answer(c, start, inputs, i)
  {
    Unfold(c, start, inputs, k - 1);
    if After(c, start, inputs[..k - 1]).fired.nudged {
      i := NudgedMeansNudge(c, start, inputs, k - 1);
    } else {
      OnlyNudgesSetTheFlag(c, start, After(c, start, inputs[..k - 1]), inputs[k - 1]);
      i := k - 1;
    }
  }

  /** A handoff was requested only by a recorded mention from someone else. */
  lemma {:induction false} HandoffMeansMention(c: Config, start: real, inputs: seq<Input>, k: nat) returns (i: nat)
    requires k <= |inputs| && After(c, start, inputs[..k]).facts.handoffRequested
    ensures i < k && inputs[i].Recorded? && inputs[i].m.mentionsArchitect && !inputs[i].m.sender.ARCHITECT?
  {
    Unfold(c, start, inputs, k - 1);
    if After(c, start, inputs[..k - 1]).facts.handoffRequested {
      i := HandoffMeansMention(c, start, inputs, k - 1);
    } else {
      i := k - 1;
    }
  }

  ghost predicate Nudged(c: Config, start: real, inputs: seq<Input>, i: nat) {
    i < |inputs| && NUDGE_HANDOFF in Answer(c, start, inputs, i)
  }

  predicate Mentioned(inputs: seq<Input>, i: nat) {
    i < |inputs| && inputs[i].Recorded? && inputs[i].m.mentionsArchitect && !inputs[i].m.sender.ARCHITECT?
  }

  /**
    The architect is added only after a nudge or a requested handoff, unless the deadline
    is negative and the design count was still below the soft cap.
    */
  lemma AddFollowsNudgeOrHandoff(c: Config, start: real, inputs: seq<Input>, k: nat)
    requires k < |inputs| && ADD_ARCHITECT in Answer(c, start, inputs, k)
    ensures (exists i: nat :: i < k && Nudged(c, start, inputs, i)) ||
            (exists i: nat :: i < k && Mentioned(inputs, i)) ||
            (c.handoffDeadline < 0 && After(c, start, inputs[..k]).designCount < c.softCap)
  {
    var s := After(c, start, inputs[..k]);
    if s.fired.nudged {
      var i := NudgedMeansNudge(c, start, inputs, k);
      assert Nudged(c, start, inputs, i);
    } else if s.facts.handoffRequested {
      var i := HandoffMeansMention(c, start, inputs, k);
      assert Mentioned(inputs, i);
    }
  }

  /** A poll adds the architect although nobody was nudged and nobody asked. */
  ghost predicate Unprompted(c: Config, start: real, inputs: seq<Input>, k: nat) {
    && k < |inputs| && ADD_ARCHITECT in Answer(c, start, inputs, k)
    && !(exists i: nat :: i < k && Nudged(c, start, inputs, i))
    && !(exists i: nat :: i < k && Mentioned(inputs, i))
  }

  /** The add can come due before the nudge, and before the hard cap. */
  predicate AddsEarly(c: Config) {
    c.handoffDeadline < 0 && c.softCap > 0 && c.hardCap > 0 && c.softCap + c.handoffDeadline < c.hardCap
  }

  lemma {:induction false} DesignMessagesAreAgentMessages(c: Config, start: real, inputs: seq<Input>)
    ensures 0 <= After(c, start, inputs).designCount <= After(c, start, inputs).agentCount
  {
    if inputs != [] {
      DesignMessagesAreAgentMessages(c, start, inputs[..|inputs| - 1]);
    }
  }

  const PM_TALKS: Input := Recorded(Message(PM, false, false, false, false))

  function Chatter(n: nat): seq<Input> { if n == 0 then [] else Chatter(n - 1) + [PM_TALKS] }

  lemma {:induction false} ChatterOnlyCounts(c: Config, start: real, n: nat)
    ensures |Chatter(n)| == n && forall i :: 0 <= i < n ==> Chatter(n)[i] == PM_TALKS
    ensures After(c, start, Chatter(n)) == Init.(designCount := n, agentCount := n)
  {
    if n > 0 {
      ChatterOnlyCounts(c, start, n - 1);
      assert Chatter(n)[..n - 1] == Chatter(n - 1);
    }
  }

  lemma EarlyAddHappens(c: Config, start: real) returns (inputs: seq<Input>, k: nat)
    requires AddsEarly(c)
    ensures Unprompted(c, start, inputs, k)
  {
    k := if c.softCap + c.handoffDeadline > 0 then c.softCap + c.handoffDeadline else 0;
    ChatterOnlyCounts(c, start, k);
    inputs := Chatter(k) + [Polled(start + c.wallClock - 1.0)];
    assert inputs[..k] == Chatter(k);
    assert forall i :: 0 <= i < k ==> inputs[i] == PM_TALKS;
  }

  /** A configuration lets some run add the architect unprompted exactly when the add can come due first. */
  lemma UnpromptedAddsExactly(c: Config, start: real)
    ensures (exists inputs, k :: Unprompted(c, start, inputs, k)) <==> AddsEarly(c)
  {
    if AddsEarly(c) {
      var inputs, k := EarlyAddHappens(c, start);
    }
    if inputs, k :| Unprompted(c, start, inputs, k) {
      AddFollowsNudgeOrHandoff(c, start, inputs, k);
      DesignMessagesAreAgentMessages(c, start, inputs[..k]);
    }
  }

  // ---- what the counters and facts mean -----------------------------------------------

  predicate Shown(inputs: seq<Input>) {
    exists i :: 0 <= i < |inputs| && ShowsArchitect(inputs[i])
  }

  predicate Asked(inputs: seq<Input>) {
    exists i :: 0 <= i < |inputs| && Mentioned(inputs, i)
  }

  predicate Decided(inputs: seq<Input>) {
    exists i :: 0 <= i < |inputs| && IsVerdict(inputs[i])
  }

  /** How many agent messages were recorded. */
  function AgentMessages(inputs: seq<Input>): nat {
    if inputs == [] then 0
    else
      var last := inputs[|inputs| - 1];
      AgentMessages(inputs[..|inputs| - 1]) + if last.Recorded? && IsAgent(last.m.sender) then 1 else 0
  }

  /** How many PM and developer messages were recorded before the architect showed. */
  function DesignMessages(inputs: seq<Input>): nat {
    if inputs == [] then 0
    else
      var before, last := inputs[..|inputs| - 1], inputs[|inputs| - 1];
      DesignMessages(before) + if last.Recorded? && InDesignPair(last.m.sender) && !Shown(before) then 1 else 0
  }

  lemma ExtendHistory(before: seq<Input>, last: Input)
    ensures var inputs := before + [last];
            && (Shown(inputs) <==> Shown(before) || ShowsArchitect(last))
            && (Asked(inputs) <==> Asked(before) || Mentioned([last], 0))
            && (Decided(inputs) <==> Decided(before) || IsVerdict(last))
  {
    var inputs := before + [last];
    assert forall i :: 0 <= i < |before| ==> before[i] == inputs[i];
    assert inputs[|before|] == last && [last][0] == last;
    if Asked(before) {
      var i :| 0 <= i < |before| && Mentioned(before, i);
      assert Mentioned(inputs, i);
    }
    if Mentioned([last], 0) {
      assert Mentioned(inputs, |before|);
    }
    if Asked(inputs) {
      var i :| 0 <= i < |inputs| && Mentioned(inputs, i);
      assert i < |before| ==> Mentioned(before, i);
    }
  }

  /** What one input adds, while nothing terminal has happened. */
  predicate Adds(s: State, n: State, i: Input) {
    && n.agentCount == s.agentCount + (if i.Recorded? && IsAgent(i.m.sender) then 1 else 0)
    && n.designCount == s.designCount +
         (if i.Recorded? && InDesignPair(i.m.sender) && !s.facts.architectPresent then 1 else 0)
    && n.facts == Facts(s.facts.handoffRequested || Mentioned([i], 0),
                        s.facts.architectPresent || ShowsArchitect(i), s.facts.decisionSeen || IsVerdict(i))
  }

  lemma NextAdds(c: Config, start: real, s: State, i: Input)
    requires !Next(c, start, s, i).fired.terminal
    ensures !s.fired.terminal && Adds(s, Next(c, start, s, i), i)
  {
  }

  /** Counters and facts are what the inputs say. */
  predicate Tallies(s: State, inputs: seq<Input>) {
    && s.agentCount == AgentMessages(inputs) && s.designCount == DesignMessages(inputs)
    && s.facts == Facts(Asked(inputs), Shown(inputs), Decided(inputs))
  }

  lemma TallyGrows(s: State, n: State, before: seq<Input>, last: Input)
    requires Tallies(s, before) && Adds(s, n, last)
    ensures Tallies(n, before + [last])
  {
    ExtendHistory(before, last);
    assert (before + [last])[..|before|] == before;
  }

  /** Until a terminal action, counters and facts are functions of the inputs alone. */
  lemma {:induction false} CountersCountMessages(c: Config, start: real, inputs: seq<Input>)
    requires !After(c, start, inputs).fired.terminal
    ensures Tallies(After(c, start, inputs), inputs)
  {
    if inputs != [] {
      var before, last := inputs[..|inputs| - 1], inputs[|inputs| - 1];
      var s := After(c, start, before);
      NextAdds(c, start, s, last);
      CountersCountMessages(c, start, before);
      TallyGrows(s, Next(c, start, s, last), before, last);
      assert inputs == before + [last];
    }
  }

  /** Whatever else happened, an undecided meeting is over by the poll that finds the hard cap reached. */
  lemma HardCapStops(c: Config, start: real, inputs: seq<Input>, k: nat)
    requires k < |inputs| && inputs[k].Polled?
    requires AgentMessages(inputs[..k]) >= c.hardCap && !Decided(inputs[..k])
    ensures After(c, start, inputs[..k + 1]).fired.terminal
  {
    Unfold(c, start, inputs, k);
    if !After(c, start, inputs[..k]).fired.terminal {
      CountersCountMessages(c, start, inputs[..k]);
    }
  }

  /** A design discussion that reaches the soft cap on its own is nudged, or over, by the next poll. */
  lemma SoftCapNudges(c: Config, start: real, inputs: seq<Input>, k: nat)
    requires k < |inputs| && inputs[k].Polled?
    requires DesignMessages(inputs[..k]) >= c.softCap && !Shown(inputs[..k]) && !Asked(inputs[..k])
    ensures After(c, start, inputs[..k + 1]).fired.terminal || exists i: nat :: i <= k && Nudged(c, start, inputs, i)
  {
    Unfold(c, start, inputs, k);
    var n := After(c, start, inputs[..k + 1]);
    if !n.fired.terminal {
      NextGrows(c, start, After(c, start, inputs[..k]), inputs[k]);
      CountersCountMessages(c, start, inputs[..k]);
      assert forall i :: 0 <= i < k && IsVerdict(inputs[..k][i]) ==> ShowsArchitect(inputs[..k][i]);
      var i := NudgedMeansNudge(c, start, inputs, k + 1);
      assert Nudged(c, start, inputs, i);
    }
  }

  // ---- time bounds --------------------------------------------------------------------

  /** The conductor's clock never goes back. */
  ghost predicate Clocked(inputs: seq<Input>) {
    forall i, j :: 0 <= i < j < |inputs| && inputs[i].Polled? && inputs[j].Polled? ==> inputs[i].now <= inputs[j].now
  }

  /** No stamp lies in the future of the polls so far. */
  ghost predicate StampedBy(s: State, t: real) {
    && (s.decisionAt.Some? ==> s.decisionAt.value <= t)
    && (s.floor.lastPresenterAt.Some? ==> s.floor.lastPresenterAt.value <= t)
    && (s.floor.openedAt.Some? ==> s.floor.lastPresenterAt.Some?)
  }

  lemma NextStamps(c: Config, start: real, s: State, i: Input, t: real)
    requires StampedBy(s, t) && (i.Polled? ==> i.now <= t)
    ensures StampedBy(Next(c, start, s, i), t)
  {
  }

  lemma {:induction false} StampsArePast(c: Config, start: real, inputs: seq<Input>, k: nat, t: real)
    requires k <= |inputs| && forall i :: 0 <= i < k && inputs[i].Polled? ==> inputs[i].now <= t
    ensures StampedBy(After(c, start, inputs[..k]), t)
  {
    if k > 0 {
      StampsArePast(c, start, inputs, k - 1, t);
      Unfold(c, start, inputs, k - 1);
      NextStamps(c, start, After(c, start, inputs[..k - 1]), inputs[k - 1], t);
    }
  }

  /** A poll past the wall clock stops the meeting or finds its verdict and starts the tail. */
  lemma LatePollDecides(c: Config, start: real, s: State, now: real)
    requires now >= start + c.wallClock && StampedBy(s, now)
    ensures var n := AfterPoll(c, start, s, now).0;
            n.fired.terminal ||
            (n.facts.decisionSeen && StampedBy(n, now) &&
             if c.interactive then n.floor.openedAt.Some? else n.decisionAt.Some?)
  {
  }

  /**
    Without a presenter: for every message stream, a poll past the wall clock and another
    one a grace period later leave the meeting stopped.
    */
  lemma StoppedAfterGrace(c: Config, start: real, inputs: seq<Input>, i: nat, j: nat)
    requires !c.interactive && Clocked(inputs) && i < j < |inputs|
    requires inputs[i].Polled? && inputs[i].now >= start + c.wallClock
    requires inputs[j].Polled? && inputs[j].now >= inputs[i].now + c.grace
    ensures After(c, start, inputs[..j + 1]).fired.terminal
  {
    StampsArePast(c, start, inputs, i, inputs[i].now);
    LatePollDecides(c, start, After(c, start, inputs[..i]), inputs[i].now);
    Unfold(c, start, inputs, i);
    RunGrows(c, start, inputs, i + 1, j);
    Unfold(c, start, inputs, j);
  }

  /** No presenter message is recorded from the i-th input up to the j-th. */
  ghost predicate Silent(inputs: seq<Input>, i: nat, j: nat) {
    forall k :: i <= k < j && k < |inputs| && inputs[k].Recorded? ==> !inputs[k].m.isPresenter
  }

  /** The presenter has been quiet since `t`, as the breaker sees it. */
  ghost predicate QuietSince(s: State, t: real) {
    s.fired.terminal ||
    (s.facts.decisionSeen && s.floor.openedAt.Some? && !s.floor.spoke &&
     s.floor.lastPresenterAt.Some? && s.floor.lastPresenterAt.value <= t)
  }

  lemma NextStaysQuiet(c: Config, start: real, s: State, i: Input, t: real)
    requires c.interactive && QuietSince(s, t) && (i.Recorded? ==> !i.m.isPresenter)
    ensures QuietSince(Next(c, start, s, i), t)
  {
  }

  lemma {:induction false} QuietLasts(c: Config, start: real, inputs: seq<Input>, i: nat, j: nat, t: real)
    requires c.interactive && i <= j <= |inputs| && Silent(inputs, i, j)
    requires QuietSince(After(c, start, inputs[..i]), t)
    ensures QuietSince(After(c, start, inputs[..j]), t)
    decreases j
  {
    if i < j {
      QuietLasts(c, start, inputs, i, j - 1, t);
      Unfold(c, start, inputs, j - 1);
      NextStaysQuiet(c, start, After(c, start, inputs[..j - 1]), inputs[j - 1], t);
    }
  }

  /** A later poll notices what the presenter said before falling silent. */
  lemma PollQuiets(c: Config, start: real, s: State, now: real)
    requires c.interactive && StampedBy(s, now) && (s.fired.terminal || (s.facts.decisionSeen && s.floor.openedAt.Some?))
    ensures QuietSince(AfterPoll(c, start, s, now).0, now)
    ensures c.openFloorIdle <= 0.0 ==> AfterPoll(c, start, s, now).0.fired.terminal
  {
  }

  /** A poll of a quiet room, an idle period later, closes it. */
  lemma IdlePollStops(c: Config, start: real, s: State, t: real, now: real)
    requires c.interactive && QuietSince(s, t) && now >= t + c.openFloorIdle
    ensures AfterPoll(c, start, s, now).0.fired.terminal
  {
  }

  /**
    With a presenter who falls silent once the wall clock has passed: after the next poll,
    any poll an idle period later leaves the meeting stopped.
    */
  lemma StoppedAfterIdle(c: Config, start: real, inputs: seq<Input>, i: nat, j: nat, k: nat)
    requires c.interactive && Clocked(inputs) && i < j <= k < |inputs|
    requires inputs[i].Polled? && inputs[i].now >= start + c.wallClock
    requires inputs[j].Polled? && Silent(inputs, i, k)
    requires inputs[k].Polled? && inputs[k].now >= inputs[j].now + c.openFloorIdle
    ensures After(c, start, inputs[..k + 1]).fired.terminal
  {
    StampsArePast(c, start, inputs, i, inputs[i].now);
    LatePollDecides(c, start, After(c, start, inputs[..i]), inputs[i].now);
    Unfold(c, start, inputs, i);
    RunGrows(c, start, inputs, i + 1, j);
    StampsArePast(c, start, inputs, j, inputs[j].now);
    PollQuiets(c, start, After(c, start, inputs[..j]), inputs[j].now);
    Unfold(c, start, inputs, j);
    if j < k {
      QuietLasts(c, start, inputs, j + 1, k, inputs[j].now);
      IdlePollStops(c, start, After(c, start, inputs[..k]), inputs[j].now, inputs[k].now);
      Unfold(c, start, inputs, k);
    }
  }
}
