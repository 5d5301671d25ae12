/**
  What each poll of the breaker answers, from the inputs and the answers before it alone:
  exactly when the meeting is killed, nudged, joined by the architect, opened or closed.
  */
module BreakerAnswers {
  import opened Options
  import opened Breaker
  import opened BreakerProofs

  // ---- what has happened before the k-th input ----------------------------------------

  /** The i-th input is a poll that answered `a`. */
  ghost predicate Took(c: Config, start: real, inputs: seq<Input>, i: nat, a: Action) {
    i < |inputs| && a in Answer(c, start, inputs, i)
  }

  ghost predicate TookBefore(c: Config, start: real, inputs: seq<Input>, k: nat, a: Action) {
    exists i: nat :: i < k && Took(c, start, inputs, i, a)
  }

  /** The i-th input ended the meeting. */
  ghost predicate Ends(c: Config, start: real, inputs: seq<Input>, i: nat) {
    i < |inputs| && (inputs[i].Closed? || Took(c, start, inputs, i, HARD_KILL) || Took(c, start, inputs, i, TERMINATE_OK))
  }

  ghost predicate Over(c: Config, start: real, inputs: seq<Input>, k: nat) {
    exists i: nat :: i < k && Ends(c, start, inputs, i)
  }

  predicate Presenter(inputs: seq<Input>, i: nat) {
    i < |inputs| && inputs[i].Recorded? && inputs[i].m.isPresenter
  }

  predicate EndPhrase(inputs: seq<Input>, i: nat) {
    Presenter(inputs, i) && inputs[i].m.isEndSignal
  }

  ghost predicate EndAsked(inputs: seq<Input>, k: nat) {
    exists i: nat :: i < k && EndPhrase(inputs, i)
  }

  // ---- the fields, from the inputs ----------------------------------------------------

  lemma NextTakes(c: Config, start: real, s: State, i: Input)
    ensures var n := Next(c, start, s, i);
            var answer := if i.Polled? then AfterPoll(c, start, s, i.now).1 else [];
            && (n.fired.terminal <==> s.fired.terminal || i.Closed? || HARD_KILL in answer || TERMINATE_OK in answer)
            && (n.fired.nudged <==> s.fired.nudged || NUDGE_HANDOFF in answer)
            && (n.fired.added <==> s.fired.added || ADD_ARCHITECT in answer)
            && (n.floor.openedAt.Some? <==> s.floor.openedAt.Some? || OPEN_FLOOR in answer)
  {
  }

  /** The flags are the answers given so far. */
  ghost predicate FlagsTell(c: Config, start: real, inputs: seq<Input>, k: nat, s: State) {
    && (s.fired.terminal <==> Over(c, start, inputs, k))
    && (s.fired.nudged <==> TookBefore(c, start, inputs, k, NUDGE_HANDOFF))
    && (s.fired.added <==> TookBefore(c, start, inputs, k, ADD_ARCHITECT))
    && (s.floor.openedAt.Some? <==> TookBefore(c, start, inputs, k, OPEN_FLOOR))
  }

  lemma BeforeGrows(c: Config, start: real, inputs: seq<Input>, k: nat, a: Action)
    requires k < |inputs|
    ensures TookBefore(c, start, inputs, k + 1, a) <==> TookBefore(c, start, inputs, k, a) || Took(c, start, inputs, k, a)
    ensures Over(c, start, inputs, k + 1) <==> Over(c, start, inputs, k) || Ends(c, start, inputs, k)
  {
  }

  lemma {:induction false} FlagsAreAnswers(c: Config, start: real, inputs: seq<Input>, k: nat)
    requires k <= |inputs|
    ensures FlagsTell(c, start, inputs, k, After(c, start, inputs[..k]))
  {
    if k > 0 {
      var s := After(c, start, inputs[..k - 1]);
      FlagsAreAnswers(c, start, inputs, k - 1);
      Unfold(c, start, inputs, k - 1);
      NextTakes(c, start, s, inputs[k - 1]);
      BeforeGrows(c, start, inputs, k - 1, NUDGE_HANDOFF);
      BeforeGrows(c, start, inputs, k - 1, ADD_ARCHITECT);
      BeforeGrows(c, start, inputs, k - 1, OPEN_FLOOR);
    }
  }

  lemma NextHearsEnd(c: Config, start: real, s: State, i: Input)
    requires !Next(c, start, s, i).fired.terminal
    ensures !s.fired.terminal
    ensures Next(c, start, s, i).floor.endRequested <==>
              s.floor.endRequested || (i.Recorded? && i.m.isPresenter && i.m.isEndSignal)
  {
  }

  lemma {:induction false} EndIsAsked(c: Config, start: real, inputs: seq<Input>, k: nat)
    requires k <= |inputs| && !After(c, start, inputs[..k]).fired.terminal
    ensures After(c, start, inputs[..k]).floor.endRequested <==> EndAsked(inputs, k)
  {
    if k > 0 {
      Unfold(c, start, inputs, k - 1);
      NextHearsEnd(c, start, After(c, start, inputs[..k - 1]), inputs[k - 1]);
      EndIsAsked(c, start, inputs, k - 1);
      assert EndAsked(inputs, k) <==> EndAsked(inputs, k - 1) || EndPhrase(inputs, k - 1);
    }
  }

  // ---- the grace: timed from the first poll that finds the verdict --------------------

  predicate FindsVerdict(inputs: seq<Input>, i: nat) {
    i < |inputs| && inputs[i].Polled? && Decided(inputs[..i])
  }

  ghost predicate FirstToFind(inputs: seq<Input>, i: nat) {
    FindsVerdict(inputs, i) && forall j: nat :: j < i ==> !FindsVerdict(inputs, j)
  }

  ghost predicate GraceTells(inputs: seq<Input>, k: nat, decisionAt: Option<real>) {
    && (decisionAt.None? ==> forall j: nat :: j < k ==> !FindsVerdict(inputs, j))
    && (decisionAt.Some? ==> exists i: nat :: i < k && FirstToFind(inputs, i) && inputs[i].now == decisionAt.value)
  }

  lemma NextTimesGrace(c: Config, start: real, s: State, i: Input)
    requires !c.interactive && !Next(c, start, s, i).fired.terminal
    ensures Next(c, start, s, i).decisionAt ==
              if i.Polled? && s.facts.decisionSeen && s.decisionAt.None? then Some(i.now) else s.decisionAt
  {
  }

  lemma {:induction false} GraceIsTimed(c: Config, start: real, inputs: seq<Input>, k: nat)
    requires !c.interactive && k <= |inputs| && !After(c, start, inputs[..k]).fired.terminal
    ensures GraceTells(inputs, k, After(c, start, inputs[..k]).decisionAt)
  {
    if k > 0 {
      var s := After(c, start, inputs[..k - 1]);
      Unfold(c, start, inputs, k - 1);
      NextGrows(c, start, s, inputs[k - 1]);
      GraceIsTimed(c, start, inputs, k - 1);
      NextTimesGrace(c, start, s, inputs[k - 1]);
      CountersCountMessages(c, start, inputs[..k - 1]);
      assert s.facts.decisionSeen <==> Decided(inputs[..k - 1]);
      if FindsVerdict(inputs, k - 1) && s.decisionAt.None? {
        assert FirstToFind(inputs, k - 1);
      }
    }
  }

  /** The grace has elapsed at the k-th input. */
  ghost predicate GraceOver(c: Config, inputs: seq<Input>, k: nat) {
    && k < |inputs| && inputs[k].Polled?
    && exists i: nat :: i <= k && FirstToFind(inputs, i) && inputs[k].now - inputs[i].now >= c.grace
  }

  // ---- the open floor: timed from the last poll that noticed the presenter ------------

  /** The presenter spoke, and no poll since then of the floor opened at `o` has noticed. */
  ghost predicate UnnoticedAt(inputs: seq<Input>, o: nat, k: nat, p: nat) {
    p < k && Presenter(inputs, p) && forall q: nat :: p < q < k && o < q && q < |inputs| ==> !inputs[q].Polled?
  }

  ghost predicate Unnoticed(inputs: seq<Input>, o: nat, k: nat) {
    exists p: nat :: UnnoticedAt(inputs, o, k, p)
  }

  /** The i-th input is the poll that opened the floor, or one that notices the presenter. */
  ghost predicate Notices(inputs: seq<Input>, o: nat, i: nat) {
    i < |inputs| && inputs[i].Polled? && (i == o || (o < i && Unnoticed(inputs, o, i)))
  }

  ghost predicate LastNotice(inputs: seq<Input>, o: nat, k: nat, i: nat) {
    o <= i < k && Notices(inputs, o, i) && forall j: nat :: i < j < k ==> !Notices(inputs, o, j)
  }

  /** The floor's fields after the first k inputs, the floor having been opened at `o`. */
  ghost predicate FloorTells(inputs: seq<Input>, o: nat, k: nat, f: Floor) {
    && (f.spoke <==> Unnoticed(inputs, o, k))
    && f.lastPresenterAt.Some?
    && exists i: nat :: LastNotice(inputs, o, k, i) && inputs[i].now == f.lastPresenterAt.value
  }

  lemma UnnoticedGrows(inputs: seq<Input>, o: nat, k: nat)
    requires k < |inputs|
    ensures Unnoticed(inputs, o, k + 1) <==>
              Presenter(inputs, k) || (Unnoticed(inputs, o, k) && !(inputs[k].Polled? && o < k))
  {
    if Unnoticed(inputs, o, k) && !(inputs[k].Polled? && o < k) {
      var p: nat :| UnnoticedAt(inputs, o, k, p);
      assert UnnoticedAt(inputs, o, k + 1, p);
    }
    if Presenter(inputs, k) {
      assert UnnoticedAt(inputs, o, k + 1, k);
    }
    var next := k + 1;
    if p: nat :| UnnoticedAt(inputs, o, next, p) {
      assert p < k ==> UnnoticedAt(inputs, o, k, p);
    }
  }

  /** What one input does to an open floor. */
  predicate FloorMoves(f: Floor, n: Floor, i: Input) {
    match i
    case Polled(now) => !n.spoke && n.lastPresenterAt == if f.spoke then Some(now) else f.lastPresenterAt
    case Recorded(m) => n.spoke == (f.spoke || m.isPresenter) && n.lastPresenterAt == f.lastPresenterAt
    case _ => n.spoke == f.spoke && n.lastPresenterAt == f.lastPresenterAt
  }

  lemma NextMovesFloor(c: Config, start: real, s: State, i: Input)
    requires c.interactive && !Next(c, start, s, i).fired.terminal && s.floor.openedAt.Some? && s.facts.decisionSeen
    ensures FloorMoves(s.floor, Next(c, start, s, i).floor, i)
  {
  }

  /** Before the floor is open only messages change what the presenter is known to have said. */
  lemma NextBeforeFloor(c: Config, start: real, s: State, i: Input)
    requires c.interactive && !Next(c, start, s, i).fired.terminal && s.floor.openedAt.None?
    ensures var n := Next(c, start, s, i).floor;
            && n.spoke == (s.floor.spoke || (i.Recorded? && i.m.isPresenter))
            && (n.openedAt.Some? ==> i.Polled? && n.lastPresenterAt == Some(i.now))
  {
  }

  lemma NextOpensDecided(c: Config, start: real, s: State, i: Input)
    requires s.floor.openedAt.Some? ==> s.facts.decisionSeen
    ensures Next(c, start, s, i).floor.openedAt.Some? ==> Next(c, start, s, i).facts.decisionSeen
  {
  }

  lemma {:induction false} OpenedMeansDecided(c: Config, start: real, inputs: seq<Input>, k: nat)
    requires k <= |inputs|
    ensures After(c, start, inputs[..k]).floor.openedAt.Some? ==> After(c, start, inputs[..k]).facts.decisionSeen
  {
    if k > 0 {
      OpenedMeansDecided(c, start, inputs, k - 1);
      Unfold(c, start, inputs, k - 1);
      NextOpensDecided(c, start, After(c, start, inputs[..k - 1]), inputs[k - 1]);
    }
  }

  /** Before the floor opens every presenter message is unnoticed. */
  lemma {:induction false} SpokeBeforeOpening(c: Config, start: real, inputs: seq<Input>, o: nat, k: nat)
    requires c.interactive && k <= o && k <= |inputs| && !After(c, start, inputs[..k]).fired.terminal
    requires After(c, start, inputs[..k]).floor.openedAt.None?
    ensures After(c, start, inputs[..k]).floor.spoke <==> Unnoticed(inputs, o, k)
  {
    if k > 0 {
      var s := After(c, start, inputs[..k - 1]);
      Unfold(c, start, inputs, k - 1);
      NextGrows(c, start, s, inputs[k - 1]);
      SpokeBeforeOpening(c, start, inputs, o, k - 1);
      NextBeforeFloor(c, start, s, inputs[k - 1]);
      UnnoticedGrows(inputs, o, k - 1);
    }
  }

  lemma LastNoticeGrows(inputs: seq<Input>, o: nat, k: nat, i: nat)
    requires LastNotice(inputs, o, k, i) && k < |inputs|
    ensures LastNotice(inputs, o, k + 1, if Notices(inputs, o, k) then k else i)
  {
  }

  lemma FloorTellsGrows(inputs: seq<Input>, o: nat, k: nat, f: Floor, n: Floor)
    requires o < k < |inputs| && FloorTells(inputs, o, k, f) && FloorMoves(f, n, inputs[k])
    ensures FloorTells(inputs, o, k + 1, n)
  {
    UnnoticedGrows(inputs, o, k);
    var i: nat :| LastNotice(inputs, o, k, i) && inputs[i].now == f.lastPresenterAt.value;
    LastNoticeGrows(inputs, o, k, i);
  }

  lemma FloorOpens(c: Config, start: real, inputs: seq<Input>, o: nat)
    requires c.interactive && o < |inputs| && Took(c, start, inputs, o, OPEN_FLOOR)
    requires !After(c, start, inputs[..o + 1]).fired.terminal
    ensures FloorTells(inputs, o, o + 1, After(c, start, inputs[..o + 1]).floor)
  {
    var s := After(c, start, inputs[..o]);
    Unfold(c, start, inputs, o);
    PollTakesOneNewAction(c, start, s, inputs[o].now);
    NextBeforeFloor(c, start, s, inputs[o]);
    SpokeBeforeOpening(c, start, inputs, o, o);
    UnnoticedGrows(inputs, o, o);
    assert LastNotice(inputs, o, o + 1, o);
  }

  lemma OpenFloorMoves(c: Config, start: real, inputs: seq<Input>, o: nat, k: nat)
    requires c.interactive && o < k < |inputs| && Took(c, start, inputs, o, OPEN_FLOOR)
    requires !After(c, start, inputs[..k + 1]).fired.terminal
    ensures !After(c, start, inputs[..k]).fired.terminal
    ensures FloorMoves(After(c, start, inputs[..k]).floor, After(c, start, inputs[..k + 1]).floor, inputs[k])
  {
    var s := After(c, start, inputs[..k]);
    Unfold(c, start, inputs, k);
    NextGrows(c, start, s, inputs[k]);
    FlagsAreAnswers(c, start, inputs, k);
    OpenedMeansDecided(c, start, inputs, k);
    NextMovesFloor(c, start, s, inputs[k]);
  }

  lemma {:induction false} FloorIsTimed(c: Config, start: real, inputs: seq<Input>, o: nat, k: nat)
    requires c.interactive && o < k <= |inputs| && !After(c, start, inputs[..k]).fired.terminal
    requires Took(c, start, inputs, o, OPEN_FLOOR)
    ensures FloorTells(inputs, o, k, After(c, start, inputs[..k]).floor)
    decreases k
  {
    var i := k - 1;
    if o == i {
      FloorOpens(c, start, inputs, o);
    } else {
      OpenFloorMoves(c, start, inputs, o, i);
      FloorIsTimed(c, start, inputs, o, i);
      FloorTellsGrows(inputs, o, i, After(c, start, inputs[..i]).floor, After(c, start, inputs[..k]).floor);
    }
  }

  /** The presenter has been silent for the idle period at the k-th input. */
  ghost predicate FloorSilent(c: Config, start: real, inputs: seq<Input>, k: nat) {
    && k < |inputs| && inputs[k].Polled?
    && exists o: nat, i: nat :: o < k && Took(c, start, inputs, o, OPEN_FLOOR) && LastNotice(inputs, o, k + 1, i) &&
                                inputs[k].now - inputs[i].now >= c.openFloorIdle
  }

  // ---- the answers --------------------------------------------------------------------

  predicate PastLimits(c: Config, start: real, inputs: seq<Input>, k: nat)
    requires k < |inputs|
  {
    inputs[k].Polled? && (inputs[k].now - start >= c.wallClock || AgentMessages(inputs[..k]) >= c.hardCap)
  }

  /** The meeting goes on and nobody has closed it with the end phrase. */
  ghost predicate Live(c: Config, start: real, inputs: seq<Input>, k: nat)
    requires k < |inputs|
  {
    inputs[k].Polled? && !Over(c, start, inputs, k) && !(c.interactive && EndAsked(inputs, k))
  }

  /** Live, undecided, within its limits and without the architect. */
  ghost predicate Waiting(c: Config, start: real, inputs: seq<Input>, k: nat)
    requires k < |inputs|
  {
    Live(c, start, inputs, k) && !Decided(inputs[..k]) && !PastLimits(c, start, inputs, k) && !Shown(inputs[..k])
  }

  ghost predicate NudgeDue(c: Config, start: real, inputs: seq<Input>, k: nat)
    requires k < |inputs|
  {
    && Waiting(c, start, inputs, k) && !Asked(inputs[..k]) && DesignMessages(inputs[..k]) >= c.softCap
    && !TookBefore(c, start, inputs, k, NUDGE_HANDOFF)
  }

  ghost predicate AddDue(c: Config, start: real, inputs: seq<Input>, k: nat)
    requires k < |inputs|
  {
    && Waiting(c, start, inputs, k) && !NudgeDue(c, start, inputs, k)
    && DesignMessages(inputs[..k]) >= c.softCap + c.handoffDeadline
    && !TookBefore(c, start, inputs, k, ADD_ARCHITECT)
  }

  ghost predicate OpenDue(c: Config, start: real, inputs: seq<Input>, k: nat)
    requires k < |inputs|
  {
    && Live(c, start, inputs, k) && c.interactive && Decided(inputs[..k])
    && !TookBefore(c, start, inputs, k, OPEN_FLOOR)
  }

  /** The end phrase, the grace or the presenter's silence closes the meeting. */
  ghost predicate CloseDue(c: Config, start: real, inputs: seq<Input>, k: nat)
    requires k < |inputs|
  {
    && inputs[k].Polled? && !Over(c, start, inputs, k)
    && ((c.interactive && EndAsked(inputs, k)) ||
        (Decided(inputs[..k]) && if c.interactive then FloorSilent(c, start, inputs, k) else GraceOver(c, inputs, k)))
  }

  /** The fields the k-th poll reads, as the inputs tell them. */
  lemma FieldsAreInputs(c: Config, start: real, inputs: seq<Input>, k: nat)
    requires k < |inputs|
    ensures var s := After(c, start, inputs[..k]);
            && FlagsTell(c, start, inputs, k, s)
            && (!s.fired.terminal ==> Tallies(s, inputs[..k]) && (s.floor.endRequested <==> EndAsked(inputs, k)))
  {
    FlagsAreAnswers(c, start, inputs, k);
    if !After(c, start, inputs[..k]).fired.terminal {
      CountersCountMessages(c, start, inputs[..k]);
      EndIsAsked(c, start, inputs, k);
    }
  }

  /** Every answer of an undecided meeting, for every configuration and every run. */
  lemma UndecidedAnswers(c: Config, start: real, inputs: seq<Input>, k: nat)
    requires k < |inputs|
    ensures HARD_KILL in Answer(c, start, inputs, k) <==>
              Live(c, start, inputs, k) && !Decided(inputs[..k]) && PastLimits(c, start, inputs, k)
    ensures NUDGE_HANDOFF in Answer(c, start, inputs, k) <==> NudgeDue(c, start, inputs, k)
    ensures ADD_ARCHITECT in Answer(c, start, inputs, k) <==> AddDue(c, start, inputs, k)
  {
    FieldsAreInputs(c, start, inputs, k);
  }

  /** The floor is opened once, by the first poll that finds the verdict of a live meeting. */
  lemma OpeningAnswers(c: Config, start: real, inputs: seq<Input>, k: nat)
    requires k < |inputs|
    ensures OPEN_FLOOR in Answer(c, start, inputs, k) <==> OpenDue(c, start, inputs, k)
  {
    FieldsAreInputs(c, start, inputs, k);
  }

  lemma GraceCloses(c: Config, inputs: seq<Input>, k: nat, decisionAt: Option<real>)
    requires FindsVerdict(inputs, k) && GraceTells(inputs, k, decisionAt)
    ensures GraceOver(c, inputs, k) <==>
              inputs[k].now - (if decisionAt.Some? then decisionAt.value else inputs[k].now) >= c.grace
  {
    if decisionAt.None? {
      assert FirstToFind(inputs, k);
      assert forall i: nat :: i <= k && FirstToFind(inputs, i) ==> i == k;
    } else {
      var i: nat :| i < k && FirstToFind(inputs, i) && inputs[i].now == decisionAt.value;
      assert forall j: nat :: FirstToFind(inputs, j) ==> j == i;
    }
  }

  lemma SilenceCloses(c: Config, start: real, inputs: seq<Input>, o: nat, k: nat, f: Floor)
    requires o < k < |inputs| && inputs[k].Polled? && Took(c, start, inputs, o, OPEN_FLOOR)
    requires FloorTells(inputs, o, k, f)
    ensures FloorSilent(c, start, inputs, k) <==>
              inputs[k].now - (if f.spoke then inputs[k].now else f.lastPresenterAt.value) >= c.openFloorIdle
  {
    var i: nat :| LastNotice(inputs, o, k, i) && inputs[i].now == f.lastPresenterAt.value;
    LastNoticeGrows(inputs, o, k, i);
    var last := if Notices(inputs, o, k) then k else i;
    var next := k + 1;
    forall p: nat, j: nat | p < k && Took(c, start, inputs, p, OPEN_FLOOR) && LastNotice(inputs, p, next, j)
      ensures p == o && j == last
    {
      if p < o { ActionsHappenOnce(c, start, inputs, p, o, OPEN_FLOOR, OPEN_FLOOR); }
      if o < p { ActionsHappenOnce(c, start, inputs, o, p, OPEN_FLOOR, OPEN_FLOOR); }
    }
  }

  /** The meeting is closed exactly by the end phrase, the grace or the presenter's silence. */
  lemma ClosingAnswers(c: Config, start: real, inputs: seq<Input>, k: nat)
    requires k < |inputs|
    ensures TERMINATE_OK in Answer(c, start, inputs, k) <==> CloseDue(c, start, inputs, k)
  {
    FieldsAreInputs(c, start, inputs, k);
    var s := After(c, start, inputs[..k]);
    if !s.fired.terminal && inputs[k].Polled? && s.facts.decisionSeen {
      assert FindsVerdict(inputs, k);
      if !c.interactive {
        GraceIsTimed(c, start, inputs, k);
        GraceCloses(c, inputs, k, s.decisionAt);
      } else if s.floor.openedAt.Some? {
        var o: nat :| o < k && Took(c, start, inputs, o, OPEN_FLOOR);
        FloorIsTimed(c, start, inputs, o, k);
        SilenceCloses(c, start, inputs, o, k, s.floor);
      }
    }
  }

  /** With at most one action an answer, every poll's answer is determined. */
  lemma AnswersAreDetermined(c: Config, start: real, inputs: seq<Input>, k: nat)
    requires k < |inputs|
    ensures Answer(c, start, inputs, k) ==
              if CloseDue(c, start, inputs, k) then [TERMINATE_OK]
              else if OpenDue(c, start, inputs, k) then [OPEN_FLOOR]
              else if Live(c, start, inputs, k) && !Decided(inputs[..k]) && PastLimits(c, start, inputs, k) then [HARD_KILL]
              else if NudgeDue(c, start, inputs, k) then [NUDGE_HANDOFF]
              else if AddDue(c, start, inputs, k) then [ADD_ARCHITECT]
              else []
  {
    UndecidedAnswers(c, start, inputs, k);
    OpeningAnswers(c, start, inputs, k);
    ClosingAnswers(c, start, inputs, k);
    var answer := Answer(c, start, inputs, k);
    if inputs[k].Polled? {
      PollTakesOneNewAction(c, start, After(c, start, inputs[..k]), inputs[k].now);
    }
    if answer != [] {
      assert answer == [answer[0]];
      assert answer[0] in answer;
      match answer[0]
      case NUDGE_HANDOFF => case ADD_ARCHITECT => case OPEN_FLOOR => case HARD_KILL => case TERMINATE_OK =>
    }
  }

  /** Why a closed meeting says it closed. */
  lemma ClosingReasons(c: Config, start: real, inputs: seq<Input>, k: nat)
    requires k < |inputs| && TERMINATE_OK in Answer(c, start, inputs, k)
    ensures After(c, start, inputs[..k + 1]).fired.reason ==
              if !c.interactive then GraceElapsed else if EndAsked(inputs, k) then PresenterEnded else FloorIdle
  {
    FieldsAreInputs(c, start, inputs, k);
    Unfold(c, start, inputs, k);
  }
}
