/** bridge.py: the reconnect loop of `AgentRunner.run` and its backoff, over a script of attempts. */
module Reconnect {
  datatype Config = Config(initial: real, maxDelay: real, multiplier: real, jitter: real, maxRetries: nat)

  /** What the configuration's validators guarantee. */
  predicate Valid(c: Config) {
    c.initial > 0.0 && c.maxDelay > 0.0 && c.multiplier >= 1.0 && c.jitter >= 0.0
  }

  /** How one `_connect_and_consume` ended; `connected`: the link had come up in it. */
  datatype Outcome = Clean | Cancelled | Failed(connected: bool)

  /**
    One turn of the loop: was shutdown requested before it, how did it end, was shutdown
    requested by then, was the wait after it cancelled, and what did the dice say.
    */
  datatype Attempt = Attempt(shutdownBefore: bool, outcome: Outcome, shutdownAfter: bool,
                             waitCancelled: bool, dice: real)

  datatype End = ShutDown | CleanExit | CancelledExit | GaveUp | StillRunning

  datatype Sleep = Sleep(delay: real, seconds: real)

  function Min(a: real, b: real): real { if a <= b then a else b }

  function Power(m: real, n: nat): real {
    if n == 0 then 1.0 else m * Power(m, n - 1)
  }

  /** The initial delay scaled up n times. */
  function Grown(c: Config, n: nat): real {
    c.initial * Power(c.multiplier, n)
  }

  /** The delay of the k-th consecutive failure. */
  function Delay(c: Config, k: nat): real
    requires k >= 1
  {
    if k == 1 then c.initial else Min(Grown(c, k - 1), c.maxDelay)
  }

  /** The position of the i-th turn's failure in its streak; a lost connection starts a new one. */
  function Streak(attempts: seq<Attempt>, i: nat): nat
    requires i < |attempts|
    ensures Streak(attempts, i) >= 1
  {
    if i == 0 || (attempts[i].outcome.Failed? && attempts[i].outcome.connected) then 1
    else Streak(attempts, i - 1) + 1
  }

  predicate Exhausted(c: Config, attempts: seq<Attempt>, i: nat)
    requires i < |attempts|
  {
    c.maxRetries > 0 && Streak(attempts, i) >= c.maxRetries
  }

  /** Turn i fails and is followed by a completed sleep. */
  predicate Retries(c: Config, attempts: seq<Attempt>, i: nat)
    requires i < |attempts|
  {
    var a := attempts[i];
    !a.shutdownBefore && a.outcome.Failed? && !a.shutdownAfter && !Exhausted(c, attempts, i) && !a.waitCancelled
  }

  /** How the loop ends when turn i does not retry. */
  function EndOf(c: Config, attempts: seq<Attempt>, i: nat): End
    requires i <= |attempts|
  {
    if i == |attempts| then StillRunning
    else if attempts[i].shutdownBefore then ShutDown
    else if attempts[i].outcome.Clean? then CleanExit
    else if attempts[i].outcome.Cancelled? then CancelledExit
    else if attempts[i].shutdownAfter then ShutDown
    else if Exhausted(c, attempts, i) then GaveUp
    else CancelledExit
  }

  lemma {:induction false} PowerAtLeastOne(m: real, n: nat)
    requires m >= 1.0
    ensures Power(m, n) >= 1.0
  {
    if n > 0 {
      PowerAtLeastOne(m, n - 1);
      var p := Power(m, n - 1);
      Scale(1.0, m, p);
      assert 1.0 * p == p;
    }
  }

  lemma Scale(a: real, b: real, m: real)
    requires a <= b && m >= 0.0
    ensures a * m <= b * m
  {
    assert (b - a) * m >= 0.0;
  }

  /** Capping before scaling up and capping again is capping once. */
  lemma CapThenScale(grown: real, cap: real, m: real)
    requires m >= 1.0 && cap > 0.0
    ensures Min(Min(grown, cap) * m, cap) == Min(grown * m, cap)
  {
    if grown > cap {
      Scale(cap, grown, m);
      Scale(1.0, m, cap);
      assert 1.0 * cap == cap && m * cap == cap * m;
    }
  }

  /** Multiplying and capping the k-th delay gives the next one, even if the first exceeds the cap. */
  lemma NextDelay(c: Config, k: nat)
    requires Valid(c) && k >= 1
    ensures Min(Delay(c, k) * c.multiplier, c.maxDelay) == Delay(c, k + 1)
  {
    var p := Power(c.multiplier, k - 1);
    assert Power(c.multiplier, k) == c.multiplier * p;
    assert (c.initial * p) * c.multiplier == c.initial * (c.multiplier * p);
    if k == 1 {
      assert c.initial * p == c.initial;
    } else {
      CapThenScale(c.initial * p, c.maxDelay, c.multiplier);
    }
  }

  lemma DelayPositive(c: Config, k: nat)
    requires Valid(c) && k >= 1
    ensures Delay(c, k) > 0.0
  {
    PowerAtLeastOne(c.multiplier, k - 1);
    var p := Power(c.multiplier, k - 1);
    Scale(1.0, p, c.initial);
    assert 1.0 * c.initial == c.initial && p * c.initial == c.initial * p;
  }

  lemma Portion(share: real, whole: real)
    requires 0.0 <= share <= 1.0 && whole >= 0.0
    ensures 0.0 <= share * whole <= whole
  {
    Scale(0.0, share, whole);
    Scale(share, 1.0, whole);
    assert 0.0 * whole == 0.0 && 1.0 * whole == whole;
  }

  /** Partial jitter: only the configured fraction of the delay is random. */
  predicate Jittered(c: Config, delay: real, seconds: real) {
    (1.0 - Min(c.jitter, 1.0)) * delay <= seconds <= delay
  }

  /** `_backoff_sleep_seconds`: partial jitter never sleeps longer than the delay. */
  method SleepSeconds(c: Config, delay: real, dice: real) returns (seconds: real)
    requires Valid(c) && delay >= 0.0 && 0.0 <= dice <= 1.0
    ensures Jittered(c, delay, seconds)
    ensures dice == 0.0 ==> seconds == (1.0 - Min(c.jitter, 1.0)) * delay
    ensures dice == 1.0 ==> seconds == delay
  {
    var jitter := Min(c.jitter, 1.0);
    var spread := delay * jitter;
    Portion(jitter, delay);
    Portion(dice, spread);
    var draw := dice * spread;
    seconds := delay * (1.0 - jitter) + draw;
    assert delay * (1.0 - jitter) == delay - spread;
  }

  /** The wait after the k-th failure of a streak, and the delay the next one starts from. */
  method BackOff(c: Config, k: nat, delay: real, dice: real) returns (wait: Sleep, next: real)
    requires Valid(c) && k >= 1 && delay == Delay(c, k) && 0.0 <= dice <= 1.0
    ensures wait.delay == delay && Jittered(c, delay, wait.seconds) && next == Delay(c, k + 1)
  {
    DelayPositive(c, k);
    var seconds := SleepSeconds(c, delay, dice);
    NextDelay(c, k);
    return Sleep(delay, seconds), Min(delay * c.multiplier, c.maxDelay);
  }

  /** Turn i retried after the sleep s: the delay of its place in the streak, jittered. */
  predicate WaitedFor(c: Config, attempts: seq<Attempt>, i: nat, s: Sleep)
    requires i < |attempts|
  {
    Retries(c, attempts, i) && s.delay == Delay(c, Streak(attempts, i)) && Jittered(c, s.delay, s.seconds)
  }

  predicate Waited(c: Config, attempts: seq<Attempt>, sleeps: seq<Sleep>)
    requires |sleeps| <= |attempts|
  {
    forall i :: 0 <= i < |sleeps| ==> WaitedFor(c, attempts, i, sleeps[i])
  }

  lemma OneMoreWait(c: Config, attempts: seq<Attempt>, sleeps: seq<Sleep>, s: Sleep)
    requires |sleeps| < |attempts| && Waited(c, attempts, sleeps) && WaitedFor(c, attempts, |sleeps|, s)
    ensures Waited(c, attempts, sleeps + [s])
  {
    var longer := sleeps + [s];
    forall i | 0 <= i < |longer|
      ensures WaitedFor(c, attempts, i, longer[i])
    {
      if i < |sleeps| {
        assert WaitedFor(c, attempts, i, sleeps[i]);
      }
    }
  }

  /**
    `run`: the k-th turn's failure waits on the delay of its place in its streak; the loop
    ends at the first turn that does not retry, so with n retries a streak ends it at
    exactly its n-th failure, after n - 1 sleeps.
    */
  method Run(c: Config, attempts: seq<Attempt>) returns (sleeps: seq<Sleep>, end: End)
    requires Valid(c)
    requires forall a :: a in attempts ==> 0.0 <= a.dice <= 1.0
    ensures |sleeps| <= |attempts|
    ensures |sleeps| < |attempts| ==> !Retries(c, attempts, |sleeps|)
    ensures end == EndOf(c, attempts, |sleeps|)
    ensures Waited(c, attempts, sleeps)
  {
    sleeps := [];
    var delay := c.initial;
    var failures := 0;
    while |sleeps| < |attempts|
      invariant |sleeps| <= |attempts|
      invariant Waited(c, attempts, sleeps)
      invariant failures == if sleeps == [] then 0 else Streak(attempts, |sleeps| - 1)
      invariant delay == Delay(c, failures + 1)
      decreases |attempts| - |sleeps|
    {
      var a := attempts[|sleeps|];
      if a.shutdownBefore {
        return sleeps, ShutDown;
      }
      if a.outcome.Clean? {
        return sleeps, CleanExit;
      }
      if a.outcome.Cancelled? {
        return sleeps, CancelledExit;
      }
      if a.shutdownAfter {
        return sleeps, ShutDown;
      }
      if a.outcome.connected {
        delay := c.initial;
        failures := 0;
      }
      failures := failures + 1;
      assert failures == Streak(attempts, |sleeps|);
      if c.maxRetries > 0 && failures >= c.maxRetries {
        return sleeps, GaveUp;
      }
      if a.waitCancelled {
        return sleeps, CancelledExit;
      }
      var wait, next := BackOff(c, failures, delay, a.dice);
      OneMoreWait(c, attempts, sleeps, wait);
      sleeps := sleeps + [wait];
      delay := next;
    }
    return sleeps, StillRunning;
  }

  // ---- the run, in the fields of its turns --------------------------------------------

  predicate LostConnection(a: Attempt) {
    a.outcome.Failed? && a.outcome.connected
  }

  /** The streak of turn i's failure began at turn b: nothing came up since, unless at b itself. */
  predicate Began(attempts: seq<Attempt>, i: nat, b: nat) {
    b <= i < |attempts| && (b == 0 || LostConnection(attempts[b])) && forall k :: b < k <= i ==> !LostConnection(attempts[k])
  }

  /** The turn fails while nobody is shutting down. */
  predicate Fails(a: Attempt) {
    !a.shutdownBefore && a.outcome.Failed? && !a.shutdownAfter
  }

  lemma {:induction false} StreakReachesBack(attempts: seq<Attempt>, k: nat)
    requires k < |attempts|
    ensures Streak(attempts, k) <= k + 1 && Began(attempts, k, k + 1 - Streak(attempts, k))
    ensures forall b: nat :: Began(attempts, k, b) ==> k + 1 - b == Streak(attempts, k)
  {
    if k > 0 {
      StreakReachesBack(attempts, k - 1);
      forall b: nat | Began(attempts, k, b) && b < k ensures Began(attempts, k - 1, b) {}
    }
  }

  /**
    Whichever turn the loop reaches: it retries after a failure that is neither the last
    allowed of its streak nor cut short; it gives up at a failure exactly when that is the
    n-th of its streak and n retries are the limit; every other end has its own cause.
    */
  lemma TurnsDecide(c: Config, attempts: seq<Attempt>, i: nat, b: nat)
    requires Valid(c) && Began(attempts, i, b)
    requires forall k :: 0 <= k < i ==> Retries(c, attempts, k)
    ensures var a, last := attempts[i], c.maxRetries > 0 && i + 1 - b == c.maxRetries;
            && (Retries(c, attempts, i) <==> Fails(a) && !last && !a.waitCancelled)
            && (!Retries(c, attempts, i) ==>
                  EndOf(c, attempts, i) ==
                    if a.shutdownBefore || (a.outcome.Failed? && a.shutdownAfter) then ShutDown
                    else if a.outcome.Clean? then CleanExit
                    else if a.outcome.Failed? && last then GaveUp
                    else CancelledExit)
  {
    StreakReachesBack(attempts, i);
    if i > 0 {
      assert Retries(c, attempts, i - 1);
    }
  }

  /** The i-th sleep: the capped geometric delay of its place in the streak, less at most the jitter. */
  lemma SleepsFollowTheStreak(c: Config, attempts: seq<Attempt>, sleeps: seq<Sleep>, i: nat, b: nat)
    requires Valid(c) && |sleeps| <= |attempts| && Waited(c, attempts, sleeps) && i < |sleeps| && Began(attempts, i, b)
    ensures sleeps[i].delay == if i == b then c.initial else Min(Grown(c, i - b), c.maxDelay)
    ensures Jittered(c, sleeps[i].delay, sleeps[i].seconds)
  {
    assert WaitedFor(c, attempts, i, sleeps[i]);
    StreakReachesBack(attempts, i);
  }

  /** The two facts that make `Power` the power of its base. */
  lemma {:induction false} PowerIsPower(m: real, a: nat, b: nat)
    ensures Power(m, 0) == 1.0 && Power(m, 1) == m
    ensures Power(m, a + b) == Power(m, a) * Power(m, b)
    decreases a
  {
    assert Power(m, 1) == m * Power(m, 0);
    if a > 0 {
      PowerIsPower(m, a - 1, b);
      var p, q := Power(m, a - 1), Power(m, b);
      assert m * (p * q) == (m * p) * q;
    }
  }

  /** When the loop gives up, the last failure is exactly the n-th of its streak. */
  lemma GivesUpAtTheLimit(c: Config, attempts: seq<Attempt>, k: nat)
    requires k < |attempts| && forall i :: 0 <= i < k ==> Retries(c, attempts, i)
    requires EndOf(c, attempts, k).GaveUp?
    ensures 0 < c.maxRetries == Streak(attempts, k) <= k + 1
    ensures forall i :: k + 1 - c.maxRetries < i <= k ==> !LostConnection(attempts[i])
  {
    StreakReachesBack(attempts, k);
    if k > 0 {
      assert Retries(c, attempts, k - 1);
    }
  }
}
