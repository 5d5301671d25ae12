/** control.py: what a stream of `agent.control` signals makes the bridge do. */
module Control {
  import opened Options
  import Dedup

  datatype Mode = Interrupt | Stop | Play | OtherMode

  /** `agentScope`: the signal addresses the whole agent. */
  datatype Signal = Signal(mode: Mode, room: Option<string>, agentScope: bool, correlationId: Option<string>)

  /** The rooms whose forwards are cancelled and the rooms that are nudged. */
  datatype Effect = Effect(cancelled: seq<string>, nudged: seq<string>)

  const NOTHING: Effect := Effect([], [])

  /** The signal's target rooms, None for a signal that addresses nothing. */
  function Targets(s: Signal, rooms: seq<string>): Option<seq<string>> {
    if s.room.Some? then Some([s.room.value]) else if s.agentScope then Some(rooms) else None
  }

  function Dispatch(s: Signal, rooms: seq<string>): Effect {
    match Targets(s, rooms)
    case None => NOTHING
    case Some(targets) =>
      match s.mode
      case Interrupt => Effect(targets, [])
      case Stop => Effect(targets, [])
      case Play => Effect([], targets)
      case OtherMode => NOTHING
  }

  predicate DoesNothing(e: Effect) {
    e.cancelled == [] && e.nudged == []
  }

  /**
    What a signal asks for: an interrupt or stop cancels and never nudges, a play nudges and
    never cancels; its room alone, or for the whole agent every fetched room in order.
    */
  predicate DoesAsTold(s: Signal, rooms: seq<string>, e: Effect) {
    && (s.mode.Interrupt? || s.mode.Stop? ==> e.nudged == [] && Reaches(s, rooms, e.cancelled))
    && (s.mode.Play? ==> e.cancelled == [] && Reaches(s, rooms, e.nudged))
    && (s.mode.OtherMode? ==> DoesNothing(e))
  }

  predicate Reaches(s: Signal, rooms: seq<string>, reached: seq<string>) {
    && (s.room.Some? ==> reached == [s.room.value])
    && (s.room.None? && s.agentScope ==> reached == rooms)
    && (s.room.None? && !s.agentScope ==> reached == [])
  }

  /** A signal and the agent's rooms as they were when it arrived. */
  datatype Arrival = Arrival(signal: Signal, rooms: seq<string>)

  function Ids(arrivals: seq<Arrival>): seq<Option<string>> {
    seq(|arrivals|, i requires 0 <= i < |arrivals| => arrivals[i].signal.correlationId)
  }

  /** What one signal does: nothing when its id is still cached. */
  function Reaction(cache: seq<string>, a: Arrival): Effect {
    if a.signal.correlationId.Some? && a.signal.correlationId.value in cache then NOTHING
    else Dispatch(a.signal, a.rooms)
  }

  /** What each of the arrivals does, one after the other. */
  function Effects(cache: seq<string>, arrivals: seq<Arrival>): seq<Effect>
    decreases |arrivals|
  {
    if arrivals == [] then []
    else [Reaction(cache, arrivals[0])] + Effects(CacheAfter(cache, arrivals[0].signal), arrivals[1..])
  }

  function CacheAfter(cache: seq<string>, s: Signal): seq<string> {
    if s.correlationId.None? then cache
    else Dedup.Remember(cache, s.correlationId.value, Dedup.CONTROL_LIMIT)
  }

  function CacheAfterAll(cache: seq<string>, arrivals: seq<Arrival>): seq<string>
    decreases |arrivals|
  {
    if arrivals == [] then cache else CacheAfterAll(CacheAfter(cache, arrivals[0].signal), arrivals[1..])
  }

  class ControlSignalHandler {
    const seen: Dedup.BoundedIds

    constructor ()
      ensures fresh(seen) && seen.ids == [] && seen.limit == Dedup.CONTROL_LIMIT
    {
      seen := new Dedup.BoundedIds(Dedup.CONTROL_LIMIT);
    }

    /** `handle`; `rooms` is what a fan-out would fetch. */
    method Handle(s: Signal, rooms: seq<string>) returns (effect: Effect)
      requires seen.limit == Dedup.CONTROL_LIMIT
      modifies seen
      ensures seen.ids == CacheAfter(old(seen.ids), s)
      ensures effect == Reaction(old(seen.ids), Arrival(s, rooms))
      ensures s.correlationId.Some? && s.correlationId.value in old(seen.ids) ==> DoesNothing(effect)
      ensures s.correlationId.None? || s.correlationId.value !in old(seen.ids) ==> DoesAsTold(s, rooms, effect)
    {
      effect := NOTHING;
      var duplicate := seen.IsDuplicate(s.correlationId);
      if duplicate {
        return;
      }
      var targets: seq<string> := [];
      if s.room.Some? {
        targets := [s.room.value];
      } else if s.agentScope {
        targets := rooms;
      } else {
        return;
      }
      if s.mode.Interrupt? || s.mode.Stop? {
        var cancelled: seq<string> := [];
        for i := 0 to |targets|
          invariant cancelled == targets[..i]
        {
          cancelled := cancelled + [targets[i]];
        }
        assert targets[..|targets|] == targets;
        effect := Effect(cancelled, []);
      } else if s.mode.Play? {
        effect := Effect([], targets);
      }
    }
  }

  lemma {:induction false} EffectsSplit(cache: seq<string>, a: seq<Arrival>, b: seq<Arrival>)
    ensures Effects(cache, a + b) == Effects(cache, a) + Effects(CacheAfterAll(cache, a), b)
    decreases |a|
  {
    if a == [] {
      assert a + b == b;
    } else {
      assert (a + b)[1..] == a[1..] + b;
      EffectsSplit(CacheAfter(cache, a[0].signal), a[1..], b);
    }
  }

  /** The handler's cache is the one the dedup lane keeps for the same ids. */
  lemma {:induction false} CacheIsLane(arrivals: seq<Arrival>)
    ensures CacheAfterAll([], arrivals) == Dedup.Replay(Ids(arrivals), Dedup.CONTROL_LIMIT).cache
  {
    if arrivals != [] {
      var rest, last := arrivals[..|arrivals| - 1], arrivals[|arrivals| - 1];
      CacheIsLane(rest);
      assert arrivals == rest + [last];
      CacheSplit([], rest, last);
      LaneStep(rest, last);
    }
  }

  /** One more signal takes the lane's cache where it takes the handler's. */
  lemma LaneStep(rest: seq<Arrival>, last: Arrival)
    ensures Dedup.Replay(Ids(rest + [last]), Dedup.CONTROL_LIMIT).cache ==
            CacheAfter(Dedup.Replay(Ids(rest), Dedup.CONTROL_LIMIT).cache, last.signal)
  {
    var ids := Ids(rest + [last]);
    assert ids[..|ids| - 1] == Ids(rest);
    assert ids[|ids| - 1] == last.signal.correlationId;
  }

  lemma {:induction false} CacheSplit(cache: seq<string>, a: seq<Arrival>, last: Arrival)
    ensures CacheAfterAll(cache, a + [last]) == CacheAfter(CacheAfterAll(cache, a), last.signal)
    decreases |a|
  {
    if a == [] {
      assert a + [last] == [last];
      assert [last][1..] == [];
    } else {
      assert (a + [last])[1..] == a[1..] + [last];
      CacheSplit(CacheAfter(cache, a[0].signal), a[1..], last);
    }
  }

  /** The k-th signal meets the cache that those before it left. */
  lemma {:induction false} KthEffect(cache: seq<string>, arrivals: seq<Arrival>, k: nat)
    requires k < |arrivals|
    ensures |Effects(cache, arrivals)| == |arrivals|
    ensures Effects(cache, arrivals)[k] == Reaction(CacheAfterAll(cache, arrivals[..k]), arrivals[k])
    decreases |arrivals|
  {
    var rest := arrivals[1..];
    if k > 0 {
      KthEffect(CacheAfter(cache, arrivals[0].signal), rest, k - 1);
      assert arrivals[..k][1..] == rest[..k - 1];
    } else if rest != [] {
      KthEffect(CacheAfter(cache, arrivals[0].signal), rest, 0);
    }
  }

  /**
    In every stream each signal does nothing when its id was recorded with fewer than 256
    recordings since, and otherwise exactly what it asks for.
    */
  lemma SignalsDoAsTold(arrivals: seq<Arrival>, k: nat)
    requires k < |arrivals|
    ensures |Effects([], arrivals)| == |arrivals|
    ensures var a, effect := arrivals[k], Effects([], arrivals)[k];
            var log := Dedup.Replay(Ids(arrivals[..k]), 256).log;
            if a.signal.correlationId.Some? && Dedup.StillFresh(log, a.signal.correlationId.value, 256)
            then DoesNothing(effect)
            else DoesAsTold(a.signal, a.rooms, effect)
  {
    KthEffect([], arrivals, k);
    CacheIsLane(arrivals[..k]);
    var lane := Dedup.Replay(Ids(arrivals[..k]), 256);
    Dedup.CacheRefinesLog(Ids(arrivals[..k]), 256);
    var id := arrivals[k].signal.correlationId;
    if id.Some? {
      Dedup.WindowIsFresh(lane.log, id.value, 256);
    }
  }

  /**
    A redelivered signal, while fewer than 256 ids were recorded since it was, does nothing,
    and every later signal does exactly what it would have done without the redelivery.
    */
  lemma RedeliveryIsHarmless(before: seq<Arrival>, again: Arrival, after: seq<Arrival>)
    requires again.signal.correlationId.Some?
    requires Dedup.StillFresh(Dedup.Replay(Ids(before), Dedup.CONTROL_LIMIT).log,
                              again.signal.correlationId.value, Dedup.CONTROL_LIMIT)
    ensures var early := Effects([], before);
            var late := Effects(CacheAfterAll([], before), after);
            Effects([], before + after) == early + late &&
            Effects([], before + ([again] + after)) == early + ([NOTHING] + late)
  {
    CacheIsLane(before);
    Dedup.CacheRefinesLog(Ids(before), Dedup.CONTROL_LIMIT);
    Dedup.WindowIsFresh(Dedup.Replay(Ids(before), Dedup.CONTROL_LIMIT).log,
                        again.signal.correlationId.value, Dedup.CONTROL_LIMIT);
    EffectsSplit([], before, after);
    EffectsSplit([], before, [again] + after);
    assert ([again] + after)[1..] == after;
  }
}
