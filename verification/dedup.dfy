/**
  The bridge's two bounded dedup caches: message ids recorded after a successful
  forward (bridge.py) and correlation ids of control signals (control.py).  Both are
  `OrderedDict`s used as insertion-ordered sets, so a cache is the sequence of its keys.
  */
module Dedup {
  import opened Options

  type Id = string

  const MESSAGE_LIMIT: nat := 10_000
  const CONTROL_LIMIT: nat := 256

  /** `ids` in insertion order after `id` is recorded and the oldest key popped on overflow. */
  function Remember(ids: seq<Id>, id: Id, limit: nat): seq<Id> {
    if id in ids then ids
    else if |ids| + 1 > limit then (ids + [id])[1..]
    else ids + [id]
  }

  /** The last `n` entries of an unbounded log. */
  function Window(log: seq<Id>, n: nat): seq<Id> {
    if |log| <= n then log else log[|log| - n..]
  }

  predicate Distinct(ids: seq<Id>) {
    forall i, j :: 0 <= i < j < |ids| ==> ids[i] != ids[j]
  }

  /** The unbounded log beside the cache: `id` is logged exactly when the cache records it. */
  function Log(log: seq<Id>, id: Id, limit: nat): seq<Id> {
    if id in Window(log, limit) then log else log + [id]
  }

  /** One recording keeps "the cache is the window over the log, without repeats". */
  lemma RememberTracksWindow(ids: seq<Id>, log: seq<Id>, id: Id, limit: nat)
    requires ids == Window(log, limit) && Distinct(ids)
    ensures Remember(ids, id, limit) == Window(Log(log, id, limit), limit)
    ensures Distinct(Remember(ids, id, limit))
  {
    if id !in ids {
      if |log| >= limit {
        assert (ids + [id])[1..] == (log + [id])[|log| + 1 - limit..];
      }
      var next := Remember(ids, id, limit);
      forall i, j | 0 <= i < j < |next| ensures next[i] != next[j] {
        var shift := if |ids| + 1 > limit then 1 else 0;
        assert next[i] == (ids + [id])[i + shift] && next[j] == (ids + [id])[j + shift];
      }
    }
  }

  /** A control lane: what the signals seen so far left in the cache, and the log behind it. */
  datatype Lane = Lane(cache: seq<Id>, log: seq<Id>, verdicts: seq<bool>)

  /** The signals' ids in arrival order, `None` where the server omitted the id. */
  function Replay(signals: seq<Option<Id>>, limit: nat): Lane {
    if signals == [] then Lane([], [], [])
    else
      var before := Replay(signals[..|signals| - 1], limit);
      match signals[|signals| - 1]
      case None => before.(verdicts := before.verdicts + [false])
      case Some(id) =>
        Lane(Remember(before.cache, id, limit),
             Log(before.log, id, limit),
             before.verdicts + [id in before.cache])
  }

  /** Over every arrival sequence the cache holds exactly the last `limit` recordings. */
  lemma {:induction false} CacheRefinesLog(signals: seq<Option<Id>>, limit: nat)
    ensures var lane := Replay(signals, limit);
            lane.cache == Window(lane.log, limit) && Distinct(lane.cache) &&
            |lane.verdicts| == |signals|
  {
    if signals != [] {
      var rest := signals[..|signals| - 1];
      CacheRefinesLog(rest, limit);
      var before := Replay(rest, limit);
      match signals[|signals| - 1]
      case None =>
      case Some(id) => RememberTracksWindow(before.cache, before.log, id, limit);
    }
  }

  /** Fewer than `limit` ids were recorded after some recording of `id`. */
  ghost predicate StillFresh(log: seq<Id>, id: Id, limit: nat) {
    exists i :: 0 <= i < |log| && log[i] == id && |log| - 1 - i < limit
  }

  /** Being in the window is being recorded with fewer than `limit` recordings since. */
  lemma WindowIsFresh(log: seq<Id>, id: Id, limit: nat)
    ensures id in Window(log, limit) <==> StillFresh(log, id, limit)
  {
    var base := if |log| <= limit then 0 else |log| - limit;
    if id in Window(log, limit) {
      var k :| 0 <= k < |Window(log, limit)| && Window(log, limit)[k] == id;
      assert log[base + k] == id;
    }
    if StillFresh(log, id, limit) {
      var i :| 0 <= i < |log| && log[i] == id && |log| - 1 - i < limit;
      assert Window(log, limit)[i - base] == id;
    }
  }

  lemma {:induction false} VerdictsOfPrefix(signals: seq<Option<Id>>, k: nat, limit: nat)
    requires k <= |signals|
    ensures |Replay(signals, limit).verdicts| == |signals|
    ensures Replay(signals[..k], limit).verdicts == Replay(signals, limit).verdicts[..k]
    decreases |signals|
  {
    CacheRefinesLog(signals, limit);
    if k == |signals| {
      assert signals[..k] == signals;
    } else {
      var rest := signals[..|signals| - 1];
      VerdictsOfPrefix(rest, k, limit);
      assert rest[..k] == signals[..k];
      assert Replay(signals, limit).verdicts[..|rest|] == Replay(rest, limit).verdicts;
    }
  }

  /**
    The verdict on the k-th signal, for every sequence of signals: suppressed exactly when
    it carries an id recorded with fewer than `limit` recordings since; never without an id.
    */
  lemma SuppressedIffFresh(signals: seq<Option<Id>>, k: nat, limit: nat)
    requires k < |signals|
    ensures |Replay(signals, limit).verdicts| == |signals|
    ensures Replay(signals, limit).verdicts[k] <==>
            signals[k].Some? && StillFresh(Replay(signals[..k], limit).log, signals[k].value, limit)
  {
    VerdictsOfPrefix(signals, k + 1, limit);
    CacheRefinesLog(signals[..k], limit);
    assert signals[..k + 1][..k] == signals[..k];
    var lane := Replay(signals[..k], limit);
    assert |lane.verdicts| == k;
    assert Replay(signals, limit).verdicts[k] == Replay(signals[..k + 1], limit).verdicts[k];
    if signals[k].Some? {
      WindowIsFresh(lane.log, signals[k].value, limit);
    }
  }

  // ---- the verdicts, without the cache or its log -------------------------------------

  /** The j-th signal carried an id and was let through. */
  predicate RecordedAt(signals: seq<Option<Id>>, verdicts: seq<bool>, j: nat) {
    j < |signals| && j < |verdicts| && signals[j].Some? && !verdicts[j]
  }

  /** How many of the first j signals were. */
  function Recordings(signals: seq<Option<Id>>, verdicts: seq<bool>, j: nat): nat {
    if j == 0 then 0
    else Recordings(signals, verdicts, j - 1) + if RecordedAt(signals, verdicts, j - 1) then 1 else 0
  }

  lemma {:induction false} RecordingsOfPrefix(signals: seq<Option<Id>>, verdicts: seq<bool>, n: nat, j: nat)
    requires j <= n <= |signals| && n <= |verdicts|
    ensures Recordings(signals[..n], verdicts[..n], j) == Recordings(signals, verdicts, j)
  {
    if j > 0 {
      RecordingsOfPrefix(signals, verdicts, n, j - 1);
    }
  }

  lemma {:induction false} RecordingsGrow(signals: seq<Option<Id>>, verdicts: seq<bool>, i: nat, j: nat)
    requires i <= j
    ensures Recordings(signals, verdicts, i) <= Recordings(signals, verdicts, j)
    decreases j
  {
    if i < j {
      RecordingsGrow(signals, verdicts, i, j - 1);
    }
  }

  ghost predicate LoggedAs(signals: seq<Option<Id>>, verdicts: seq<bool>, log: seq<Id>, j: nat, p: nat) {
    RecordedAt(signals, verdicts, j) && Recordings(signals, verdicts, j) == p < |log| && log[p] == signals[j].value
  }

  /** The log lists the recorded signals' ids, in order. */
  ghost predicate Lists(signals: seq<Option<Id>>, verdicts: seq<bool>, log: seq<Id>) {
    && |log| == Recordings(signals, verdicts, |signals|)
    && (forall j: nat :: RecordedAt(signals, verdicts, j) ==>
          LoggedAs(signals, verdicts, log, j, Recordings(signals, verdicts, j)))
    && (forall p: nat :: p < |log| ==> Listed(signals, verdicts, log, p))
  }

  ghost predicate Listed(signals: seq<Option<Id>>, verdicts: seq<bool>, log: seq<Id>, p: nat) {
    exists j: nat :: LoggedAs(signals, verdicts, log, j, p)
  }

  lemma LastListed(signals: seq<Option<Id>>, verdicts: seq<bool>, log: seq<Id>, longer: seq<Id>)
    requires |signals| == |verdicts| > 0
    requires Lists(signals[..|signals| - 1], verdicts[..|signals| - 1], log)
    requires longer == if RecordedAt(signals, verdicts, |signals| - 1) then log + [signals[|signals| - 1].value] else log
    ensures Lists(signals, verdicts, longer)
  {
    var n := |signals| - 1;
    forall j: nat | j <= n ensures Recordings(signals[..n], verdicts[..n], j) == Recordings(signals, verdicts, j) {
      RecordingsOfPrefix(signals, verdicts, n, j);
    }
    forall j: nat | RecordedAt(signals, verdicts, j)
      ensures LoggedAs(signals, verdicts, longer, j, Recordings(signals, verdicts, j))
    {
      if j < n {
        assert RecordedAt(signals[..n], verdicts[..n], j);
        assert LoggedAs(signals[..n], verdicts[..n], log, j, Recordings(signals, verdicts, j));
      }
    }
    forall p: nat | p < |longer| ensures Listed(signals, verdicts, longer, p) {
      if p < |log| {
        assert Listed(signals[..n], verdicts[..n], log, p);
        var j: nat :| LoggedAs(signals[..n], verdicts[..n], log, j, p);
        assert LoggedAs(signals, verdicts, longer, j, p);
      } else {
        assert LoggedAs(signals, verdicts, longer, n, p);
      }
    }
  }

  lemma {:induction false} LogListsRecordings(signals: seq<Option<Id>>, limit: nat)
    ensures var lane := Replay(signals, limit);
            |lane.verdicts| == |signals| && Lists(signals, lane.verdicts, lane.log)
  {
    CacheRefinesLog(signals, limit);
    if signals != [] {
      var n := |signals| - 1;
      LogListsRecordings(signals[..n], limit);
      CacheRefinesLog(signals[..n], limit);
      var before, lane := Replay(signals[..n], limit), Replay(signals, limit);
      assert lane.verdicts[..n] == before.verdicts;
      LastListed(signals, lane.verdicts, before.log, lane.log);
    }
  }

  /** An earlier signal with the same id was let through, with fewer than `limit` others since. */
  ghost predicate Repeats(signals: seq<Option<Id>>, verdicts: seq<bool>, k: nat, j: nat, limit: nat) {
    && j < k < |signals| && RecordedAt(signals, verdicts, j) && signals[j] == signals[k]
    && Recordings(signals, verdicts, k) - Recordings(signals, verdicts, j + 1) < limit
  }

  lemma FreshIsRepeated(signals: seq<Option<Id>>, verdicts: seq<bool>, log: seq<Id>, k: nat, limit: nat)
    requires k < |signals| == |verdicts| && signals[k].Some? && Lists(signals[..k], verdicts[..k], log)
    ensures StillFresh(log, signals[k].value, limit) <==> exists j: nat :: Repeats(signals, verdicts, k, j, limit)
  {
    forall j: nat | j <= k ensures Recordings(signals[..k], verdicts[..k], j) == Recordings(signals, verdicts, j) {
      RecordingsOfPrefix(signals, verdicts, k, j);
    }
    if StillFresh(log, signals[k].value, limit) {
      var p :| 0 <= p < |log| && log[p] == signals[k].value && |log| - 1 - p < limit;
      assert Listed(signals[..k], verdicts[..k], log, p);
      var j: nat :| LoggedAs(signals[..k], verdicts[..k], log, j, p);
      assert Repeats(signals, verdicts, k, j, limit);
    }
    if j: nat :| Repeats(signals, verdicts, k, j, limit) {
      var p := Recordings(signals, verdicts, j);
      assert RecordedAt(signals[..k], verdicts[..k], j);
      assert LoggedAs(signals[..k], verdicts[..k], log, j, p);
    }
  }

  /**
    Every verdict follows from the signals and the verdicts before it: a signal is
    suppressed exactly when one with its id was let through fewer than `limit` letting
    throughs ago.
    */
  lemma SuppressedIffRepeated(signals: seq<Option<Id>>, k: nat, limit: nat)
    requires k < |signals|
    ensures |Replay(signals, limit).verdicts| == |signals|
    ensures Replay(signals, limit).verdicts[k] <==>
            exists j: nat :: Repeats(signals, Replay(signals, limit).verdicts, k, j, limit)
  {
    SuppressedIffFresh(signals, k, limit);
    LogListsRecordings(signals[..k], limit);
    VerdictsOfPrefix(signals, k, limit);
    var verdicts, log := Replay(signals, limit).verdicts, Replay(signals[..k], limit).log;
    if signals[k].Some? {
      FreshIsRepeated(signals, verdicts, log, k, limit);
    }
  }

  /** The cache object both owners hold; `limit` is MESSAGE_LIMIT or CONTROL_LIMIT. */
  class BoundedIds {
    var ids: seq<Id>
    const limit: nat

    constructor (limit: nat)
      ensures ids == [] && this.limit == limit
    {
      ids := [];
      this.limit := limit;
    }

    /** `_remember_processed_message`: a known id is left where it is. */
    method RememberMessage(id: Id)
      modifies this
      ensures ids == Remember(old(ids), id, limit)
    {
      if id in ids {
        return;
      }
      ids := ids + [id];
      if |ids| > limit {
        ids := ids[1..];
      }
    }

    /** `_is_duplicate`: judge a control signal's id and record an unseen one. */
    method IsDuplicate(correlationId: Option<Id>) returns (duplicate: bool)
      modifies this
      ensures duplicate <==> correlationId.Some? && correlationId.value in old(ids)
      ensures ids == if correlationId.None? then old(ids) else Remember(old(ids), correlationId.value, limit)
    {
      match correlationId
      case None =>
        return false;
      case Some(id) =>
        if id in ids {
          return true;
        }
        ids := ids + [id];
        if |ids| > limit {
          ids := ids[1..];
        }
        return false;
    }
  }
}
