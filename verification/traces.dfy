/** Sequences of steps of any machine given by its guard and its transition function. */
module Traces {
  /** `steps` is enabled one after the other from `first` and ends in `last`. */
  ghost predicate Leads<S, A>(ok: (S, A) -> bool, next: (S, A) -> S, first: S, steps: seq<A>, last: S)
    decreases |steps|
  {
    if steps == [] then first == last
    else ok(first, steps[0]) && Leads(ok, next, next(first, steps[0]), steps[1..], last)
  }

  ghost predicate Path<S, A>(ok: (S, A) -> bool, next: (S, A) -> S, states: seq<S>, steps: seq<A>) {
    && |states| == |steps| + 1
    && forall i :: 0 <= i < |steps| ==> ok(states[i], steps[i]) && states[i + 1] == next(states[i], steps[i])
  }

  lemma {:induction false} Append<S, A>(ok: (S, A) -> bool, next: (S, A) -> S, first: S, a: seq<A>, mid: S, b: seq<A>, last: S)
    requires Leads(ok, next, first, a, mid) && Leads(ok, next, mid, b, last)
    ensures Leads(ok, next, first, a + b, last)
    decreases |a|
  {
    if a == [] {
      assert a + b == b;
    } else {
      Append(ok, next, next(first, a[0]), a[1..], mid, b, last);
      assert (a + b)[1..] == a[1..] + b;
    }
  }

  lemma {:induction false} LeadsIsPath<S, A>(ok: (S, A) -> bool, next: (S, A) -> S, first: S, steps: seq<A>, last: S)
    returns (states: seq<S>)
    requires Leads(ok, next, first, steps, last)
    ensures Path(ok, next, states, steps) && states[0] == first && states[|steps|] == last
    decreases |steps|
  {
    if steps == [] {
      states := [first];
    } else {
      var rest := LeadsIsPath(ok, next, next(first, steps[0]), steps[1..], last);
      states := [first] + rest;
      forall i | 0 <= i < |steps|
        ensures ok(states[i], steps[i]) && states[i + 1] == next(states[i], steps[i])
      {
        if i > 0 {
          assert states[i] == rest[i - 1] && states[i + 1] == rest[i] && steps[i] == steps[1..][i - 1];
        }
      }
    }
  }
}
