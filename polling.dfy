/** The polling schedule: a finite warm-up list of wait intervals followed by
    a fixed rest interval forever, optionally cut off once the running total
    would exceed a maximum duration. Durations are whole milliseconds. */
module Polling {
  import opened Wrappers

  /** Element k of the unbounded schedule. */
  function IntervalAt(start: seq<nat>, rest: nat, k: nat): nat {
    if k < |start| then start[k] else rest
  }

  /** Sum of the first n elements of the unbounded schedule. */
  function Elapsed(start: seq<nat>, rest: nat, n: nat): nat {
    if n == 0 then 0 else Elapsed(start, rest, n - 1) + IntervalAt(start, rest, n - 1)
  }

  /** The first n elements of the unbounded schedule. */
  function Prefix(start: seq<nat>, rest: nat, n: nat): seq<nat> {
    if n == 0 then [] else Prefix(start, rest, n - 1) + [IntervalAt(start, rest, n - 1)]
  }

  lemma {:induction false} PrefixAt(start: seq<nat>, rest: nat, n: nat)
    ensures |Prefix(start, rest, n)| == n
    ensures forall j :: 0 <= j < n ==> Prefix(start, rest, n)[j] == IntervalAt(start, rest, j)
  {
    if n > 0 {
      PrefixAt(start, rest, n - 1);
    }
  }

  /** Element k is emitted by the (possibly bounded) schedule: no running
      total up to and including element k exceeds the bound. */
  ghost predicate Emits(start: seq<nat>, rest: nat, maxDuration: Option<nat>, k: nat) {
    maxDuration.None? ||
    forall n :: 1 <= n <= k + 1 ==> Elapsed(start, rest, n) <= maxDuration.value
  }

  lemma {:induction false} ElapsedMonotone(start: seq<nat>, rest: nat, m: nat, n: nat)
    requires m <= n
    ensures Elapsed(start, rest, m) <= Elapsed(start, rest, n)
  {
    if m < n {
      ElapsedMonotone(start, rest, m, n - 1);
    }
  }

  /** With a bound, element k is emitted exactly when the running total
      including it does not exceed the bound; reaching the bound exactly is
      allowed. */
  lemma EmitsWithinBound(start: seq<nat>, rest: nat, bound: nat, k: nat)
    ensures Emits(start, rest, Some(bound), k) <==> Elapsed(start, rest, k + 1) <= bound
  {
    if Elapsed(start, rest, k + 1) <= bound {
      forall n | 1 <= n <= k + 1
        ensures Elapsed(start, rest, n) <= bound
      {
        ElapsedMonotone(start, rest, n, k + 1);
      }
    }
  }

  /** Once an element is withheld, no later element is ever emitted. This
      follows directly from the definition of `Emits`, which looks at every
      running total up to the element. */
  lemma NeverResumes(start: seq<nat>, rest: nat, maxDuration: Option<nat>, k: nat, j: nat)
    requires k <= j && !Emits(start, rest, maxDuration, k)
    ensures !Emits(start, rest, maxDuration, j)
  {
  }

  lemma {:induction false} ElapsedPastWarmUp(start: seq<nat>, rest: nat, n: nat)
    ensures Elapsed(start, rest, |start| + n) >= n * rest
  {
    if n > 0 {
      ElapsedPastWarmUp(start, rest, n - 1);
    }
  }

  /** With a positive rest interval, a bounded schedule is finite. */
  lemma BoundedScheduleEnds(start: seq<nat>, rest: nat, bound: nat)
    requires rest > 0
    ensures !Emits(start, rest, Some(bound), |start| + bound)
  {
    ElapsedPastWarmUp(start, rest, bound + 1);
    EmitsWithinBound(start, rest, bound, |start| + bound);
  }

  /** Warm-up [100, 200, 300, 500] ms, rest 1000 ms, bound 1000 ms: the
      schedule emits 100, 200, 300 and stops, since 100 + 200 + 300 + 500
      exceeds the bound. Without a bound the fifth element and all later
      ones are 1000. */
  lemma DefaultScheduleExample(k: nat)
    ensures Emits([100, 200, 300, 500], 1000, Some(1000), 2)
    ensures !Emits([100, 200, 300, 500], 1000, Some(1000), 3)
    ensures Prefix([100, 200, 300, 500], 1000, 3) == [100, 200, 300]
    ensures Prefix([100, 200, 300, 500], 1000, 5) == [100, 200, 300, 500, 1000]
    ensures k >= 4 ==> IntervalAt([100, 200, 300, 500], 1000, k) == 1000
  {
    var start: seq<nat> := [100, 200, 300, 500];
    assert Elapsed(start, 1000, 3) == 600;
    assert Elapsed(start, 1000, 4) == 1100;
    EmitsWithinBound(start, 1000, 1000, 2);
    EmitsWithinBound(start, 1000, 1000, 3);
  }

  /** `polling_intervals(start, rest, max_duration)` as the explicit iterator
      the generator stands for: how many intervals it has yielded, the
      running total, and whether it has finished. */
  class PollingSchedule {
    const start: seq<nat>
    const rest: nat
    const maxDuration: Option<nat>
    var position: nat
    var cumulative: nat
    var stopped: bool

    ghost predicate Valid()
      reads this
    {
      (position > 0 ==> Emits(start, rest, maxDuration, position - 1)) &&
      (!stopped ==> cumulative == Elapsed(start, rest, position)) &&
      (stopped ==>
         cumulative == Elapsed(start, rest, position + 1) &&
         maxDuration.Some? && cumulative > maxDuration.value)
    }

    /** The intervals yielded so far. */
    ghost function Emitted(): seq<nat>
      reads this
    {
      Prefix(start, rest, position)
    }

    constructor (start: seq<nat>, rest: nat, maxDuration: Option<nat>)
      ensures Valid()
      ensures this.start == start && this.rest == rest && this.maxDuration == maxDuration
      ensures position == 0 && !stopped && Emitted() == []
    {
      this.start := start;
      this.rest := rest;
      this.maxDuration := maxDuration;
      position := 0;
      cumulative := 0;
      stopped := false;
    }

    /** `next(...)` on the generator: `None` where Python raises StopIteration. */
    method Next() returns (r: Option<nat>)
      requires Valid()
      modifies this
      ensures Valid()
      ensures maxDuration.None? ==> r.Some?
      ensures r.Some? <==> !old(stopped) && Emits(start, rest, maxDuration, old(position))
      ensures r.Some? ==>
                r.value == IntervalAt(start, rest, old(position)) &&
                position == old(position) + 1 && !stopped &&
                Emitted() == old(Emitted()) + [r.value]
      ensures r.None? ==> position == old(position) && stopped
    {
      if stopped {
        return None;
      }
      var interval := if position < |start| then start[position] else rest;
      cumulative := cumulative + interval;
      if maxDuration.Some? && cumulative > maxDuration.value {
        stopped := true;
        r := None;
      } else {
        position := position + 1;
        r := Some(interval);
      }
    }
  }
}
