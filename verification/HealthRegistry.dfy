/**
 The circuit breaker in front of every model candidate: closed while it works, open after
 too many failures, half-open for one probe at a time once the cooldown is over. Clock
 readings are arguments and need not be ordered.
 */
module HealthRegistry {
  import opened Basics

  datatype Status = Closed | Open | HalfOpen

  datatype Health = Health(status: Status, failures: nat, openedAt: Option<real>, probing: bool)

  const Fresh := Health(Closed, 0, None, false)

  datatype Limits = Limits(threshold: nat, cooldown: real)

  function Refresh(l: Limits, h: Health, now: real): Health {
    if h.status.Open? && h.openedAt.Some? && now - h.openedAt.value >= l.cooldown then
      h.(status := HalfOpen, probing := false)
    else h
  }

  function Trip(h: Health, now: real): Health {
    h.(status := Open, openedAt := Some(now), probing := false)
  }

  function Acquire(l: Limits, h0: Health, now: real): (Health, bool) {
    var h := Refresh(l, h0, now);
    match h.status
    case Open => (h, false)
    case HalfOpen => if h.probing then (h, false) else (h.(probing := true), true)
    case Closed => (h, true)
  }

  function RecordSuccess(h: Health): Health {
    Fresh
  }

  function RecordFailure(l: Limits, h0: Health, now: real): Health {
    var h := Refresh(l, h0, now);
    match h.status
    case HalfOpen => Trip(h.(failures := Max(h.failures + 1, l.threshold)), now)
    case Open => Trip(h, now)
    case Closed =>
      var f := h.(failures := h.failures + 1, probing := false);
      if f.failures >= l.threshold then Trip(f, now) else f
  }

  function RecordCancelled(h: Health): Health {
    h.(probing := false)
  }

  // ---------- Every history of one candidate ----------

  datatype Op = TryAcquire(now: real) | Success | Failure(now: real) | Cancellation | Snapshot(now: real)

  /** `grants` and `cancellations` are counted since the candidate last became half-open;
      `unreturned` are the grants since then and since the last cancellation. */
  datatype Track = Track(h: Health, grants: nat, cancellations: nat, unreturned: nat)

  function Counted(before: Track, h: Health, granted: bool, cancelled: bool): Track {
    var started := h.status.HalfOpen? && !before.h.status.HalfOpen?;
    var (g, c, u) := if started then (0, 0, 0) else (before.grants, before.cancellations, before.unreturned);
    var more := if granted then 1 else 0;
    Track(h, g + more, c + (if cancelled then 1 else 0), if cancelled then more else u + more)
  }

  function Step(l: Limits, t: Track, op: Op): Track {
    match op
    case TryAcquire(now) => var (h, ok) := Acquire(l, t.h, now); Counted(t, h, ok, false)
    case Success => Counted(t, RecordSuccess(t.h), false, false)
    case Failure(now) => Counted(t, RecordFailure(l, t.h, now), false, false)
    case Cancellation => Counted(t, RecordCancelled(t.h), false, true)
    case Snapshot(now) => Counted(t, Refresh(l, t.h, now), false, false)
  }

  function After(l: Limits, ops: seq<Op>): Track {
    if ops == [] then Track(Fresh, 0, 0, 0) else Step(l, After(l, ops[..|ops| - 1]), ops[|ops| - 1])
  }

  /** Closed exactly below the threshold; a probe only while half-open; and in one
      half-open period at most one grant more than there were cancellations, the last one
      being the probe that is out. */
  ghost predicate Inv(l: Limits, t: Track) {
    && (t.h.status.Closed? <==> t.h.failures < l.threshold)
    && (t.h.status.Closed? <==> t.h.openedAt.None?)
    && (t.h.probing ==> t.h.status.HalfOpen?)
    && (t.h.status.HalfOpen? ==> t.grants <= t.cancellations + if t.h.probing then 1 else 0)
    && (t.h.status.HalfOpen? ==> t.unreturned == (if t.h.probing then 1 else 0) <= t.grants)
  }

  lemma {:induction false} BreakerOverRuns(l: Limits, ops: seq<Op>)
    requires l.threshold > 0
    ensures Inv(l, After(l, ops))
  {
    if ops != [] {
      BreakerOverRuns(l, ops[..|ops| - 1]);
    }
  }

  /** An open candidate is not contacted before its cooldown is over, and a half-open one
      by no second caller while its probe is out. */
  lemma RefusedWhileOpen(l: Limits, ops: seq<Op>, now: real)
    requires l.threshold > 0
    ensures var t := After(l, ops);
            Acquire(l, t.h, now).1 <==>
              || t.h.failures < l.threshold
              || (t.h.status.HalfOpen? && !t.h.probing)
              || (t.h.status.Open? && t.h.openedAt.Some? && now - t.h.openedAt.value >= l.cooldown)
  {
    BreakerOverRuns(l, ops);
  }

  /** In a half-open period a probe starts exactly when none was granted since the period
      began or since the last cancellation: a period has a second probe if and only if a
      cancellation comes after its first one. */
  lemma {:induction false} ProbeGrantedExactly(l: Limits, ops: seq<Op>, now: real)
    requires l.threshold > 0 && After(l, ops).h.status.HalfOpen?
    ensures var t := After(l, ops);
            && (Acquire(l, t.h, now).1 <==> t.unreturned == 0)
            && (t.cancellations == 0 ==> t.grants == t.unreturned <= 1)
  {
    BreakerOverRuns(l, ops);
    WithoutCancellation(l, ops);
  }

  lemma {:induction false} WithoutCancellation(l: Limits, ops: seq<Op>)
    ensures var t := After(l, ops); t.cancellations == 0 ==> t.grants == t.unreturned
  {
    if ops != [] {
      WithoutCancellation(l, ops[..|ops| - 1]);
    }
  }

  lemma AfterSnoc(l: Limits, ops: seq<Op>, op: Op)
    ensures After(l, ops + [op]) == Step(l, After(l, ops), op)
  {
    assert (ops + [op])[..|ops|] == ops;
  }

  /** In every reachable half-open state a cancellation, recorded by anyone, lets one more
      probe start, while an earlier one may still be out. */
  lemma CancellationFreesProbe(l: Limits, ops: seq<Op>, now: real)
    requires l.threshold > 0 && After(l, ops).h.status.HalfOpen?
    ensures var (t, u) := (After(l, ops), After(l, ops + [Cancellation, TryAcquire(now)]));
            u.h.status.HalfOpen? && u.grants == t.grants + 1 && u.cancellations == t.cancellations + 1
  {
    AfterSnoc(l, ops, Cancellation);
    AfterSnoc(l, ops + [Cancellation], TryAcquire(now));
    assert ops + [Cancellation] + [TryAcquire(now)] == ops + [Cancellation, TryAcquire(now)];
  }

  function Failures(n: nat, now: real): seq<Op> {
    if n == 0 then [] else Failures(n - 1, now) + [Failure(now)]
  }

  lemma {:induction false} FailuresTrip(l: Limits, n: nat, now: real)
    requires n <= l.threshold && l.threshold > 0
    ensures After(l, Failures(n, now)).h ==
            if n < l.threshold then Health(Closed, n, None, false) else Health(Open, n, Some(now), false)
  {
    if n > 0 {
      FailuresTrip(l, n - 1, now);
      AfterSnoc(l, Failures(n - 1, now), Failure(now));
    }
  }

  /** Two probes in one half-open period, for any threshold and any cooldown: the failures
      that open the breaker, a first probe after the cooldown, a cancellation, a second probe. */
  lemma TwoProbes(l: Limits, now: real)
    requires l.threshold > 0
    ensures var later := now + l.cooldown;
            var t := After(l, Failures(l.threshold, now) + [TryAcquire(later)] + [Cancellation, TryAcquire(later)]);
            t.h.status.HalfOpen? && t.grants == 2 && t.cancellations == 1
  {
    var later := now + l.cooldown;
    FailuresTrip(l, l.threshold, now);
    AfterSnoc(l, Failures(l.threshold, now), TryAcquire(later));
    CancellationFreesProbe(l, Failures(l.threshold, now) + [TryAcquire(later)], later);
  }

  // ---------- What the history of records says ----------

  /** The failures recorded since the last success. */
  function FailuresSince(ops: seq<Op>): nat {
    if ops == [] then 0
    else
      var (before, op) := (FailuresSince(ops[..|ops| - 1]), ops[|ops| - 1]);
      if op.Success? then 0 else if op.Failure? then before + 1 else before
  }

  /** When the last of them was recorded. */
  function LastFailure(ops: seq<Op>): Option<real> {
    if ops == [] then None
    else
      var op := ops[|ops| - 1];
      if op.Success? then None else if op.Failure? then Some(op.now) else LastFailure(ops[..|ops| - 1])
  }

  /** The cooldown after the last failure is over at a clock reading. */
  predicate Over(l: Limits, ops: seq<Op>, now: real) {
    LastFailure(ops).Some? && now - LastFailure(ops).value >= l.cooldown
  }

  /** A reading since the last failure showed that its cooldown was over. */
  predicate CooledDown(l: Limits, ops: seq<Op>) {
    ops != []
    && var (before, op) := (ops[..|ops| - 1], ops[|ops| - 1]);
    && !op.Success? && !op.Failure?
    && (CooledDown(l, before) || (!op.Cancellation? && Over(l, before, op.now)))
  }

  /** Somebody asked for the candidate after its cooldown, with no record since. */
  predicate ProbeOut(l: Limits, ops: seq<Op>) {
    ops != []
    && match ops[|ops| - 1]
       case TryAcquire(_) => CooledDown(l, ops) || ProbeOut(l, ops[..|ops| - 1])
       case Snapshot(_) => ProbeOut(l, ops[..|ops| - 1])
       case _ => false
  }

  /** The breaker is open exactly when the failures since the last success reach the
      threshold; the cooldown counts from the last of them, whatever state it met. */
  lemma {:induction false} StateByHistory(l: Limits, ops: seq<Op>)
    requires l.threshold > 0
    ensures var h := After(l, ops).h;
            && (h.status.Closed? <==> FailuresSince(ops) < l.threshold)
            && (h.status.Closed? ==> h.failures == FailuresSince(ops))
            && (!h.status.Closed? ==> LastFailure(ops).Some? && h.openedAt == LastFailure(ops))
            && (h.status.HalfOpen? <==> FailuresSince(ops) >= l.threshold && CooledDown(l, ops))
            && (h.status.HalfOpen? ==> (h.probing <==> ProbeOut(l, ops)))
            && (h.status.Open? ==> !ProbeOut(l, ops))
  {
    if ops != [] {
      StateByHistory(l, ops[..|ops| - 1]);
      BreakerOverRuns(l, ops[..|ops| - 1]);
    }
  }

  /** When a candidate may be contacted, told by its records alone: below the threshold
      always, and otherwise after the cooldown, one probe at a time. */
  lemma GrantedByHistory(l: Limits, ops: seq<Op>, now: real)
    requires l.threshold > 0
    ensures Acquire(l, After(l, ops).h, now).1 <==>
      || FailuresSince(ops) < l.threshold
      || ((CooledDown(l, ops) || Over(l, ops, now)) && !ProbeOut(l, ops))
  {
    StateByHistory(l, ops);
    BreakerOverRuns(l, ops);
  }

  /** A success closes the breaker and forgets the failures, and a failure at or above the
      threshold, a failed probe included, starts the cooldown anew. */
  lemma RecordsDecide(l: Limits, ops: seq<Op>, now: real, later: real)
    requires l.threshold > 0
    ensures After(l, ops + [Success]).h == Fresh && Acquire(l, After(l, ops + [Success]).h, later).1
    ensures FailuresSince(ops) + 1 >= l.threshold ==>
      (Acquire(l, After(l, ops + [Failure(now)]).h, later).1 <==> later - now >= l.cooldown)
  {
    AfterSnoc(l, ops, Success);
    assert (ops + [Failure(now)])[..|ops|] == ops;
    GrantedByHistory(l, ops + [Failure(now)], later);
  }

  // ---------- The registry ----------

  class Registry {
    const limits: Limits
    var states: map<nat, Health>

    function Of(c: nat): Health
      reads this
    {
      if c in states then states[c] else Fresh
    }

    constructor (l: Limits)
      requires l.threshold > 0
      ensures limits == l && states == map[]
    {
      limits, states := l, map[];
    }

    method TryAcquireCandidate(c: nat, now: real) returns (ok: bool)
      modifies this
      ensures (Of(c), ok) == Acquire(limits, old(Of(c)), now)
      ensures forall d :: d != c ==> Of(d) == old(Of(d))
    {
      var h := Refresh(limits, Of(c), now);
      ok := true;
      if h.status.Open? {
        ok := false;
      } else if h.status.HalfOpen? {
        if h.probing {
          ok := false;
        } else {
          h := h.(probing := true);
        }
      }
      states := states[c := h];
    }

    method Record(c: nat, result: Op)
      requires result.Success? || result.Failure? || result.Cancellation?
      modifies this
      ensures Of(c) == Step(limits, Track(old(Of(c)), 0, 0, 0), result).h
      ensures forall d :: d != c ==> Of(d) == old(Of(d))
    {
      var h := Of(c);
      if result.Success? {
        h := h.(status := Closed, failures := 0, openedAt := None, probing := false);
      } else if result.Cancellation? {
        h := h.(probing := false);
      } else {
        h := Refresh(limits, h, result.now);
        if h.status.HalfOpen? {
          h := h.(failures := Max(h.failures + 1, limits.threshold));
          h := Trip(h, result.now);
        } else if h.status.Open? {
          h := Trip(h, result.now);
        } else {
          h := h.(failures := h.failures + 1, probing := false);
          if h.failures >= limits.threshold {
            h := Trip(h, result.now);
          }
        }
      }
      states := states[c := h];
    }
  }
}
