/**
 Dispatching one batch of tool calls: the whole batch is checked before anything runs,
 then every call passes its guards, then the calls run, parallel ones together and
 exclusive ones alone.

 A call is its position in the batch. What the tools answer is a `Tools`: functions of
 that position. `schedule` is the order in which the steps of calls that run together
 happen to be interleaved.
 */
module Dispatch {
  import opened Basics
  import opened Transcript
  import opened CallIds

  datatype Step = Guard(i: nat) | Start(i: nat) | End(i: nat)

  datatype Kind = BatchRejected | Blocked | Skipped | Ran

  datatype Outcome = Outcome(call: Call, kind: Kind)

  datatype Tools = Tools(
    canonical: nat -> bool,
    blocked: nat -> bool,
    exclusive: nat -> bool,
    priority: nat -> int,
    schedule: seq<nat> -> seq<Step>,
    cancelledAt: nat -> bool)

  /** Every `a` comes before every `b`. */
  ghost predicate Before(log: seq<Step>, a: Step, b: Step) {
    forall p, q :: 0 <= p < |log| && 0 <= q < |log| && log[p] == a && log[q] == b ==> p < q
  }

  /** Every call of the group starts once and later ends once; nothing else happens. */
  ghost predicate ValidGroup(log: seq<Step>, group: seq<nat>) {
    && (forall s :: s in log ==> !s.Guard? && s.i in group)
    && (forall i :: i in group ==> Start(i) in log && End(i) in log && Before(log, Start(i), End(i)))
    && forall p, q :: 0 <= p < q < |log| ==> log[p] != log[q]
  }

  ghost predicate ValidSchedules(t: Tools) {
    forall group: seq<nat> :: ValidGroup(t.schedule(group), group)
  }

  // ---------- Segments ----------

  /** The groups that run one after another: an exclusive call is its own group. */
  function Segments(scheduled: seq<nat>, pending: seq<nat>, t: Tools): seq<seq<nat>>
    decreases |scheduled|
  {
    if scheduled == [] then [pending]
    else if t.exclusive(scheduled[0]) then [pending, [scheduled[0]]] + Segments(scheduled[1..], [], t)
    else Segments(scheduled[1..], pending + [scheduled[0]], t)
  }

  function Flatten(groups: seq<seq<nat>>): seq<nat> {
    if groups == [] then [] else groups[0] + Flatten(groups[1..])
  }

  lemma FlattenHead(group: seq<nat>, groups: seq<seq<nat>>)
    ensures Flatten([group] + groups) == group + Flatten(groups)
  {
    assert ([group] + groups)[1..] == groups;
  }

  /** Put together again, the segments are the scheduled calls in model order. */
  lemma {:induction false} SegmentsConcatenate(scheduled: seq<nat>, pending: seq<nat>, t: Tools)
    ensures Flatten(Segments(scheduled, pending, t)) == pending + scheduled
    decreases |scheduled|
  {
    if |scheduled| == 0 {
      FlattenHead(pending, []);
      assert [pending] + [] == [pending];
    } else {
      var i, rest := scheduled[0], scheduled[1..];
      assert scheduled == [i] + rest;
      if t.exclusive(i) {
        SegmentsConcatenate(rest, [], t);
        FlattenHead([i], Segments(rest, [], t));
        FlattenHead(pending, [[i]] + Segments(rest, [], t));
        Associative([pending], [[i]], Segments(rest, [], t));
        assert [pending] + [[i]] == [pending, [i]];
      } else {
        SegmentsConcatenate(rest, pending + [i], t);
        Associative(pending, [i], rest);
      }
    }
  }

  /** An exclusive call shares its segment with no other. */
  ghost predicate ExclusiveAlone(groups: seq<seq<nat>>, t: Tools) {
    forall k, i :: 0 <= k < |groups| && i in groups[k] && t.exclusive(i) ==> groups[k] == [i]
  }

  lemma {:induction false} SegmentsIsolate(scheduled: seq<nat>, pending: seq<nat>, t: Tools)
    requires forall i :: i in pending ==> !t.exclusive(i)
    ensures ExclusiveAlone(Segments(scheduled, pending, t), t)
    decreases |scheduled|
  {
    if |scheduled| > 0 {
      var i, rest := scheduled[0], scheduled[1..];
      if t.exclusive(i) {
        SegmentsIsolate(rest, [], t);
        var tail := Segments(rest, [], t);
        forall k, j | 0 <= k < |tail| + 2 && j in ([pending, [i]] + tail)[k] && t.exclusive(j)
          ensures ([pending, [i]] + tail)[k] == [j]
        {
          if k >= 2 { assert ([pending, [i]] + tail)[k] == tail[k - 2]; }
        }
      } else {
        SegmentsIsolate(rest, pending + [i], t);
      }
    }
  }

  // ---------- The log of a run ----------

  function GroupLog(group: seq<nat>, t: Tools): seq<Step> {
    if group == [] then [] else t.schedule(group)
  }

  function RunLog(groups: seq<seq<nat>>, t: Tools): seq<Step> {
    if groups == [] then [] else GroupLog(groups[0], t) + RunLog(groups[1..], t)
  }

  lemma GroupLogMembers(group: seq<nat>, t: Tools, s: Step)
    requires ValidSchedules(t)
    ensures s in GroupLog(group, t) <==> !s.Guard? && s.i in group
  {
    assert ValidGroup(t.schedule(group), group);
    if !s.Guard? {
      assert s == Start(s.i) || s == End(s.i);
    }
  }

  lemma {:induction false} RunLogMembers(groups: seq<seq<nat>>, t: Tools, s: Step)
    requires ValidSchedules(t)
    ensures s in RunLog(groups, t) <==> !s.Guard? && s.i in Flatten(groups)
  {
    if groups != [] {
      RunLogMembers(groups[1..], t, s);
      GroupLogMembers(groups[0], t, s);
    }
  }

  /** Two steps in different parts of a log keep their order. */
  lemma BeforeAppend(a: seq<Step>, b: seq<Step>, s: Step, u: Step)
    requires s !in b && u !in a
    ensures Before(a + b, s, u)
  {
    var all := a + b;
    assert forall p :: 0 <= p < |all| ==> if p < |a| then all[p] in a else all[p] in b;
  }

  lemma BeforeSuffix(a: seq<Step>, b: seq<Step>, s: Step, u: Step)
    requires s !in a && u !in a && Before(b, s, u)
    ensures Before(a + b, s, u)
  {
    var all := a + b;
    assert forall p :: 0 <= p < |a| ==> all[p] in a;
    assert forall p :: |a| <= p < |all| ==> all[p] == b[p - |a|];
  }

  lemma NoRepeatsSplit(a: seq<nat>, b: seq<nat>)
    requires NoRepeats(a + b)
    ensures NoRepeats(b) && forall x :: x in a ==> x !in b
  {
    forall p, q | 0 <= p < q < |b| ensures b[p] != b[q] {
      assert (a + b)[|a| + p] != (a + b)[|a| + q];
    }
    forall x, y | x in a && y in b ensures x != y {
      var p :| 0 <= p < |a| && a[p] == x;
      var q :| 0 <= q < |b| && b[q] == y;
      assert (a + b)[p] != (a + b)[|a| + q];
    }
  }

  /** Everything in an earlier segment ends before anything in a later one starts. */
  lemma {:induction false} SegmentsInOrder(groups: seq<seq<nat>>, t: Tools, k: nat, l: nat, s: Step, u: Step)
    requires ValidSchedules(t) && NoRepeats(Flatten(groups)) && k < l < |groups|
    requires !s.Guard? && !u.Guard? && s.i in groups[k] && u.i in groups[l]
    ensures Before(RunLog(groups, t), s, u)
    decreases k
  {
    var head, tail := groups[0], groups[1..];
    NoRepeatsSplit(head, Flatten(tail));
    GroupInFlatten(tail, l - 1, u.i);
    GroupLogMembers(head, t, s);
    GroupLogMembers(head, t, u);
    if k == 0 {
      RunLogMembers(tail, t, s);
      BeforeAppend(GroupLog(head, t), RunLog(tail, t), s, u);
    } else {
      GroupInFlatten(tail, k - 1, s.i);
      SegmentsInOrder(tail, t, k - 1, l - 1, s, u);
      BeforeSuffix(GroupLog(head, t), RunLog(tail, t), s, u);
    }
  }

  lemma {:induction false} GroupInFlatten(groups: seq<seq<nat>>, k: nat, x: nat)
    requires k < |groups| && x in groups[k]
    ensures x in Flatten(groups)
    decreases k
  {
    if k > 0 {
      GroupInFlatten(groups[1..], k - 1, x);
    }
  }

  lemma {:induction false} GroupOf(groups: seq<seq<nat>>, x: nat) returns (k: nat)
    requires x in Flatten(groups)
    ensures k < |groups| && x in groups[k]
  {
    if x in groups[0] {
      k := 0;
    } else {
      k := GroupOf(groups[1..], x);
      k := k + 1;
    }
  }

  ghost predicate Increasing(xs: seq<nat>) {
    forall p, q :: 0 <= p < q < |xs| ==> xs[p] < xs[q]
  }

  /** In model order, a call in an earlier segment comes first. */
  lemma {:induction false} EarlierSegment(groups: seq<seq<nat>>, k: nat, l: nat, x: nat, y: nat)
    requires Increasing(Flatten(groups)) && k < |groups| && l < |groups| && x in groups[k] && y in groups[l] && x < y
    ensures k <= l
    decreases k + l
  {
    var head, tail := groups[0], groups[1..];
    IncreasingSplit(head, Flatten(tail));
    if k > 0 {
      GroupInFlatten(tail, k - 1, x);
      if l > 0 {
        EarlierSegment(tail, k - 1, l - 1, x, y);
      }
    }
  }

  lemma IncreasingSplit(a: seq<nat>, b: seq<nat>)
    requires Increasing(a + b)
    ensures Increasing(b) && forall x, y :: x in a && y in b ==> x < y
  {
    forall p, q | 0 <= p < q < |b| ensures b[p] < b[q] {
      assert (a + b)[|a| + p] < (a + b)[|a| + q];
    }
    forall x, y | x in a && y in b ensures x < y {
      var p :| 0 <= p < |a| && a[p] == x;
      var q :| 0 <= q < |b| && b[q] == y;
      assert (a + b)[p] < (a + b)[|a| + q];
    }
  }

  lemma SeparateGroups(groups: seq<seq<nat>>, t: Tools, i: nat, j: nat) returns (k: nat, l: nat)
    requires Increasing(Flatten(groups)) && ExclusiveAlone(groups, t)
    requires i in Flatten(groups) && j in Flatten(groups) && i < j && (t.exclusive(i) || t.exclusive(j))
    ensures k < l < |groups| && i in groups[k] && j in groups[l]
  {
    k := GroupOf(groups, i);
    l := GroupOf(groups, j);
    EarlierSegment(groups, k, l, i, j);
  }

  lemma SegmentFacts(scheduled: seq<nat>, t: Tools)
    ensures Flatten(Segments(scheduled, [], t)) == scheduled && ExclusiveAlone(Segments(scheduled, [], t), t)
  {
    SegmentsConcatenate(scheduled, [], t);
    assert [] + scheduled == scheduled;
    SegmentsIsolate(scheduled, [], t);
  }

  /** Isolation: of two scheduled calls of which one is exclusive, the first in model
      order ends before the other starts, however parallel calls interleave. */
  lemma ExclusiveIsolated(scheduled: seq<nat>, t: Tools, i: nat, j: nat)
    requires ValidSchedules(t) && Increasing(scheduled)
    requires i in scheduled && j in scheduled && i < j && (t.exclusive(i) || t.exclusive(j))
    ensures var log := RunLog(Segments(scheduled, [], t), t);
            Before(log, End(i), Start(j)) && End(i) in log && Start(j) in log
  {
    var groups := Segments(scheduled, [], t);
    SegmentFacts(scheduled, t);
    var k, l := SeparateGroups(groups, t, i, j);
    SegmentsInOrder(groups, t, k, l, End(i), Start(j));
    RunLogMembers(groups, t, End(i));
    RunLogMembers(groups, t, Start(j));
  }

  // ---------- Task creation by priority ----------

  predicate Sooner(i: nat, j: nat, t: Tools) {
    t.priority(i) > t.priority(j) || (t.priority(i) == t.priority(j) && i < j)
  }

  function Insert(i: nat, sorted: seq<nat>, t: Tools): seq<nat> {
    if sorted == [] || Sooner(i, sorted[0], t) then [i] + sorted else [sorted[0]] + Insert(i, sorted[1..], t)
  }

  function ByPriority(group: seq<nat>, t: Tools): seq<nat> {
    if group == [] then [] else Insert(group[0], ByPriority(group[1..], t), t)
  }

  ghost predicate PriorityOrder(xs: seq<nat>, t: Tools) {
    forall p, q :: 0 <= p < q < |xs| ==> !Sooner(xs[q], xs[p], t)
  }

  lemma {:induction false} InsertMembers(i: nat, sorted: seq<nat>, t: Tools)
    ensures multiset(Insert(i, sorted, t)) == multiset(sorted) + multiset{i}
  {
    if sorted != [] && !Sooner(i, sorted[0], t) {
      InsertMembers(i, sorted[1..], t);
      assert sorted == [sorted[0]] + sorted[1..];
    }
  }

  /** Nothing of `xs` comes sooner than `i`. */
  ghost predicate NoneSooner(xs: seq<nat>, i: nat, t: Tools) {
    forall x :: x in multiset(xs) ==> !Sooner(x, i, t)
  }

  lemma OrderHead(i: nat, rest: seq<nat>, t: Tools)
    ensures PriorityOrder([i] + rest, t) <==> PriorityOrder(rest, t) && NoneSooner(rest, i, t)
  {
    var all := [i] + rest;
    assert forall q :: 0 <= q < |rest| ==> all[q + 1] == rest[q] && rest[q] in multiset(rest);
    if PriorityOrder(all, t) {
      forall p, q | 0 <= p < q < |rest| ensures !Sooner(rest[q], rest[p], t) {
        assert !Sooner(all[q + 1], all[p + 1], t);
      }
      forall x | x in multiset(rest) ensures !Sooner(x, i, t) {
        var q :| 0 <= q < |rest| && rest[q] == x;
        assert !Sooner(all[q + 1], all[0], t);
      }
    }
  }

  lemma {:induction false} InsertOrder(i: nat, sorted: seq<nat>, t: Tools)
    requires PriorityOrder(sorted, t)
    ensures PriorityOrder(Insert(i, sorted, t), t)
  {
    if sorted == [] {
    } else if Sooner(i, sorted[0], t) {
      assert sorted == [sorted[0]] + sorted[1..];
      OrderHead(sorted[0], sorted[1..], t);
      OrderHead(i, sorted, t);
      assert multiset(sorted) == multiset{sorted[0]} + multiset(sorted[1..]);
    } else {
      assert sorted == [sorted[0]] + sorted[1..];
      OrderHead(sorted[0], sorted[1..], t);
      InsertOrder(i, sorted[1..], t);
      InsertMembers(i, sorted[1..], t);
      OrderHead(sorted[0], Insert(i, sorted[1..], t), t);
    }
  }

  /** Tasks are created highest priority first, ties in model order, and none is left out. */
  lemma {:induction false} ByPriorityIs(group: seq<nat>, t: Tools)
    ensures PriorityOrder(ByPriority(group, t), t) && multiset(ByPriority(group, t)) == multiset(group)
  {
    if group != [] {
      ByPriorityIs(group[1..], t);
      InsertOrder(group[0], ByPriority(group[1..], t), t);
      InsertMembers(group[0], ByPriority(group[1..], t), t);
      assert group == [group[0]] + group[1..];
    }
  }

  // ---------- The whole batch ----------

  function Scheduled(n: nat, t: Tools): seq<nat> {
    if n == 0 then [] else Scheduled(n - 1, t) + if t.blocked(n - 1) then [] else [n - 1]
  }

  lemma {:induction false} ScheduledIs(n: nat, t: Tools)
    ensures forall i: nat :: i in Scheduled(n, t) <==> i < n && !t.blocked(i)
    ensures Increasing(Scheduled(n, t)) && NoRepeats(Scheduled(n, t))
  {
    if n > 0 {
      ScheduledIs(n - 1, t);
      var rest := Scheduled(n - 1, t);
      forall p | 0 <= p < |rest| ensures rest[p] < n - 1 {
        assert rest[p] in rest;
      }
    }
  }

  function Guards(n: nat): seq<Step> {
    seq(n, i requires 0 <= i < n => Guard(i))
  }

  /** Sequential calls run one by one until the run is cancelled. */
  function SequentialRun(scheduled: seq<nat>, t: Tools): seq<nat> {
    if scheduled == [] || t.cancelledAt(scheduled[0]) then [] else [scheduled[0]] + SequentialRun(scheduled[1..], t)
  }

  function Alone(xs: seq<nat>): seq<seq<nat>> {
    seq(|xs|, i requires 0 <= i < |xs| => [xs[i]])
  }

  function KindOf(i: nat, t: Tools, ran: seq<nat>): Kind {
    if t.blocked(i) then Blocked else if i in ran then Ran else Skipped
  }

  datatype Verdict = Refuse | Run(ran: seq<nat>, log: seq<Step>)

  /** What happens to a checked batch of `n` calls. */
  function Plan(n: nat, t: Tools, sequential: bool): Verdict {
    if exists i | 0 <= i < n :: !t.canonical(i) then Refuse
    else
      var scheduled := Scheduled(n, t);
      if sequential then
        var ran := SequentialRun(scheduled, t);
        Run(ran, Guards(n) + RunLog(Alone(ran), t))
      else Run(scheduled, Guards(n) + RunLog(Segments(scheduled, [], t), t))
  }

  /** `out` is `slots` with an outcome of `kind` at every position of `xs`. */
  ghost predicate Filled(out: seq<Option<Outcome>>, slots: seq<Option<Outcome>>, xs: seq<nat>, calls: seq<Call>,
                         kind: Kind) {
    && |out| == |slots| == |calls|
    && forall i: nat :: i < |out| ==> out[i] == (if i in xs then Some(Outcome(calls[i], kind)) else slots[i])
  }

  lemma FilledSnoc(out: seq<Option<Outcome>>, slots: seq<Option<Outcome>>, xs: seq<nat>, calls: seq<Call>,
                   kind: Kind, x: nat)
    requires Filled(out, slots, xs, calls, kind) && x < |slots|
    ensures Filled(out[x := Some(Outcome(calls[x], kind))], slots, xs + [x], calls, kind)
  {}

  lemma FilledAgain(out: seq<Option<Outcome>>, mid: seq<Option<Outcome>>, slots: seq<Option<Outcome>>,
                    xs: seq<nat>, ys: seq<nat>, calls: seq<Call>, kind: Kind)
    requires Filled(mid, slots, xs, calls, kind) && Filled(out, mid, ys, calls, kind)
    ensures Filled(out, slots, xs + ys, calls, kind)
  {}

  lemma SameMembers(a: seq<nat>, b: seq<nat>)
    requires multiset(a) == multiset(b)
    ensures forall i :: i in a <==> i in b
  {
    forall i ensures i in a <==> i in b {
      assert i in a <==> i in multiset(a);
      assert i in b <==> i in multiset(b);
    }
  }

  method RunGroup(group: seq<nat>, calls: seq<Call>, slots: seq<Option<Outcome>>, t: Tools)
    returns (out: seq<Option<Outcome>>, log: seq<Step>)
    requires |slots| == |calls| && forall i :: i in group ==> i < |calls|
    ensures log == GroupLog(group, t) && Filled(out, slots, group, calls, Ran)
  {
    out, log := slots, [];
    if group == [] {
      return;
    }
    var ordered := ByPriority(group, t);
    ByPriorityIs(group, t);
    SameMembers(ordered, group);
    for k := 0 to |ordered|
      invariant Filled(out, slots, ordered[..k], calls, Ran)
    {
      assert ordered[k] in ordered && ordered[..k + 1] == ordered[..k] + [ordered[k]];
      FilledSnoc(out, slots, ordered[..k], calls, Ran, ordered[k]);
      out := out[ordered[k] := Some(Outcome(calls[ordered[k]], Ran))];
    }
    assert ordered[..|ordered|] == ordered;
    log := t.schedule(group);
  }

  /** One more group, after the calls of `done`. */
  method RunAfter(group: seq<nat>, calls: seq<Call>, mid: seq<Option<Outcome>>, t: Tools,
                  ghost slots: seq<Option<Outcome>>, ghost done: seq<nat>)
    returns (out: seq<Option<Outcome>>, log: seq<Step>)
    requires Filled(mid, slots, done, calls, Ran) && forall j :: j in group ==> j < |calls|
    ensures log == GroupLog(group, t) && Filled(out, slots, done + group, calls, Ran)
  {
    out, log := RunGroup(group, calls, mid, t);
    FilledAgain(out, mid, slots, done, group, calls, Ran);
  }

  /** The calls before an exclusive one, and then that one. */
  method RunAlone(pending: seq<nat>, i: nat, calls: seq<Call>, mid: seq<Option<Outcome>>, t: Tools,
                  ghost slots: seq<Option<Outcome>>, ghost done: seq<nat>)
    returns (out: seq<Option<Outcome>>, log: seq<Step>)
    requires Filled(mid, slots, done, calls, Ran) && i < |calls| && forall j :: j in pending ==> j < |calls|
    ensures log == GroupLog(pending, t) + GroupLog([i], t) && Filled(out, slots, done + pending + [i], calls, Ran)
  {
    var before, alone;
    out, before := RunAfter(pending, calls, mid, t, slots, done);
    out, alone := RunAfter([i], calls, out, t, slots, done + pending);
    log := before + alone;
  }

  method RunSegments(scheduled: seq<nat>, calls: seq<Call>, slots: seq<Option<Outcome>>, t: Tools)
    returns (out: seq<Option<Outcome>>, log: seq<Step>)
    requires |slots| == |calls| && forall i :: i in scheduled ==> i < |calls|
    ensures log == RunLog(Segments(scheduled, [], t), t) && Filled(out, slots, scheduled, calls, Ran)
  {
    out, log := slots, [];
    var pending: seq<nat> := [];
    ghost var done: seq<nat> := [];
    ghost var all := RunLog(Segments(scheduled, [], t), t);
    assert scheduled[0..] == scheduled;
    NoneAdded(all);
    for k := 0 to |scheduled|
      invariant scheduled[..k] == done + pending && Filled(out, slots, done, calls, Ran)
      invariant forall i :: i in pending ==> i < |calls|
      invariant log + RunLog(Segments(scheduled[k..], pending, t), t) == all
    {
      var i := scheduled[k];
      NextPending(scheduled, k, done, pending);
      NextSegment(scheduled, k, pending, log, t);
      if t.exclusive(i) {
        var ran;
        out, ran := RunAlone(pending, i, calls, out, t, slots, done);
        log := log + ran;
        done, pending := done + pending + [i], [];
      } else {
        pending := pending + [i];
      }
    }
    assert scheduled[..|scheduled|] == scheduled && scheduled[|scheduled|..] == [];
    var last;
    out, last := RunAfter(pending, calls, out, t, slots, done);
    LastSegment(pending, t);
    log := log + last;
  }

  lemma LastSegment(pending: seq<nat>, t: Tools)
    ensures RunLog(Segments([], pending, t), t) == GroupLog(pending, t)
  {
    OneGroup(pending, t);
  }

  /** The calls up to `k`, those that ran and those that wait for their group. */
  lemma NextPending(scheduled: seq<nat>, k: nat, done: seq<nat>, pending: seq<nat>)
    requires k < |scheduled| && scheduled[..k] == done + pending
    ensures scheduled[k] in scheduled
    ensures scheduled[..k + 1] == done + (pending + [scheduled[k]]) == (done + pending + [scheduled[k]]) + []
  {
    NextOf(scheduled, k);
    Associative(done, pending, [scheduled[k]]);
    NoneAdded(done + pending + [scheduled[k]]);
  }

  /** What call `k` does to the log of the rest. */
  lemma NextSegment(scheduled: seq<nat>, k: nat, pending: seq<nat>, log: seq<Step>, t: Tools)
    requires k < |scheduled|
    ensures var (i, rest) := (scheduled[k], RunLog(Segments(scheduled[k..], pending, t), t));
            if t.exclusive(i) then
              log + rest == log + (GroupLog(pending, t) + GroupLog([i], t))
                            + RunLog(Segments(scheduled[k + 1..], [], t), t)
            else rest == RunLog(Segments(scheduled[k + 1..], pending + [i], t), t)
  {
    NextOf(scheduled, k);
    if t.exclusive(scheduled[k]) {
      TwoGroups(log, pending, scheduled[k], Segments(scheduled[k + 1..], [], t), t);
      Associative(log, GroupLog(pending, t), GroupLog([scheduled[k]], t));
    }
  }

  lemma OneGroup(group: seq<nat>, t: Tools)
    ensures RunLog([group], t) == GroupLog(group, t)
  {
    assert [group][1..] == [];
  }

  lemma TwoGroups(log: seq<Step>, pending: seq<nat>, i: nat, rest: seq<seq<nat>>, t: Tools)
    ensures log + RunLog([pending, [i]] + rest, t) == log + GroupLog(pending, t) + GroupLog([i], t) + RunLog(rest, t)
  {
    assert ([pending, [i]] + rest)[1..] == [[i]] + rest;
    assert ([[i]] + rest)[1..] == rest;
    Associative(log, GroupLog(pending, t), GroupLog([i], t) + RunLog(rest, t));
    Associative(log + GroupLog(pending, t), GroupLog([i], t), RunLog(rest, t));
  }

  method SkipRest(skipped: seq<nat>, calls: seq<Call>, slots: seq<Option<Outcome>>) returns (out: seq<Option<Outcome>>)
    requires |slots| == |calls| && forall i :: i in skipped ==> i < |calls|
    ensures Filled(out, slots, skipped, calls, Skipped)
  {
    out := slots;
    for k := 0 to |skipped|
      invariant Filled(out, slots, skipped[..k], calls, Skipped)
    {
      assert skipped[k] in skipped && skipped[..k + 1] == skipped[..k] + [skipped[k]];
      FilledSnoc(out, slots, skipped[..k], calls, Skipped, skipped[k]);
      out := out[skipped[k] := Some(Outcome(calls[skipped[k]], Skipped))];
    }
    assert skipped[..|skipped|] == skipped;
  }

  lemma SequentialStep(scheduled: seq<nat>, position: nat, t: Tools)
    requires position < |scheduled| && !t.cancelledAt(scheduled[position])
    requires scheduled[..position] + SequentialRun(scheduled[position..], t) == SequentialRun(scheduled, t)
    ensures scheduled[..position + 1] == scheduled[..position] + [scheduled[position]]
    ensures scheduled[..position + 1] + SequentialRun(scheduled[position + 1..], t) == SequentialRun(scheduled, t)
    ensures RunLog(Alone(scheduled[..position + 1]), t)
            == RunLog(Alone(scheduled[..position]), t) + GroupLog([scheduled[position]], t)
  {
    var i := scheduled[position];
    assert scheduled[position..][0] == i && scheduled[position..][1..] == scheduled[position + 1..];
    RunLogSnoc(scheduled[..position], i, t);
    Associative(scheduled[..position], [i], SequentialRun(scheduled[position + 1..], t));
  }

  lemma SequentialStop(scheduled: seq<nat>, position: nat, n: nat, t: Tools)
    requires position <= |scheduled| && (position < |scheduled| ==> t.cancelledAt(scheduled[position]))
    requires scheduled[..position] + SequentialRun(scheduled[position..], t) == SequentialRun(scheduled, t)
    requires forall i :: i in scheduled ==> i < n
    ensures SequentialRun(scheduled, t) == scheduled[..position]
    ensures scheduled == scheduled[..position] + scheduled[position..]
    ensures forall i :: i in scheduled[position..] ==> i < n
  {
    assert SequentialRun(scheduled[position..], t) == [];
    assert scheduled[..position] + [] == scheduled[..position];
    assert forall i :: i in scheduled[position..] ==> i in scheduled;
  }

  method RunSequential(scheduled: seq<nat>, calls: seq<Call>, slots: seq<Option<Outcome>>, t: Tools)
    returns (out: seq<Option<Outcome>>, log: seq<Step>, ghost mid: seq<Option<Outcome>>, ghost skipped: seq<nat>)
    requires |slots| == |calls| && forall i :: i in scheduled ==> i < |calls|
    ensures log == RunLog(Alone(SequentialRun(scheduled, t)), t)
    ensures scheduled == SequentialRun(scheduled, t) + skipped
    ensures Filled(mid, slots, SequentialRun(scheduled, t), calls, Ran) && Filled(out, mid, skipped, calls, Skipped)
  {
    out, log := slots, [];
    var position := 0;
    assert scheduled[0..] == scheduled;
    while position < |scheduled| && !t.cancelledAt(scheduled[position])
      invariant position <= |scheduled|
      invariant scheduled[..position] + SequentialRun(scheduled[position..], t) == SequentialRun(scheduled, t)
      invariant log == RunLog(Alone(scheduled[..position]), t) && Filled(out, slots, scheduled[..position], calls, Ran)
    {
      var i := scheduled[position];
      assert i in scheduled;
      SequentialStep(scheduled, position, t);
      FilledSnoc(out, slots, scheduled[..position], calls, Ran, i);
      out := out[i := Some(Outcome(calls[i], Ran))];
      log := log + GroupLog([i], t);
      position := position + 1;
    }
    SequentialStop(scheduled, position, |calls|, t);
    mid, skipped := out, scheduled[position..];
    out := SkipRest(scheduled[position..], calls, out);
  }

  lemma {:induction false} RunLogSnoc(xs: seq<nat>, i: nat, t: Tools)
    ensures RunLog(Alone(xs + [i]), t) == RunLog(Alone(xs), t) + GroupLog([i], t)
  {
    if xs == [] {
      assert Alone(xs + [i]) == [[i]] && Alone(xs) == [];
      OneGroup([i], t);
      assert [] + GroupLog([i], t) == GroupLog([i], t);
    } else {
      RunLogSnoc(xs[1..], i, t);
      assert Alone(xs)[1..] == Alone(xs[1..]) && (xs + [i])[1..] == xs[1..] + [i];
      assert Alone(xs + [i])[1..] == Alone(xs[1..] + [i]);
      Associative(GroupLog([xs[0]], t), RunLog(Alone(xs[1..]), t), GroupLog([i], t));
    }
  }

  /** The slots after the guards. */
  ghost predicate Guarded(slots: seq<Option<Outcome>>, n: nat, calls: seq<Call>, t: Tools) {
    |slots| == n <= |calls|
    && forall k: nat :: k < n ==> slots[k] == if t.blocked(k) then Some(Outcome(calls[k], Blocked)) else None
  }

  /** Every slot holds the outcome the plan names. */
  ghost predicate AsPlanned(slots: seq<Option<Outcome>>, calls: seq<Call>, t: Tools, ran: seq<nat>) {
    |slots| == |calls| && forall k: nat :: k < |slots| ==> slots[k] == Some(Outcome(calls[k], KindOf(k, t, ran)))
  }

  method GuardAll(calls: seq<Call>, t: Tools) returns (slots: seq<Option<Outcome>>, scheduled: seq<nat>, log: seq<Step>)
    ensures Guarded(slots, |calls|, calls, t) && scheduled == Scheduled(|calls|, t) && log == Guards(|calls|)
  {
    slots, scheduled, log := [], [], [];
    for i := 0 to |calls|
      invariant Guarded(slots, i, calls, t) && scheduled == Scheduled(i, t) && log == Guards(i)
    {
      log := log + [Guard(i)];
      if t.blocked(i) {
        slots := slots + [Some(Outcome(calls[i], Blocked))];
        assert scheduled + [] == scheduled;
      } else {
        slots, scheduled := slots + [None], scheduled + [i];
      }
    }
  }

  method RunAccepted(calls: seq<Call>, t: Tools, sequential: bool) returns (slots: seq<Option<Outcome>>, log: seq<Step>)
    requires Plan(|calls|, t, sequential).Run?
    ensures log == Plan(|calls|, t, sequential).log && AsPlanned(slots, calls, t, Plan(|calls|, t, sequential).ran)
  {
    var scheduled, guards, running;
    slots, scheduled, guards := GuardAll(calls, t);
    ScheduledIs(|calls|, t);
    if sequential {
      ghost var mid, skipped;
      slots, running, mid, skipped := RunSequential(scheduled, calls, slots, t);
      assert forall k :: k in scheduled <==> k in SequentialRun(scheduled, t) || k in skipped;
      RanFirst(SequentialRun(scheduled, t), skipped);
    } else {
      slots, running := RunSegments(scheduled, calls, slots, t);
    }
    log := guards + running;
  }

  lemma RanFirst(ran: seq<nat>, skipped: seq<nat>)
    requires NoRepeats(ran + skipped)
    ensures forall k :: k in skipped ==> k !in ran
  {
    NoRepeatsSplit(ran, skipped);
  }

  /** One outcome for each call, in model order. A batch with one bad id or one call that
      does not pass the canonical check runs no guard and no tool. */
  method DispatchMany(calls: seq<Call>, rules: Rules, prior: set<string>, t: Tools, sequential: bool)
    returns (outcomes: seq<Outcome>, log: seq<Step>)
    ensures |outcomes| == |calls|
    ensures forall k :: 0 <= k < |calls| ==> outcomes[k].call == Check(rules, calls, prior).calls[k]
    ensures Check(rules, calls, prior).rejected || (exists i :: 0 <= i < |calls| && !t.canonical(i)) ==>
      log == [] && forall k :: 0 <= k < |calls| ==> outcomes[k].kind == BatchRejected
    ensures !Check(rules, calls, prior).rejected && (forall i :: 0 <= i < |calls| ==> t.canonical(i)) ==>
      && Plan(|calls|, t, sequential).Run? && log == Plan(|calls|, t, sequential).log
      && forall k :: 0 <= k < |calls| ==> outcomes[k].kind == KindOf(k, t, Plan(|calls|, t, sequential).ran)
  {
    var checkedCalls, rejected := CheckBatch(rules, calls, prior);
    if rejected || exists i | 0 <= i < |calls| :: !t.canonical(i) {
      outcomes := RejectBatch(checkedCalls);
      return outcomes, [];
    }
    var slots;
    slots, log := RunAccepted(checkedCalls, t, sequential);
    outcomes := [];
    for i := 0 to |slots|
      invariant |outcomes| == i && forall k: nat :: k < i ==> slots[k] == Some(outcomes[k])
    {
      if slots[i].Some? {
        outcomes := outcomes + [slots[i].value];
      }
    }
  }

  lemma {:induction false} SequentialPart(scheduled: seq<nat>, t: Tools)
    ensures forall i :: i in SequentialRun(scheduled, t) ==> i in scheduled
  {
    if scheduled != [] {
      SequentialPart(scheduled[1..], t);
    }
  }

  method RejectBatch(calls: seq<Call>) returns (outcomes: seq<Outcome>)
    ensures |outcomes| == |calls|
    ensures forall k :: 0 <= k < |calls| ==> outcomes[k] == Outcome(calls[k], BatchRejected)
  {
    outcomes := [];
    for k := 0 to |calls|
      invariant |outcomes| == k && forall j :: 0 <= j < k ==> outcomes[j] == Outcome(calls[j], BatchRejected)
    {
      outcomes := outcomes + [Outcome(calls[k], BatchRejected)];
    }
  }

  lemma {:induction false} SequentialPrefix(scheduled: seq<nat>, t: Tools)
    ensures SequentialRun(scheduled, t) <= scheduled
  {
    if scheduled != [] {
      SequentialPrefix(scheduled[1..], t);
    }
  }

  /** Calls that run one by one never overlap. */
  lemma SequentialIsolated(ran: seq<nat>, t: Tools, i: nat, j: nat)
    requires ValidSchedules(t) && Increasing(ran) && i in ran && j in ran && i < j
    ensures Before(RunLog(Alone(ran), t), End(i), Start(j))
  {
    FlattenAlone(ran);
    var k := GroupOf(Alone(ran), i);
    var l := GroupOf(Alone(ran), j);
    EarlierSegment(Alone(ran), k, l, i, j);
    SegmentsInOrder(Alone(ran), t, k, l, End(i), Start(j));
  }

  lemma BatchSeparated(n: nat, t: Tools, sequential: bool, i: nat, j: nat)
    requires ValidSchedules(t) && Plan(n, t, sequential).Run? && i < j
    requires i in Plan(n, t, sequential).ran && j in Plan(n, t, sequential).ran
    requires sequential || t.exclusive(i) || t.exclusive(j)
    ensures Before(Plan(n, t, sequential).log, End(i), Start(j))
  {
    var scheduled := Scheduled(n, t);
    ScheduledIs(n, t);
    if sequential {
      SequentialPrefix(scheduled, t);
      SequentialIsolated(SequentialRun(scheduled, t), t, i, j);
      BeforeSuffix(Guards(n), RunLog(Alone(SequentialRun(scheduled, t)), t), End(i), Start(j));
    } else {
      ExclusiveIsolated(scheduled, t, i, j);
      BeforeSuffix(Guards(n), RunLog(Segments(scheduled, [], t), t), End(i), Start(j));
    }
  }

  /** In either mode every guard has run before any tool starts. Of two calls that run, the
      first in model order ends before the other starts, unless the batch is parallel and
      neither call is exclusive. */
  lemma BatchIsolated(n: nat, t: Tools, sequential: bool, i: nat, j: nat)
    requires ValidSchedules(t) && Plan(n, t, sequential).Run? && i < n && j < n
    ensures var r := Plan(n, t, sequential);
            && Before(r.log, Guard(i), Start(j))
            && (!sequential ==> (i in r.ran <==> !t.blocked(i)))
            && (i < j && i in r.ran && j in r.ran && (sequential || t.exclusive(i) || t.exclusive(j)) ==>
                 Before(r.log, End(i), Start(j)) && End(i) in r.log && Start(j) in r.log)
  {
    var scheduled := Scheduled(n, t);
    ScheduledIs(n, t);
    var groups := if sequential then Alone(SequentialRun(scheduled, t)) else Segments(scheduled, [], t);
    RunLogMembers(groups, t, Guard(i));
    BeforeAppend(Guards(n), RunLog(groups, t), Guard(i), Start(j));
    RanExactly(n, t, sequential, i);
    RanExactly(n, t, sequential, j);
    if i < j && i in Plan(n, t, sequential).ran && j in Plan(n, t, sequential).ran
       && (sequential || t.exclusive(i) || t.exclusive(j)) {
      BatchSeparated(n, t, sequential, i, j);
    }
  }

  /** Every call that ran started once and ended once, in either mode; a blocked or
      skipped one did neither. */
  lemma RanExactly(n: nat, t: Tools, sequential: bool, i: nat)
    requires ValidSchedules(t) && Plan(n, t, sequential).Run? && i < n
    ensures var r := Plan(n, t, sequential);
            && (Start(i) in r.log <==> i in r.ran) && (End(i) in r.log <==> i in r.ran)
            && (KindOf(i, t, r.ran) == Ran <==> i in r.ran) && Guard(i) in r.log
  {
    var scheduled := Scheduled(n, t);
    ScheduledIs(n, t);
    var groups := if sequential then Alone(SequentialRun(scheduled, t)) else Segments(scheduled, [], t);
    SegmentFacts(scheduled, t);
    SequentialPart(scheduled, t);
    FlattenAlone(SequentialRun(scheduled, t));
    RunLogMembers(groups, t, Start(i));
    RunLogMembers(groups, t, End(i));
    assert Guards(n)[i] == Guard(i);
    assert Start(i) !in Guards(n) && End(i) !in Guards(n);
  }

  lemma {:induction false} FlattenAlone(xs: seq<nat>)
    ensures Flatten(Alone(xs)) == xs
  {
    if xs != [] {
      FlattenAlone(xs[1..]);
      assert Alone(xs)[1..] == Alone(xs[1..]);
    }
  }
}
