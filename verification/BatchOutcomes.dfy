/**
 Which calls of a batch run, in which order their guards come, and which tools run together.
 */
module BatchOutcomes {
  import opened Basics
  import opened Dispatch

  /** Sequential calls run up to the first one before which the run was cancelled. */
  lemma {:induction false} SequentialIff(scheduled: seq<nat>, t: Tools, i: nat)
    requires Increasing(scheduled)
    ensures i in SequentialRun(scheduled, t) <==>
            i in scheduled && forall j :: j in scheduled && j <= i ==> !t.cancelledAt(j)
  {
    if scheduled != [] {
      var (head, rest) := (scheduled[0], scheduled[1..]);
      assert scheduled == [head] + rest;
      IncreasingSplit([head], rest);
      SequentialIff(rest, t, i);
      assert head in [head];
    }
  }

  /** A call of a checked batch runs exactly when its guard did not block it and, if the
      calls run one by one, no call up to it found the run cancelled. */
  lemma RunsIff(n: nat, t: Tools, sequential: bool, i: nat)
    requires Plan(n, t, sequential).Run? && i < n
    ensures i in Plan(n, t, sequential).ran <==>
      !t.blocked(i) && (sequential ==> forall j: nat :: j <= i && !t.blocked(j) ==> !t.cancelledAt(j))
  {
    var scheduled := Scheduled(n, t);
    ScheduledIs(n, t);
    SequentialIff(scheduled, t, i);
    if sequential && i in scheduled && forall j :: j in scheduled && j <= i ==> !t.cancelledAt(j) {
      forall j: nat | j <= i && !t.blocked(j) ensures !t.cancelledAt(j) {
        assert j in scheduled;
      }
    }
  }

  /** What is reported for each call of a batch: refused as a whole if one of its calls is
      not canonical, and otherwise blocked, run, or skipped after a cancellation. */
  lemma ReportedAs(n: nat, t: Tools, sequential: bool, i: nat)
    requires i < n
    ensures Plan(n, t, sequential).Refuse? <==> exists k: nat :: k < n && !t.canonical(k)
    ensures Plan(n, t, sequential).Run? ==>
      && (KindOf(i, t, Plan(n, t, sequential).ran) == Blocked <==> t.blocked(i))
      && (KindOf(i, t, Plan(n, t, sequential).ran) == Skipped <==>
            !t.blocked(i) && sequential && exists j: nat :: j <= i && !t.blocked(j) && t.cancelledAt(j))
  {
    if Plan(n, t, sequential).Run? {
      RunsIff(n, t, sequential, i);
    }
  }

  /** Guards run in model order. */
  lemma GuardsInOrder(n: nat, t: Tools, sequential: bool, i: nat, j: nat)
    requires ValidSchedules(t) && Plan(n, t, sequential).Run? && i < j < n
    ensures Before(Plan(n, t, sequential).log, Guard(i), Guard(j))
  {
    var scheduled := Scheduled(n, t);
    var groups := if sequential then Alone(SequentialRun(scheduled, t)) else Segments(scheduled, [], t);
    RunLogMembers(groups, t, Guard(i));
    RunLogMembers(groups, t, Guard(j));
    BeforePrefix(Guards(n), RunLog(groups, t), Guard(i), Guard(j));
  }

  lemma BeforePrefix(a: seq<Step>, b: seq<Step>, s: Step, u: Step)
    requires Before(a, s, u) && s !in b && u !in b
    ensures Before(a + b, s, u)
  {
    var all := a + b;
    assert forall p :: 0 <= p < |all| ==> if p < |a| then all[p] == a[p] else all[p] in b;
  }

  // ---------- Calls that run together ----------

  /** No scheduled call from `i` to `j` is exclusive; when `i` was collected before, no call
      up to `j` at all. */
  ghost predicate Clear(scheduled: seq<nat>, t: Tools, i: nat, j: nat, collected: bool) {
    forall k :: k in scheduled && k <= j && (collected || i <= k) ==> !t.exclusive(k)
  }

  lemma ClearNext(scheduled: seq<nat>, pending: seq<nat>, t: Tools, i: nat, j: nat)
    requires Increasing(scheduled) && i <= j && j in scheduled && (i in scheduled || i in pending)
    requires Clear(scheduled, t, i, j, i in pending)
    ensures var (head, rest) := (scheduled[0], scheduled[1..]);
            && Increasing(rest)
            && if t.exclusive(head) then i in rest && j in rest && Clear(rest, t, i, j, false)
               else && (j == head || j in rest) && (i in rest || i in pending + [head])
                    && Clear(rest, t, i, j, i in pending + [head])
                    && (j == head ==> i in pending + [head])
  {
    var (head, rest) := (scheduled[0], scheduled[1..]);
    assert scheduled == [head] + rest && head in [head];
    IncreasingSplit([head], rest);
  }

  /** Both are in the group that is being collected, or will come into one group. */
  lemma {:induction false} OneSegment(scheduled: seq<nat>, pending: seq<nat>, t: Tools, i: nat, j: nat) returns (g: nat)
    requires Increasing(scheduled) && i <= j && j in scheduled && (i in scheduled || i in pending)
    requires Clear(scheduled, t, i, j, i in pending)
    ensures g < |Segments(scheduled, pending, t)|
    ensures i in Segments(scheduled, pending, t)[g] && j in Segments(scheduled, pending, t)[g]
    decreases |scheduled|
  {
    var (head, rest) := (scheduled[0], scheduled[1..]);
    ClearNext(scheduled, pending, t, i, j);
    if t.exclusive(head) {
      g := OneSegment(rest, [], t, i, j);
      SkipTwo(pending, [head], Segments(rest, [], t), g);
      g := g + 2;
    } else if j == head {
      g := GroupStays(rest, pending + [head], t);
      assert j in pending + [head];
    } else {
      g := OneSegment(rest, pending + [head], t, i, j);
    }
  }

  lemma SkipTwo(a: seq<nat>, b: seq<nat>, groups: seq<seq<nat>>, g: nat)
    requires g < |groups|
    ensures |[a, b] + groups| == |groups| + 2 && ([a, b] + groups)[g + 2] == groups[g]
  {}

  /** What is collected ends up together in the first group. */
  lemma {:induction false} GroupStays(scheduled: seq<nat>, pending: seq<nat>, t: Tools) returns (g: nat)
    ensures g < |Segments(scheduled, pending, t)|
    ensures forall k :: k in pending ==> k in Segments(scheduled, pending, t)[g]
    decreases |scheduled|
  {
    g := 0;
    if scheduled != [] && !t.exclusive(scheduled[0]) {
      g := GroupStays(scheduled[1..], pending + [scheduled[0]], t);
    }
  }

  /** The log of one group is a stretch of the log of the run. */
  lemma {:induction false} GroupInLog(groups: seq<seq<nat>>, t: Tools, g: nat) returns (a: seq<Step>, b: seq<Step>)
    requires g < |groups|
    ensures RunLog(groups, t) == a + GroupLog(groups[g], t) + b
    decreases |groups|
  {
    if g == 0 {
      a, b := [], RunLog(groups[1..], t);
      NoneAdded(GroupLog(groups[0], t));
    } else {
      var first, rest := GroupInLog(groups[1..], t, g - 1);
      a, b := GroupLog(groups[0], t) + first, rest;
      Associative(GroupLog(groups[0], t), first, GroupLog(groups[g], t));
      Associative(GroupLog(groups[0], t), first + GroupLog(groups[g], t), b);
    }
  }

  /** Two calls of a parallel batch with no exclusive call from the one to the other run
      together: their steps interleave as the scheduler likes. */
  lemma RunTogether(n: nat, t: Tools, i: nat, j: nat) returns (group: seq<nat>, a: seq<Step>, b: seq<Step>)
    requires Plan(n, t, false).Run? && i < j < n && !t.blocked(i) && !t.blocked(j)
    requires forall k :: i <= k <= j && !t.blocked(k) ==> !t.exclusive(k)
    ensures i in group && j in group && Plan(n, t, false).log == a + t.schedule(group) + b
  {
    var scheduled := Scheduled(n, t);
    ScheduledIs(n, t);
    var g := OneSegment(scheduled, [], t, i, j);
    var groups := Segments(scheduled, [], t);
    group := groups[g];
    a, b := GroupInLog(groups, t, g);
    Associative(Guards(n), a, t.schedule(group));
    Associative(Guards(n), a + t.schedule(group), b);
    a := Guards(n) + a;
  }
}
