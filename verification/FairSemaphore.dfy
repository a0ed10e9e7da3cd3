/**
 The fair priority semaphore of the tool scheduler.

 The heap is a library whose effect is "give me the smallest entry"; here it is a
 sequence kept in that order. A cancelled request stays in it until it is popped.
 */
module FairSemaphore {

  datatype Waiter = Waiter(who: nat, priority: int, order: nat, live: bool)

  datatype State = State(free: int, holding: set<nat>, heap: seq<Waiter>, sequence: nat, grants: seq<nat>)

  function Open(capacity: nat): State {
    State(capacity, {}, [], 0, [])
  }

  /** Higher priority first, then first come first served. */
  predicate Before(a: Waiter, b: Waiter) {
    a.priority > b.priority || (a.priority == b.priority && a.order < b.order)
  }

  function Insert(heap: seq<Waiter>, w: Waiter): (r: seq<Waiter>)
    ensures |r| == |heap| + 1
    ensures forall x :: x in r <==> x == w || x in heap
  {
    if heap == [] || Before(w, heap[0]) then [w] + heap
    else
      assert heap == [heap[0]] + heap[1..];
      [heap[0]] + Insert(heap[1..], w)
  }

  // ---------- The grant pass and the atomic steps ----------

  function Pop(s: State): State
    requires s.heap != []
  {
    var w := s.heap[0];
    if w.live
    then State(s.free - 1, s.holding + {w.who}, s.heap[1..], s.sequence, s.grants + [w.who])
    else s.(heap := s.heap[1..])
  }

  function Grant(s: State): State
    decreases |s.heap|
  {
    if s.free > 0 && s.heap != [] then Grant(Pop(s)) else s
  }

  /** The state in which a new request's grant pass starts. */
  function Pushed(s: State, who: nat, priority: int): State {
    s.(heap := Insert(s.heap, Waiter(who, priority, s.sequence + 1, true)), sequence := s.sequence + 1)
  }

  function GivenBack(s: State, who: nat): State {
    s.(free := s.free + 1, holding := s.holding - {who})
  }

  /** The state in which the grant pass of a cleanup handler starts. */
  function Abandoned(s: State, who: nat): State {
    if who in s.holding then GivenBack(s, who) else s.(heap := Decide(s.heap, who))
  }

  function Enqueued(s: State, who: nat, priority: int): State {
    Grant(Pushed(s, who, priority))
  }

  function Released(s: State, who: nat): State {
    Grant(GivenBack(s, who))
  }

  function Withdrawn(s: State, who: nat): State {
    Grant(Abandoned(s, who))
  }

  function CancelFuture(s: State, who: nat): State {
    s.(heap := Decide(s.heap, who))
  }

  function Decide(heap: seq<Waiter>, who: nat): (r: seq<Waiter>)
    ensures |r| == |heap|
    ensures forall i :: 0 <= i < |heap| ==>
      r[i] == if heap[i].who == who then heap[i].(live := false) else heap[i]
  {
    if heap == [] then []
    else
      var r := Decide(heap[1..], who);
      assert forall i :: 1 <= i < |heap| ==> heap[i] == heap[1..][i - 1];
      [if heap[0].who == who then heap[0].(live := false) else heap[0]] + r
  }

  // ---------- One client's view ----------

  datatype Role = Absent | Queued(live: bool) | Holds

  function Find(heap: seq<Waiter>, q: nat): (r: Role)
    ensures r != Holds
  {
    if heap == [] then Absent
    else if heap[0].who == q then Queued(heap[0].live)
    else Find(heap[1..], q)
  }

  function RoleOf(s: State, q: nat): Role {
    if q in s.holding then Holds else Find(s.heap, q)
  }

  ghost predicate Served(before: Role, after: Role) {
    || after == before
    || (before == Queued(true) && after == Holds)
    || (before == Queued(false) && after == Absent)
  }

  /** Neither holding nor able to be granted. */
  predicate Gone(r: Role) {
    r != Holds && r != Queued(true)
  }

  // ---------- Invariant ----------

  ghost predicate Distinct(heap: seq<Waiter>) {
    heap == [] || (Find(heap[1..], heap[0].who) == Absent && Distinct(heap[1..]))
  }

  ghost predicate Sorted(heap: seq<Waiter>) {
    heap == [] || ((forall w :: w in heap[1..] ==> Before(heap[0], w)) && Sorted(heap[1..]))
  }

  /** Slots are conserved; nobody both holds and waits; the heap is in order. */
  ghost predicate Conserved(s: State, capacity: nat) {
    && 0 <= s.free && s.free + |s.holding| == capacity
    && Distinct(s.heap) && Sorted(s.heap)
    && (forall q :: q in s.holding ==> Find(s.heap, q) == Absent)
    && (forall w :: w in s.heap ==> w.order <= s.sequence)
  }

  /** Conservation, and never a free slot beside a queued request. */
  ghost predicate Inv(s: State, capacity: nat) {
    Conserved(s, capacity) && (s.free == 0 || s.heap == [])
  }

  lemma PopKeeps(s: State, capacity: nat, q: nat)
    requires Conserved(s, capacity) && s.free > 0 && s.heap != []
    ensures Conserved(Pop(s), capacity)
    ensures Served(RoleOf(s, q), RoleOf(Pop(s), q))
  {
    assert Find(s.heap, s.heap[0].who).Queued?;
  }

  lemma GrantKeeps(s: State, capacity: nat, q: nat)
    requires Conserved(s, capacity)
    ensures Inv(Grant(s), capacity)
    ensures Served(RoleOf(s, q), RoleOf(Grant(s), q))
    ensures s.holding <= Grant(s).holding
    ensures forall w :: w in Grant(s).heap ==> w in s.heap
    decreases |s.heap|
  {
    if s.free > 0 && s.heap != [] {
      PopKeeps(s, capacity, q);
      GrantKeeps(Pop(s), capacity, q);
    }
  }

  lemma MemberFound(heap: seq<Waiter>, w: Waiter)
    requires w in heap
    ensures Find(heap, w.who) != Absent
  {
    if heap[0].who != w.who {
      MemberFound(heap[1..], w);
    }
  }

  /** A grant pass gives the free slots to the best requests: whoever it grants comes
      before whoever it leaves queued. */
  lemma BestFirst(s: State, capacity: nat, a: Waiter, b: Waiter)
    requires Conserved(s, capacity)
    requires a in s.heap && a.live && RoleOf(Grant(s), a.who) == Holds
    requires b in Grant(s).heap
    ensures Before(a, b)
    decreases |s.heap|
  {
    MemberFound(s.heap, a);
    if s.free == 0 {
      assert false;
    }
    PopKeeps(s, capacity, a.who);
    GrantKeeps(Pop(s), capacity, a.who);
    if a == s.heap[0] {
      assert b in s.heap[1..];
    } else {
      assert s.heap == [s.heap[0]] + s.heap[1..];
      BestFirst(Pop(s), capacity, a, b);
    }
  }

  // ---------- Atomic steps keep the invariant ----------

  lemma FindInsert(heap: seq<Waiter>, w: Waiter, q: nat)
    requires Find(heap, w.who) == Absent
    ensures Find(Insert(heap, w), q) == if q == w.who then Queued(w.live) else Find(heap, q)
  {
    if heap == [] || Before(w, heap[0]) {
      assert ([w] + heap)[1..] == heap;
    } else {
      FindInsert(heap[1..], w, q);
      assert Insert(heap, w)[1..] == Insert(heap[1..], w);
    }
  }

  lemma InsertKeeps(heap: seq<Waiter>, w: Waiter)
    requires Distinct(heap) && Sorted(heap) && Find(heap, w.who) == Absent
    requires forall x :: x in heap ==> x.order < w.order
    ensures Distinct(Insert(heap, w)) && Sorted(Insert(heap, w))
  {
    if heap == [] || Before(w, heap[0]) {
      assert ([w] + heap)[1..] == heap;
      if heap != [] {
        assert heap == [heap[0]] + heap[1..];
      }
    } else {
      InsertKeeps(heap[1..], w);
      FindInsert(heap[1..], w, heap[0].who);
      assert Insert(heap, w)[1..] == Insert(heap[1..], w);
      assert heap[0] in heap;
    }
  }

  lemma FindDecide(heap: seq<Waiter>, who: nat, q: nat)
    ensures Find(Decide(heap, who), q) ==
            var r := Find(heap, q); if q == who && r.Queued? then Queued(false) else r
  {
    if heap != [] {
      FindDecide(heap[1..], who, q);
      assert Decide(heap, who)[1..] == Decide(heap[1..], who);
    }
  }

  lemma DecideKeeps(heap: seq<Waiter>, who: nat, bound: nat)
    requires Distinct(heap) && Sorted(heap) && forall w :: w in heap ==> w.order <= bound
    ensures Distinct(Decide(heap, who)) && Sorted(Decide(heap, who))
    ensures forall w :: w in Decide(heap, who) ==>
      w.order <= bound && exists v :: v in heap && v.priority == w.priority && v.order == w.order
  {
    if heap != [] {
      assert heap == [heap[0]] + heap[1..];
      DecideKeeps(heap[1..], who, bound);
      FindDecide(heap[1..], who, heap[0].who);
      var r := Decide(heap, who);
      assert r[1..] == Decide(heap[1..], who);
      assert r == [r[0]] + r[1..];
      forall w | w in r[1..] ensures Before(r[0], w) {
        var v :| v in heap[1..] && v.priority == w.priority && v.order == w.order;
        assert Before(heap[0], v);
      }
      assert heap[0] in heap;
    }
  }

  lemma EnqueueKeeps(s: State, capacity: nat, who: nat, priority: int, q: nat)
    requires Inv(s, capacity) && RoleOf(s, who) == Absent
    ensures Conserved(Pushed(s, who, priority), capacity)
    ensures Inv(Enqueued(s, who, priority), capacity)
    ensures RoleOf(Enqueued(s, who, priority), who) in {Queued(true), Holds}
    ensures q != who ==> Served(RoleOf(s, q), RoleOf(Enqueued(s, who, priority), q))
  {
    var w := Waiter(who, priority, s.sequence + 1, true);
    forall x ensures Find(Insert(s.heap, w), x) == if x == who then Queued(true) else Find(s.heap, x) {
      FindInsert(s.heap, w, x);
    }
    InsertKeeps(s.heap, w);
    GrantKeeps(Pushed(s, who, priority), capacity, who);
    GrantKeeps(Pushed(s, who, priority), capacity, q);
  }

  lemma ReleaseKeeps(s: State, capacity: nat, who: nat, q: nat)
    requires Inv(s, capacity) && who in s.holding
    ensures Conserved(GivenBack(s, who), capacity)
    ensures Inv(Released(s, who), capacity)
    ensures RoleOf(Released(s, who), who) == Absent
    ensures q != who ==> Served(RoleOf(s, q), RoleOf(Released(s, who), q))
  {
    GrantKeeps(GivenBack(s, who), capacity, who);
    GrantKeeps(GivenBack(s, who), capacity, q);
  }

  lemma CancelKeeps(s: State, capacity: nat, who: nat, q: nat)
    requires Inv(s, capacity)
    ensures Inv(CancelFuture(s, who), capacity)
    ensures RoleOf(CancelFuture(s, who), q) ==
            var r := RoleOf(s, q); if q == who && r.Queued? then Queued(false) else r
  {
    forall x ensures Find(Decide(s.heap, who), x) ==
                     var r := Find(s.heap, x); if x == who && r.Queued? then Queued(false) else r {
      FindDecide(s.heap, who, x);
    }
    DecideKeeps(s.heap, who, s.sequence);
  }

  lemma WithdrawKeeps(s: State, capacity: nat, who: nat, q: nat)
    requires Inv(s, capacity)
    ensures Conserved(Abandoned(s, who), capacity)
    ensures Inv(Withdrawn(s, who), capacity)
    ensures Gone(RoleOf(Withdrawn(s, who), who))
    ensures q != who ==> Served(RoleOf(s, q), RoleOf(Withdrawn(s, who), q))
  {
    CancelKeeps(s, capacity, who, q);
    CancelKeeps(s, capacity, who, who);
    assert Gone(RoleOf(Abandoned(s, who), who));
    GrantKeeps(Abandoned(s, who), capacity, who);
    GrantKeeps(Abandoned(s, who), capacity, q);
  }

  // ---------- Whole runs ----------

  datatype Step = Arrive(priority: int) | CancelTask(who: nat) | Cleanup(who: nat) | Finish(who: nat)

  datatype History = History(sem: State, tickets: nat)

  /** The state in which the grant pass of a step starts. */
  function Opening(r: History, step: Step): State {
    match step
    case Arrive(priority) => Pushed(r.sem, r.tickets, priority)
    case CancelTask(who) => CancelFuture(r.sem, who)
    case Cleanup(who) => Abandoned(r.sem, who)
    case Finish(who) => if who in r.sem.holding then GivenBack(r.sem, who) else r.sem
  }

  /** A task cancellation runs no grant pass, and neither does a step no client can take. */
  function Take(r: History, step: Step): History {
    match step
    case Arrive(_) => History(Grant(Opening(r, step)), r.tickets + 1)
    case CancelTask(_) => r.(sem := Opening(r, step))
    case Cleanup(_) => r.(sem := Grant(Opening(r, step)))
    case Finish(who) => if who in r.sem.holding then r.(sem := Grant(Opening(r, step))) else r
  }

  function After(capacity: nat, steps: seq<Step>): History {
    if steps == [] then History(Open(capacity), 0)
    else Take(After(capacity, steps[..|steps| - 1]), steps[|steps| - 1])
  }

  ghost predicate Fresh(s: State, tickets: nat) {
    forall q: nat :: q >= tickets ==> RoleOf(s, q) == Absent
  }

  /** Over any run free slots and holders add up to the capacity, and there is never a
      free slot beside a queued request. */
  lemma {:induction false} ConservedOverRuns(capacity: nat, steps: seq<Step>)
    ensures var r := After(capacity, steps); Inv(r.sem, capacity) && Fresh(r.sem, r.tickets)
  {
    if steps != [] {
      var before, step := steps[..|steps| - 1], steps[|steps| - 1];
      ConservedOverRuns(capacity, before);
      StepKeeps(capacity, After(capacity, before), step);
    }
  }

  lemma StepKeeps(capacity: nat, r: History, step: Step)
    requires Inv(r.sem, capacity) && Fresh(r.sem, r.tickets)
    ensures Inv(Take(r, step).sem, capacity) && Fresh(Take(r, step).sem, Take(r, step).tickets)
    ensures Conserved(Opening(r, step), capacity)
  {
    var t := Take(r, step);
    forall q: nat ensures Inv(t.sem, capacity) && (q >= t.tickets ==> RoleOf(t.sem, q) == Absent)
                     && Conserved(Opening(r, step), capacity) {
      match step
      case Arrive(priority) => EnqueueKeeps(r.sem, capacity, r.tickets, priority, q);
      case CancelTask(who) => CancelKeeps(r.sem, capacity, who, q);
      case Cleanup(who) =>
        WithdrawKeeps(r.sem, capacity, who, q);
        if q == who && q >= t.tickets {
          assert RoleOf(r.sem, who) == Absent;
          CancelKeeps(r.sem, capacity, who, who);
          GrantKeeps(Abandoned(r.sem, who), capacity, who);
        }
      case Finish(who) => if who in r.sem.holding { ReleaseKeeps(r.sem, capacity, who, q); }
    }
    assert RoleOf(t.sem, t.tickets) == Absent;
  }

  /** Over any run, whoever a step grants has a higher priority than everybody it leaves
      queued, or the same priority and an earlier arrival. */
  lemma PriorityOverRuns(capacity: nat, steps: seq<Step>, step: Step, a: Waiter, b: Waiter)
    requires var r := After(capacity, steps);
             a in Opening(r, step).heap && a.live && a.who in Take(r, step).sem.holding && b in Take(r, step).sem.heap
    ensures Before(a, b)
  {
    ConservedOverRuns(capacity, steps);
    var r := After(capacity, steps);
    StepKeeps(capacity, r, step);
    MemberFound(Opening(r, step).heap, a);
    BestFirst(Opening(r, step), capacity, a, b);
  }

  // ---------- Who is served, by what the callers asked for ----------

  /** The priorities asked for, by ticket: ticket `q` went to the `q`-th arrival. */
  function Asked(steps: seq<Step>): seq<int> {
    if steps == [] then []
    else
      var last := steps[|steps| - 1];
      Asked(steps[..|steps| - 1]) + if last.Arrive? then [last.priority] else []
  }

  /** Every queued request carries what its arrival asked for, and arrivals are numbered. */
  ghost predicate AsAsked(s: State, asked: seq<int>) {
    && s.sequence == |asked|
    && forall w :: w in s.heap ==> w.who < |asked| && w.priority == asked[w.who] && w.order == w.who + 1
  }

  lemma DecidedAsAsked(s: State, who: nat, asked: seq<int>)
    requires AsAsked(s, asked)
    ensures AsAsked(s.(heap := Decide(s.heap, who)), asked)
  {
    forall w | w in Decide(s.heap, who) ensures w.who < |asked| && w.priority == asked[w.who] && w.order == w.who + 1 {
      var i :| 0 <= i < |s.heap| && Decide(s.heap, who)[i] == w;
      assert s.heap[i] in s.heap;
    }
  }

  lemma OpeningAsAsked(capacity: nat, steps: seq<Step>, step: Step)
    requires AsAsked(After(capacity, steps).sem, Asked(steps)) && After(capacity, steps).tickets == |Asked(steps)|
    ensures AsAsked(Opening(After(capacity, steps), step), Asked(steps + [step]))
  {
    assert (steps + [step])[..|steps|] == steps;
    var r := After(capacity, steps);
    match step
    case Arrive(priority) => assert Asked(steps + [step]) == Asked(steps) + [priority];
    case CancelTask(who) => DecidedAsAsked(r.sem, who, Asked(steps));
    case Cleanup(who) => if who !in r.sem.holding { DecidedAsAsked(r.sem, who, Asked(steps)); }
    case Finish(_) =>
  }

  lemma {:induction false} AskedOverRuns(capacity: nat, steps: seq<Step>)
    ensures var r := After(capacity, steps); r.tickets == |Asked(steps)| && AsAsked(r.sem, Asked(steps))
  {
    if steps != [] {
      var before, step := steps[..|steps| - 1], steps[|steps| - 1];
      assert steps == before + [step];
      AskedOverRuns(capacity, before);
      OpeningAsAsked(capacity, before, step);
      ConservedOverRuns(capacity, before);
      StepKeeps(capacity, After(capacity, before), step);
      GrantKeeps(Opening(After(capacity, before), step), capacity, 0);
      GrantCounts(Opening(After(capacity, before), step));
    }
  }

  lemma GrantCounts(s: State)
    ensures Grant(s).sequence == s.sequence
    decreases |s.heap|
  {
    if s.free > 0 && s.heap != [] {
      GrantCounts(Pop(s));
    }
  }

  lemma WaiterOf(heap: seq<Waiter>, q: nat) returns (w: Waiter)
    requires Find(heap, q).Queued?
    ensures w in heap && w.who == q && Find(heap, q) == Queued(w.live)
  {
    if heap[0].who == q {
      w := heap[0];
    } else {
      w := WaiterOf(heap[1..], q);
      assert heap == [heap[0]] + heap[1..];
    }
  }

  /** Over any run, whoever a step grants asked for a higher priority than everybody it
      leaves queued, or for the same priority and arrived earlier. */
  lemma ServedByPriority(capacity: nat, steps: seq<Step>, step: Step, a: nat, b: nat)
    requires var (r, t) := (After(capacity, steps), Take(After(capacity, steps), step));
             a !in r.sem.holding && a in t.sem.holding && RoleOf(t.sem, b).Queued?
    ensures var asked := Asked(steps + [step]);
            a < |asked| && b < |asked| && (asked[a] > asked[b] || (asked[a] == asked[b] && a < b))
  {
    var r := After(capacity, steps);
    var open := Opening(r, step);
    ConservedOverRuns(capacity, steps);
    AskedOverRuns(capacity, steps);
    OpeningAsAsked(capacity, steps, step);
    StepKeeps(capacity, r, step);
    GrantKeeps(open, capacity, a);
    var first := WaiterOf(open.heap, a);
    var left := WaiterOf(Take(r, step).sem.heap, b);
    BestFirst(open, capacity, first, left);
  }

  // ---------- The running semaphore ----------

  class FairPrioritySemaphore {
    var value: int
    var waiters: seq<Waiter>
    var sequence: nat
    ghost const capacity: nat
    ghost var holding: set<nat>
    ghost var grants: seq<nat>

    ghost function View(): State
      reads this
    {
      State(value, holding, waiters, sequence, grants)
    }

    ghost predicate Valid()
      reads this
    {
      Inv(View(), capacity)
    }

    constructor (value: nat)
      requires value > 0
      ensures Valid() && View() == Open(value) && capacity == value
    {
      this.value, waiters, sequence := value, [], 0;
      capacity, holding, grants := value, {}, [];
    }

    method GrantLocked()
      requires Conserved(View(), capacity)
      modifies this
      ensures Valid() && View() == Grant(old(View()))
    {
      ghost var start := View();
      GrantKeeps(start, capacity, 0);
      while value > 0 && waiters != []
        invariant Grant(View()) == Grant(start)
        decreases |waiters|
      {
        var w := waiters[0];
        waiters := waiters[1..];
        if w.live {
          value := value - 1;
          holding, grants := holding + {w.who}, grants + [w.who];
        }
      }
    }

    /** The locked part of an acquire; `queued` is what the caller is told. */
    method Enqueue(who: nat, priority: int) returns (queued: bool)
      requires Valid() && RoleOf(View(), who) == Absent
      modifies this
      ensures Valid() && View() == Enqueued(old(View()), who, priority)
      ensures queued <==> who !in holding
    {
      EnqueueKeeps(View(), capacity, who, priority, who);
      sequence := sequence + 1;
      waiters := Insert(waiters, Waiter(who, priority, sequence, true));
      GrantLocked();
      queued := exists w :: w in waiters && w.who == who;
      QueuedMeansListed(waiters, who);
    }

    method Release(ghost who: nat)
      requires Valid() && who in holding
      modifies this
      ensures Valid() && View() == Released(old(View()), who)
    {
      ReleaseKeeps(View(), capacity, who, who);
      value := value + 1;
      holding := holding - {who};
      GrantLocked();
    }

    method Withdraw(who: nat, granted: bool)
      requires Valid() && granted == (who in holding)
      modifies this
      ensures Valid() && View() == Withdrawn(old(View()), who)
    {
      WithdrawKeeps(View(), capacity, who, who);
      if granted {
        value := value + 1;
        holding := holding - {who};
      } else {
        waiters := Decide(waiters, who);
      }
      GrantLocked();
    }
  }

  lemma QueuedMeansListed(heap: seq<Waiter>, who: nat)
    ensures Find(heap, who) != Absent <==> exists w :: w in heap && w.who == who
  {
    if heap != [] {
      QueuedMeansListed(heap[1..], who);
      assert heap == [heap[0]] + heap[1..];
    }
  }
}
