/**
 The fair reader/writer lock of the tool scheduler.

 `State` is the value of the lock: who holds it and how, the arrival queue, and the
 history of grants. The class at the end keeps the counters and the queue of the
 running system and is proved to compute exactly the functions on `State`.
 */
module FairRWLock {

  datatype Access = Read | Write

  /** One queued request. `live` says that its future is still undecided; a request
      whose future was cancelled stays queued until a grant pass or its own cleanup. */
  datatype Waiter = Waiter(who: nat, access: Access, live: bool)

  datatype State = State(holding: map<nat, Access>, queue: seq<Waiter>, grants: seq<nat>)

  const Unlocked := State(map[], [], [])

  predicate Written(s: State) {
    exists q :: q in s.holding && s.holding[q] == Write
  }

  // ---------- The grant pass ----------

  /** Takes the head off the queue; an undecided head is granted. */
  function Pop(s: State): State
    requires s.queue != []
  {
    var w := s.queue[0];
    if w.live then State(s.holding[w.who := w.access], s.queue[1..], s.grants + [w.who])
    else s.(queue := s.queue[1..])
  }

  function SkipDecided(s: State): State
    decreases |s.queue|
  {
    if s.queue != [] && !s.queue[0].live then SkipDecided(Pop(s)) else s
  }

  function GrantReaders(s: State): State
    decreases |s.queue|
  {
    if s.queue != [] && s.queue[0].access == Read then GrantReaders(Pop(s)) else s
  }

  function Grant(s: State): State {
    var t := SkipDecided(s);
    if t.queue == [] || Written(t) then t
    else if t.queue[0].access == Write then (if t.holding == map[] then Pop(t) else t)
    else GrantReaders(t)
  }

  // ---------- The atomic steps ----------

  function Enqueued(s: State, who: nat, access: Access): State {
    Grant(s.(queue := s.queue + [Waiter(who, access, true)]))
  }

  function Released(s: State, who: nat): State {
    Grant(s.(holding := s.holding - {who}))
  }

  /** The task was cancelled while awaiting its own future: the future is decided,
      the cleanup handler has not run yet. */
  function CancelFuture(s: State, who: nat): State {
    s.(queue := Decide(s.queue, who))
  }

  function Decide(queue: seq<Waiter>, who: nat): (r: seq<Waiter>)
    ensures |r| == |queue|
  {
    if queue == [] then []
    else [if queue[0].who == who then queue[0].(live := false) else queue[0]] + Decide(queue[1..], who)
  }

  /** The cleanup handler of a request that ended in an exception: it gives a grant
      back, takes the request off the queue, and runs a grant pass. */
  function Withdrawn(s: State, who: nat): State {
    Grant(s.(holding := s.holding - {who}, queue := Without(s.queue, who)))
  }

  function Without(queue: seq<Waiter>, who: nat): (r: seq<Waiter>)
    ensures |r| <= |queue|
  {
    if queue == [] then []
    else if queue[0].who == who then queue[1..]
    else [queue[0]] + Without(queue[1..], who)
  }

  // ---------- One client's view ----------

  datatype Role = Absent | Queued(access: Access, live: bool) | Holds(access: Access)

  function Find(queue: seq<Waiter>, q: nat): Role {
    if queue == [] then Absent
    else if queue[0].who == q then Queued(queue[0].access, queue[0].live)
    else Find(queue[1..], q)
  }

  function RoleOf(s: State, q: nat): Role {
    if q in s.holding then Holds(s.holding[q]) else Find(s.queue, q)
  }

  /** All a grant pass may do to a client: grant its undecided request in the mode it
      asked for, or forget its cancelled one. */
  ghost predicate Served(before: Role, after: Role) {
    || after == before
    || (before.Queued? && before.live && after == Holds(before.access))
    || (before.Queued? && !before.live && after == Absent)
  }

  // ---------- Invariant ----------

  ghost predicate Distinct(queue: seq<Waiter>) {
    queue == [] || (Find(queue[1..], queue[0].who) == Absent && Distinct(queue[1..]))
  }

  /** A writer excludes everybody else; nobody both holds and waits. */
  ghost predicate Exclusive(s: State) {
    && (forall a, b :: a in s.holding && b in s.holding && a != b ==> s.holding[a] == s.holding[b] == Read)
    && Distinct(s.queue)
    && (forall q :: q in s.holding ==> Find(s.queue, q) == Absent)
  }

  /** The head of a non-empty queue is really blocked, or it is a withdrawn request
      whose cleanup handler has yet to run. */
  ghost predicate NoLostWakeup(s: State) {
    || s.queue == []
    || !s.queue[0].live
    || Written(s)
    || (s.queue[0].access == Write && s.holding != map[])
  }

  ghost predicate Inv(s: State) {
    Exclusive(s) && NoLostWakeup(s)
  }

  // ---------- Grant passes keep the invariant ----------

  /** The head may be taken off when it is decided, or when its mode is compatible. */
  ghost predicate MayPop(s: State) {
    s.queue != [] && (!s.queue[0].live || (!Written(s) && (s.queue[0].access == Write ==> s.holding == map[])))
  }

  lemma PopKeeps(s: State, q: nat)
    requires Exclusive(s) && MayPop(s)
    ensures Exclusive(Pop(s))
    ensures Served(RoleOf(s, q), RoleOf(Pop(s), q))
  {
    var w := s.queue[0];
    assert Find(s.queue, w.who).Queued?;
  }

  lemma SkipKeeps(s: State, q: nat)
    requires Exclusive(s)
    ensures Exclusive(SkipDecided(s)) && SkipDecided(s).holding == s.holding
    ensures Served(RoleOf(s, q), RoleOf(SkipDecided(s), q))
    ensures SkipDecided(s).queue != [] ==> SkipDecided(s).queue[0].live
    decreases |s.queue|
  {
    if s.queue != [] && !s.queue[0].live {
      PopKeeps(s, q);
      SkipKeeps(Pop(s), q);
    }
  }

  lemma ReadersKeep(s: State, q: nat)
    requires Exclusive(s) && !Written(s)
    ensures Exclusive(GrantReaders(s)) && !Written(GrantReaders(s))
    ensures Served(RoleOf(s, q), RoleOf(GrantReaders(s), q))
    ensures GrantReaders(s).queue != [] ==> GrantReaders(s).queue[0].access == Write
    ensures s.holding.Keys <= GrantReaders(s).holding.Keys
    decreases |s.queue|
  {
    if s.queue != [] && s.queue[0].access == Read {
      PopKeeps(s, q);
      ReadersKeep(Pop(s), q);
    }
  }

  lemma GrantKeeps(s: State, q: nat)
    requires Exclusive(s)
    ensures Inv(Grant(s))
    ensures Served(RoleOf(s, q), RoleOf(Grant(s), q))
  {
    SkipKeeps(s, q);
    var t := SkipDecided(s);
    if t.queue != [] && !Written(t) {
      if t.queue[0].access == Write {
        if t.holding == map[] {
          PopKeeps(t, q);
          assert t.queue[0].who in Pop(t).holding;
        }
      } else {
        ReadersKeep(t, q);
        PopKeeps(t, q);
        ReadersKeep(Pop(t), q);
        assert t.queue[0].who in Pop(t).holding;
      }
    }
  }

  // ---------- Atomic steps keep the invariant ----------

  lemma FindSnoc(queue: seq<Waiter>, w: Waiter, q: nat)
    ensures Find(queue + [w], q) ==
            if Find(queue, q) != Absent then Find(queue, q)
            else if w.who == q then Queued(w.access, w.live) else Absent
  {
    if queue != [] {
      assert (queue + [w])[1..] == queue[1..] + [w];
      FindSnoc(queue[1..], w, q);
    } else {
      assert [w][1..] == [];
    }
  }

  lemma DistinctSnoc(queue: seq<Waiter>, w: Waiter)
    requires Distinct(queue) && Find(queue, w.who) == Absent
    ensures Distinct(queue + [w])
  {
    if queue != [] {
      assert (queue + [w])[1..] == queue[1..] + [w];
      FindSnoc(queue[1..], w, queue[0].who);
      DistinctSnoc(queue[1..], w);
    } else {
      assert [w][1..] == [];
    }
  }

  lemma FindWithout(queue: seq<Waiter>, who: nat, q: nat)
    requires Distinct(queue)
    ensures Find(Without(queue, who), q) == if q == who then Absent else Find(queue, q)
  {
    if queue != [] && queue[0].who != who {
      FindWithout(queue[1..], who, q);
      assert ([queue[0]] + Without(queue[1..], who))[1..] == Without(queue[1..], who);
    }
  }

  lemma DistinctWithout(queue: seq<Waiter>, who: nat)
    requires Distinct(queue)
    ensures Distinct(Without(queue, who))
  {
    if queue != [] && queue[0].who != who {
      DistinctWithout(queue[1..], who);
      FindWithout(queue[1..], who, queue[0].who);
      assert ([queue[0]] + Without(queue[1..], who))[1..] == Without(queue[1..], who);
    }
  }

  lemma FindDecide(queue: seq<Waiter>, who: nat, q: nat)
    ensures Find(Decide(queue, who), q) ==
            var r := Find(queue, q); if q == who && r.Queued? then Queued(r.access, false) else r
  {
    if queue != [] {
      FindDecide(queue[1..], who, q);
      assert Decide(queue, who)[1..] == Decide(queue[1..], who);
    }
  }

  lemma DistinctDecide(queue: seq<Waiter>, who: nat)
    requires Distinct(queue)
    ensures Distinct(Decide(queue, who))
  {
    if queue != [] {
      DistinctDecide(queue[1..], who);
      FindDecide(queue[1..], who, queue[0].who);
      assert Decide(queue, who)[1..] == Decide(queue[1..], who);
    }
  }

  /** A new request is queued or granted at once; the others are only served. */
  lemma EnqueueKeeps(s: State, who: nat, access: Access, q: nat)
    requires Inv(s) && RoleOf(s, who) == Absent
    ensures Inv(Enqueued(s, who, access))
    ensures RoleOf(Enqueued(s, who, access), who) in {Queued(access, true), Holds(access)}
    ensures q != who ==> Served(RoleOf(s, q), RoleOf(Enqueued(s, who, access), q))
  {
    var mid := s.(queue := s.queue + [Waiter(who, access, true)]);
    forall x | x in s.holding || x == who || x == q
      ensures Find(mid.queue, x) == if x == who then Queued(access, true) else Find(s.queue, x)
    {
      FindSnoc(s.queue, Waiter(who, access, true), x);
    }
    DistinctSnoc(s.queue, Waiter(who, access, true));
    GrantKeeps(mid, who);
    GrantKeeps(mid, q);
  }

  lemma ReleaseKeeps(s: State, who: nat, q: nat)
    requires Inv(s) && who in s.holding
    ensures Inv(Released(s, who))
    ensures RoleOf(Released(s, who), who) == Absent
    ensures q != who ==> Served(RoleOf(s, q), RoleOf(Released(s, who), q))
  {
    var mid := s.(holding := s.holding - {who});
    GrantKeeps(mid, who);
    GrantKeeps(mid, q);
  }

  lemma CancelKeeps(s: State, who: nat, q: nat)
    requires Inv(s)
    ensures Inv(CancelFuture(s, who))
    ensures RoleOf(CancelFuture(s, who), q) ==
            var r := RoleOf(s, q); if q == who && r.Queued? then Queued(r.access, false) else r
  {
    forall x | x in s.holding ensures Find(Decide(s.queue, who), x) == Absent {
      FindDecide(s.queue, who, x);
    }
    FindDecide(s.queue, who, q);
    DistinctDecide(s.queue, who);
  }

  lemma WithdrawKeeps(s: State, who: nat, q: nat)
    requires Inv(s)
    ensures Inv(Withdrawn(s, who))
    ensures RoleOf(Withdrawn(s, who), who) == Absent
    ensures q != who ==> Served(RoleOf(s, q), RoleOf(Withdrawn(s, who), q))
  {
    var mid := s.(holding := s.holding - {who}, queue := Without(s.queue, who));
    forall x | x in s.holding || x == who || x == q
      ensures Find(mid.queue, x) == if x == who then Absent else Find(s.queue, x)
    {
      FindWithout(s.queue, who, x);
    }
    DistinctWithout(s.queue, who);
    GrantKeeps(mid, who);
    GrantKeeps(mid, q);
  }

  // ---------- Clients that never cancel a bare future ----------

  ghost predicate AllLive(s: State) {
    forall w :: w in s.queue ==> w.live
  }

  lemma GrantLive(s: State)
    requires AllLive(s)
    ensures AllLive(Grant(s))
  {
    assert SkipDecided(s) == s;
    ReadersLive(s);
  }

  lemma ReadersLive(s: State)
    requires AllLive(s)
    ensures AllLive(GrantReaders(s))
    decreases |s.queue|
  {
    if s.queue != [] && s.queue[0].access == Read {
      ReadersLive(Pop(s));
    }
  }

  lemma WithoutLive(queue: seq<Waiter>, who: nat)
    requires forall w :: w in queue ==> w.live
    ensures forall w :: w in Without(queue, who) ==> w.live
  {
    if queue != [] && queue[0].who != who {
      WithoutLive(queue[1..], who);
    }
  }

  lemma FoundLive(queue: seq<Waiter>, q: nat)
    requires forall w :: w in queue ==> w.live
    ensures Find(queue, q) == Absent || (Find(queue, q).Queued? && Find(queue, q).live)
  {
    if queue != [] && queue[0].who != q {
      FoundLive(queue[1..], q);
    }
  }

  lemma StepsLive(s: State, who: nat, access: Access)
    requires AllLive(s)
    ensures AllLive(Enqueued(s, who, access)) && AllLive(Released(s, who)) && AllLive(Withdrawn(s, who))
  {
    GrantLive(s.(queue := s.queue + [Waiter(who, access, true)]));
    GrantLive(s.(holding := s.holding - {who}));
    WithoutLive(s.queue, who);
    GrantLive(s.(holding := s.holding - {who}, queue := Without(s.queue, who)));
  }

  // ---------- Whole runs ----------

  /** What can happen to the lock. `who` is the ticket given at arrival. Steps that no
      client can take (finishing without holding, say) leave the lock alone. */
  datatype Step = Arrive(access: Access) | CancelTask(who: nat) | Cleanup(who: nat) | Finish(who: nat)

  datatype History = History(lock: State, tickets: nat)

  function Take(r: History, step: Step): History {
    match step
    case Arrive(access) => History(Enqueued(r.lock, r.tickets, access), r.tickets + 1)
    case CancelTask(who) => r.(lock := CancelFuture(r.lock, who))
    case Cleanup(who) => r.(lock := Withdrawn(r.lock, who))
    case Finish(who) => if who in r.lock.holding then r.(lock := Released(r.lock, who)) else r
  }

  function After(steps: seq<Step>): History {
    if steps == [] then History(Unlocked, 0) else Take(After(steps[..|steps| - 1]), steps[|steps| - 1])
  }

  ghost predicate Increasing(tickets: seq<nat>) {
    forall i, j :: 0 <= i < j < |tickets| ==> tickets[i] < tickets[j]
  }

  ghost predicate Arrived(queue: seq<Waiter>) {
    forall i, j :: 0 <= i < j < |queue| ==> queue[i].who < queue[j].who
  }

  /** The history of grants is in arrival order, and everything still queued arrived
      after everything granted so far. */
  ghost predicate InArrivalOrder(s: State) {
    && Increasing(s.grants)
    && Arrived(s.queue)
    && (forall g, w :: g in s.grants && w in s.queue ==> g < w.who)
  }

  ghost predicate Below(s: State, tickets: nat) {
    && (forall w :: w in s.queue ==> w.who < tickets)
    && (forall q :: q in s.holding ==> q < tickets)
    && (forall g :: g in s.grants ==> g < tickets)
  }

  lemma PopOrder(s: State, tickets: nat)
    requires s.queue != [] && InArrivalOrder(s) && Below(s, tickets)
    ensures InArrivalOrder(Pop(s)) && Below(Pop(s), tickets)
  {
    assert s.queue[0] in s.queue;
    assert forall i :: 0 <= i < |s.grants| ==> s.grants[i] in s.grants;
    forall w | w in s.queue[1..] ensures s.queue[0].who < w.who {
      var i :| 0 <= i < |s.queue[1..]| && s.queue[1..][i] == w;
      assert s.queue[i + 1] == w;
    }
  }

  lemma GrantOrder(s: State, tickets: nat)
    requires InArrivalOrder(s) && Below(s, tickets)
    ensures InArrivalOrder(Grant(s)) && Below(Grant(s), tickets)
  {
    SkipOrder(s, tickets);
    var t := SkipDecided(s);
    if t.queue != [] {
      PopOrder(t, tickets);
      ReadersOrder(t, tickets);
    }
  }

  lemma SkipOrder(s: State, tickets: nat)
    requires InArrivalOrder(s) && Below(s, tickets)
    ensures InArrivalOrder(SkipDecided(s)) && Below(SkipDecided(s), tickets)
    decreases |s.queue|
  {
    if s.queue != [] && !s.queue[0].live {
      PopOrder(s, tickets);
      SkipOrder(Pop(s), tickets);
    }
  }

  lemma ReadersOrder(s: State, tickets: nat)
    requires InArrivalOrder(s) && Below(s, tickets)
    ensures InArrivalOrder(GrantReaders(s)) && Below(GrantReaders(s), tickets)
    decreases |s.queue|
  {
    if s.queue != [] && s.queue[0].access == Read {
      PopOrder(s, tickets);
      ReadersOrder(Pop(s), tickets);
    }
  }

  lemma WithoutOrder(queue: seq<Waiter>, who: nat)
    requires Arrived(queue)
    ensures Arrived(Without(queue, who))
    ensures forall w :: w in Without(queue, who) ==> w in queue
  {
    if queue != [] && queue[0].who != who {
      WithoutOrder(queue[1..], who);
      forall w | w in queue[1..] ensures queue[0].who < w.who {
        var i :| 0 <= i < |queue[1..]| && queue[1..][i] == w;
        assert queue[i + 1] == w;
      }
      var r := Without(queue[1..], who);
      forall i, j | 0 <= i < j < 1 + |r| ensures ([queue[0]] + r)[i].who < ([queue[0]] + r)[j].who {
        assert r[j - 1] in r;
      }
    }
  }

  lemma DecideNames(queue: seq<Waiter>, who: nat)
    ensures forall i :: 0 <= i < |queue| ==> Decide(queue, who)[i].who == queue[i].who
  {
    if queue != [] {
      DecideNames(queue[1..], who);
    }
  }

  lemma AbsentAbove(queue: seq<Waiter>, q: nat)
    requires forall w :: w in queue ==> w.who < q
    ensures Find(queue, q) == Absent
  {}

  ghost predicate Fair(r: History) {
    Inv(r.lock) && InArrivalOrder(r.lock) && Below(r.lock, r.tickets)
  }

  lemma ArrivalOrder(s: State, who: nat, access: Access)
    requires InArrivalOrder(s) && Below(s, who)
    ensures var t := s.(queue := s.queue + [Waiter(who, access, true)]); InArrivalOrder(t) && Below(t, who + 1)
  {
    assert forall i :: 0 <= i < |s.queue| ==> s.queue[i] in s.queue;
  }

  lemma ArriveIsFair(r: History, access: Access)
    requires Fair(r)
    ensures Fair(Take(r, Arrive(access)))
  {
    AbsentAbove(r.lock.queue, r.tickets);
    EnqueueKeeps(r.lock, r.tickets, access, r.tickets);
    ArrivalOrder(r.lock, r.tickets, access);
    GrantOrder(r.lock.(queue := r.lock.queue + [Waiter(r.tickets, access, true)]), r.tickets + 1);
  }

  lemma CancelIsFair(r: History, who: nat)
    requires Fair(r)
    ensures Fair(Take(r, CancelTask(who)))
  {
    CancelKeeps(r.lock, who, who);
    DecideNames(r.lock.queue, who);
    var queue := Decide(r.lock.queue, who);
    forall w | w in queue ensures exists v :: v in r.lock.queue && v.who == w.who {
      var i :| 0 <= i < |queue| && queue[i] == w;
      assert r.lock.queue[i] in r.lock.queue;
    }
  }

  lemma CleanupIsFair(r: History, who: nat)
    requires Fair(r)
    ensures Fair(Take(r, Cleanup(who)))
  {
    WithdrawKeeps(r.lock, who, who);
    WithoutOrder(r.lock.queue, who);
    GrantOrder(r.lock.(holding := r.lock.holding - {who}, queue := Without(r.lock.queue, who)), r.tickets);
  }

  lemma FinishIsFair(r: History, who: nat)
    requires Fair(r)
    ensures Fair(Take(r, Finish(who)))
  {
    if who in r.lock.holding {
      ReleaseKeeps(r.lock, who, who);
      GrantOrder(r.lock.(holding := r.lock.holding - {who}), r.tickets);
    }
  }

  /** Over any run, with cancellation allowed to race with granting at every point:
      readers and writers exclude each other, no wakeup is lost except behind a
      withdrawn head, and grants are made in arrival order. */
  lemma {:induction false} FairOverRuns(steps: seq<Step>)
    ensures Fair(After(steps))
  {
    if steps != [] {
      var before := steps[..|steps| - 1];
      FairOverRuns(before);
      match steps[|steps| - 1]
      case Arrive(access) => ArriveIsFair(After(before), access);
      case CancelTask(who) => CancelIsFair(After(before), who);
      case Cleanup(who) => CleanupIsFair(After(before), who);
      case Finish(who) => FinishIsFair(After(before), who);
    }
  }

  /** No overtaking: a request granted while an earlier one is still queued and
      undecided does not exist. */
  lemma NoOvertaking(steps: seq<Step>, earlier: Waiter, later: nat)
    requires earlier in After(steps).lock.queue && later in After(steps).lock.grants
    ensures later < earlier.who
  {
    FairOverRuns(steps);
  }

  // ---------- The running lock ----------

  ghost function ReadersOf(holding: map<nat, Access>): set<nat> {
    set q | q in holding && holding[q] == Read
  }

  lemma NobodyReads(holding: map<nat, Access>)
    ensures |ReadersOf(holding)| == 0 <==> forall q :: q in holding ==> holding[q] == Write
  {
    if |ReadersOf(holding)| == 0 {
      assert forall q :: q in holding ==> q !in ReadersOf(holding);
    } else {
      var q :| q in ReadersOf(holding);
    }
  }

  lemma PopCounts(s: State)
    requires Exclusive(s) && s.queue != [] && s.queue[0].access == Read && !Written(s)
    ensures !Written(Pop(s))
    ensures |ReadersOf(Pop(s).holding)| == |ReadersOf(s.holding)| + if s.queue[0].live then 1 else 0
  {
    var w := s.queue[0];
    if w.live {
      assert Find(s.queue, w.who).Queued?;
      assert ReadersOf(Pop(s).holding) == ReadersOf(s.holding) + {w.who};
    }
  }

  class FairAsyncRWLock {
    var readers: int
    var writer: bool
    var waiters: seq<Waiter>
    ghost var holding: map<nat, Access>
    ghost var grants: seq<nat>

    ghost function View(): State
      reads this
    {
      State(holding, waiters, grants)
    }

    /** The two counters are exactly the holders. */
    ghost predicate Counted()
      reads this
    {
      readers == |ReadersOf(holding)| && writer == Written(View())
    }

    ghost predicate Valid()
      reads this
    {
      Counted() && Inv(View())
    }

    constructor ()
      ensures Valid() && View() == Unlocked
    {
      readers, writer, waiters := 0, false, [];
      holding, grants := map[], [];
      new;
      assert ReadersOf(holding) == {};
    }

    /** The grant loop, run inside the mutex of every step below. */
    method GrantLocked()
      requires Counted() && Exclusive(View())
      modifies this
      ensures Valid() && View() == Grant(old(View()))
    {
      ghost var start := View();
      while waiters != [] && !waiters[0].live
        invariant Counted() && holding == start.holding
        invariant SkipDecided(View()) == SkipDecided(start)
        decreases |waiters|
      {
        waiters := waiters[1..];
      }
      SkipKeeps(start, 0);
      GrantKeeps(start, 0);
      if writer || waiters == [] {
        return;
      }
      var first := waiters[0];
      if first.access == Read {
        GrantReadersLocked();
        return;
      }
      NobodyReads(holding);
      if readers == 0 {
        waiters := waiters[1..];
        writer := true;
        holding, grants := map[first.who := Write], grants + [first.who];
        assert first.who in holding;
        NobodyReads(holding);
      }
    }

    method GrantReadersLocked()
      requires Counted() && Exclusive(View()) && !writer
      modifies this
      ensures Counted() && View() == GrantReaders(old(View()))
    {
      ghost var start := View();
      while waiters != [] && waiters[0].access == Read && !writer
        invariant Counted() && Exclusive(View()) && !writer
        invariant GrantReaders(View()) == GrantReaders(start)
        decreases |waiters|
      {
        var waiter := waiters[0];
        PopKeeps(View(), 0);
        PopCounts(View());
        waiters := waiters[1..];
        if waiter.live {
          readers := readers + 1;
          holding, grants := holding[waiter.who := Read], grants + [waiter.who];
        }
      }
    }

    method Enqueue(who: nat, access: Access)
      requires Valid() && RoleOf(View(), who) == Absent
      modifies this
      ensures Valid() && View() == Enqueued(old(View()), who, access)
    {
      ghost var s := View();
      EnqueueKeeps(s, who, access, who);
      waiters := waiters + [Waiter(who, access, true)];
      forall q | q in holding ensures Find(waiters, q) == Absent {
        FindSnoc(s.queue, Waiter(who, access, true), q);
      }
      DistinctSnoc(s.queue, Waiter(who, access, true));
      GrantLocked();
    }

    method Release(ghost who: nat, access: Access)
      requires Valid() && who in holding && holding[who] == access
      modifies this
      ensures Valid() && View() == Released(old(View()), who)
    {
      Forget(who, access);
      GrantLocked();
    }

    /** The exception handler of a request. `granted` is what the handler reads off its
        own future, which a grant may have decided after the exception was raised. */
    method Withdraw(who: nat, access: Access, granted: bool)
      requires Valid() && granted == (who in holding) && (granted ==> holding[who] == access)
      modifies this
      ensures Valid() && View() == Withdrawn(old(View()), who)
    {
      ghost var s := View();
      if granted {
        Forget(who, access);
      }
      waiters := Without(waiters, who);
      assert holding == s.holding - {who};
      forall q | q in holding ensures Find(waiters, q) == Absent {
        FindWithout(s.queue, who, q);
      }
      DistinctWithout(s.queue, who);
      GrantLocked();
    }

    /** The counter update that both ways of giving a grant back share. */
    method Forget(ghost who: nat, access: Access)
      requires Valid() && who in holding && holding[who] == access
      modifies this
      ensures Counted() && Exclusive(View())
      ensures View() == old(View()).(holding := old(holding) - {who})
    {
      ghost var was := holding;
      holding := holding - {who};
      if access == Read {
        readers := readers - 1;
        assert ReadersOf(holding) == ReadersOf(was) - {who};
      } else {
        writer := false;
        assert ReadersOf(holding) == ReadersOf(was);
        assert forall q :: q in was ==> q == who;
      }
    }

    /** What the registry tests before it drops an entry. */
    method Idle() returns (idle: bool)
      requires Valid()
      ensures idle <==> holding == map[] && waiters == []
    {
      idle := !writer && readers == 0 && waiters == [];
      if readers == 0 && !writer {
        assert forall q :: q in holding ==> q in ReadersOf(holding);
      }
    }
  }
}
