/**
 When calls of the tool scheduler share, and when one has to wait for another: a call waits
 only for a call it conflicts with, or for a slot when all of them are taken.
 */
module Sharing {
  import opened Basics
  import RW = FairRWLock
  import Sem = FairSemaphore
  import opened Scheduler

  // ---------- A call holds only what it asked for ----------

  /** A call asks for this lock. */
  predicate Wanted(s: State, call: Call, lid: LockId) {
    match lid
    case Entry(e) => e in s.objs && s.objs[e].key in call.keys
    case Tenant(name) => call.tenant == Some(name)
    case _ => true
  }

  lemma FitsWanted(s: State, call: Call, i: nat, lid: LockId)
    requires i < |Path(call)| && Fits(s, Path(call)[i], lid)
    ensures Wanted(s, call, lid)
  {
    if lid.Tenant? {
      TenantOnPath(call, i);
    }
    assert forall k :: 1 <= k <= |call.keys| ==> Path(call)[k] == KeyNeeds(call.keys)[k - 1];
  }

  ghost predicate HoldsWanted(s: State, p: nat)
    requires p in s.procs
  {
    forall lid :: lid in s.procs[p].held ==> Wanted(s, s.procs[p].call, lid)
  }

  lemma AcquiringHoldsWanted(s: State, p: nat)
    requires p in s.procs && ProcInv(s, p) && Acquiring(s.procs[p].status)
    ensures HoldsWanted(s, p)
  {
    var proc := s.procs[p];
    forall lid | lid in proc.held ensures Wanted(s, proc.call, lid) {
      var i :| 0 <= i < |proc.held| && proc.held[i] == lid;
      FitsWanted(s, proc.call, i, lid);
    }
  }

  /** A call that has stopped acquiring only loses locks. */
  lemma StepShrinks(s: State, l: Label, p: nat)
    requires Enabled(s, l) && p in After(s, l).procs && !Acquiring(After(s, l).procs[p].status)
    ensures p in s.procs && s.procs[p].call == After(s, l).procs[p].call
    ensures forall lid :: lid in After(s, l).procs[p].held ==> lid in s.procs[p].held
  {
    match l
    case Request(q) => OnLockSameObjs(s, Ask, q, s.procs[q].call, Target(s.procs[q]).value);
    case Cleanup(q) => OnLockSameObjs(s, Quit, q, s.procs[q].call, s.procs[q].status.lid);
    case GiveBack(q) =>
      var i := NextRelease(s.procs[q].held);
      OnLockSameObjs(s, Give, q, s.procs[q].call, s.procs[q].held[i]);
      LessHeld(s.procs[q].held, i);
    case _ =>
  }

  lemma LessHeld(held: seq<LockId>, i: nat)
    requires i < |held|
    ensures forall lid :: lid in Minus(held, i) ==> lid in held
  {}

  lemma StepKeepsKeys(s: State, l: Label, e: nat)
    requires RegistryInv(s) && Enabled(s, l) && e in s.objs
    ensures e in After(s, l).objs && After(s, l).objs[e].key == s.objs[e].key
  {
    match l
    case Request(p) => OnLockSameObjs(s, Ask, p, s.procs[p].call, Target(s.procs[p]).value);
    case Cleanup(p) => OnLockSameObjs(s, Quit, p, s.procs[p].call, s.procs[p].status.lid);
    case GiveBack(p) => OnLockSameObjs(s, Give, p, s.procs[p].call, s.procs[p].held[NextRelease(s.procs[p].held)]);
    case _ =>
  }

  lemma {:induction false} AllHoldWanted(limits: Limits, labels: seq<Label>)
    requires ValidLimits(limits)
    ensures var s := Run(limits, labels); forall p :: p in s.procs ==> HoldsWanted(s, p)
  {
    if labels != [] {
      var before, l := labels[..|labels| - 1], labels[|labels| - 1];
      AllHoldWanted(limits, before);
      RunsAreSafe(limits, before);
      RunsAreSafe(limits, labels);
      if Enabled(Run(limits, before), l) {
        StepHoldsWanted(Run(limits, before), l);
      }
    }
  }

  lemma StepHoldsWanted(s: State, l: Label)
    requires Inv(s) && Enabled(s, l) && Inv(After(s, l)) && forall p :: p in s.procs ==> HoldsWanted(s, p)
    ensures forall p :: p in After(s, l).procs ==> HoldsWanted(After(s, l), p)
  {
    var t := After(s, l);
    forall p | p in t.procs ensures HoldsWanted(t, p) {
      assert ProcInv(t, p);
      if Acquiring(t.procs[p].status) {
        AcquiringHoldsWanted(t, p);
      } else {
        StepShrinks(s, l, p);
        forall lid | lid in t.procs[p].held ensures Wanted(t, t.procs[p].call, lid) {
          assert HoldsWanted(s, p) && Wanted(s, s.procs[p].call, lid);
          if lid.Entry? { StepKeepsKeys(s, l, lid.eid); }
        }
      }
    }
  }

  // ---------- What a blocked call waits for ----------

  /** The call holds the lock, or is about to take or leave it. */
  ghost predicate There(s: State, q: nat, lid: LockId) {
    q in s.procs && (lid in s.procs[q].held || s.procs[q].status in {Waiting(lid), Leaving(lid)})
  }

  /** Two calls that may not have a lock together: one of them is exclusive, or they name
      the same key and one of them writes. */
  predicate Clash(s: State, a: Call, b: Call, lid: LockId) {
    match lid
    case Barrier => a.exclusive || b.exclusive
    case Entry(e) =>
      && e in s.objs && s.objs[e].key in a.keys && s.objs[e].key in b.keys
      && (a.access == RW.Write || b.access == RW.Write)
    case _ => false
  }

  lemma RoleKnown(s: State, q: nat, lid: LockId)
    requires Inv(s) && Exists(s, lid) && RoleAt(s, q, lid) !in {Out, Stale}
    ensures There(s, q, lid) && s.procs[q].status != Finished
    ensures RoleAt(s, q, lid).write == WriteMode(s.procs[q].call, lid)
  {
    if q in s.procs {
      assert ProcInv(s, q);
    }
  }

  lemma ThereWanted(s: State, q: nat, lid: LockId)
    requires There(s, q, lid) && ProcInv(s, q) && HoldsWanted(s, q)
    ensures Wanted(s, s.procs[q].call, lid)
  {
    var proc := s.procs[q];
    if lid !in proc.held {
      FitsWanted(s, proc.call, |proc.held|, lid);
    }
  }

  /** Whoever waits at a reader/writer lock waits for another one there, and one of the two
      is a writer. */
  lemma RWWaitsFor(lock: RW.State, p: nat) returns (q: nat)
    requires RW.Inv(lock) && RW.AllLive(lock) && RWRole(RW.RoleOf(lock, p)).Asking?
    ensures q != p && RWRole(RW.RoleOf(lock, q)) !in {Out, Stale}
    ensures RWRole(RW.RoleOf(lock, p)).write || RWRole(RW.RoleOf(lock, q)).write
  {
    var head := lock.queue[0];
    assert head in lock.queue && RW.Find(lock.queue, head.who) == RW.Queued(head.access, true);
    if head.who != p && (head.access == RW.Write || RWRole(RW.RoleOf(lock, p)).write) {
      q := head.who;
    } else if RW.Written(lock) {
      q :| q in lock.holding && lock.holding[q] == RW.Write;
    } else {
      q :| q in lock.holding;
    }
  }

  /** A call waits at the barrier only for another call there of which one is exclusive, and
      at a resource only for another call there that shares its key, one of them to write. */
  lemma WaitsForConflict(limits: Limits, labels: seq<Label>, p: nat) returns (q: nat)
    requires ValidLimits(limits)
    requires var s := Run(limits, labels); p in s.procs && Blocked(s, p)
    requires Run(limits, labels).procs[p].status.lid.Barrier? || Run(limits, labels).procs[p].status.lid.Entry?
    ensures var s := Run(limits, labels);
            var lid := s.procs[p].status.lid;
            && q != p && There(s, q, lid) && s.procs[q].status != Finished
            && Clash(s, s.procs[p].call, s.procs[q].call, lid)
  {
    var s := Run(limits, labels);
    var lid := s.procs[p].status.lid;
    RunsAreSafe(limits, labels);
    AllHoldWanted(limits, labels);
    q := LockWaitsFor(s, p, lid);
    RoleKnown(s, p, lid);
    RoleKnown(s, q, lid);
    ThereWanted(s, p, lid);
    ThereWanted(s, q, lid);
  }

  lemma LockWaitsFor(s: State, p: nat, lid: LockId) returns (q: nat)
    requires LocksInv(s) && Exists(s, lid) && (lid.Barrier? || lid.Entry?) && RoleAt(s, p, lid).Asking?
    ensures q != p && RoleAt(s, q, lid) !in {Out, Stale} && (RoleAt(s, p, lid).write || RoleAt(s, q, lid).write)
  {
    if lid.Barrier? {
      q := RWWaitsFor(s.barrier, p);
    } else {
      q := RWWaitsFor(s.objs[lid.eid].lock, p);
    }
  }

  function SlotsAt(limits: Limits, lid: LockId): nat
    requires lid.Parallel? || (lid.Tenant? && lid.name in limits.tenants)
  {
    if lid.Parallel? then limits.parallel else limits.tenants[lid.name]
  }

  lemma SemWaitsFor(sem: Sem.State, capacity: nat, p: nat)
    requires Sem.Inv(sem, capacity) && SemRole(Sem.RoleOf(sem, p)).Asking?
    ensures p !in sem.holding && |sem.holding| == capacity
  {}

  /** A call waits for a slot only while others of its kind have all of them. */
  lemma WaitsForSlot(limits: Limits, labels: seq<Label>, p: nat) returns (others: set<nat>)
    requires ValidLimits(limits)
    requires var s := Run(limits, labels); p in s.procs && Blocked(s, p)
    requires Run(limits, labels).procs[p].status.lid.Tenant? || Run(limits, labels).procs[p].status.lid.Parallel?
    ensures var s := Run(limits, labels);
            var lid := s.procs[p].status.lid;
            && (lid.Tenant? ==> lid.name in limits.tenants && s.procs[p].call.tenant == Some(lid.name))
            && p !in others && |others| == SlotsAt(limits, lid)
            && forall q :: q in others ==>
                 && There(s, q, lid) && s.procs[q].status != Finished
                 && (lid.Tenant? ==> s.procs[q].call.tenant == Some(lid.name))
  {
    var s := Run(limits, labels);
    var lid := s.procs[p].status.lid;
    RunsAreSafe(limits, labels);
    AllHoldWanted(limits, labels);
    ThereWanted(s, p, lid);
    others := if lid.Tenant? then s.tenants[lid.name].holding else s.parallel.holding;
    if lid.Tenant? {
      SemWaitsFor(s.tenants[lid.name], limits.tenants[lid.name], p);
    } else {
      SemWaitsFor(s.parallel, limits.parallel, p);
    }
    forall q | q in others
      ensures There(s, q, lid) && s.procs[q].status != Finished && Wanted(s, s.procs[q].call, lid)
    {
      assert RoleAt(s, q, lid) == Has(false);
      RoleKnown(s, q, lid);
      ThereWanted(s, q, lid);
    }
  }

  /** Without exclusive calls nobody ever waits at the barrier. */
  lemma NobodyWaitsAtBarrier(limits: Limits, labels: seq<Label>, p: nat)
    requires ValidLimits(limits) && p in Run(limits, labels).procs
    requires forall q :: q in Run(limits, labels).procs ==> !Run(limits, labels).procs[q].call.exclusive
    ensures var s := Run(limits, labels); s.procs[p].status == Waiting(Barrier) ==> Enabled(s, Resume(p))
  {
    var s := Run(limits, labels);
    RunsAreSafe(limits, labels);
    assert ProcInv(s, p);
    if s.procs[p].status == Waiting(Barrier) && Blocked(s, p) {
      var q := WaitsForConflict(limits, labels, p);
    }
  }

  // ---------- Calls that conflict with nobody ----------

  /** Two calls that could have every lock of their paths together. */
  predicate Harmonious(a: Call, b: Call) {
    && !a.exclusive && !b.exclusive
    && forall key :: key in a.keys && key in b.keys ==> a.access == b.access == RW.Read
  }

  function Unfinished(s: State): set<nat> {
    set q | q in s.procs && s.procs[q].status != Finished
  }

  function UnfinishedFor(s: State, t: string): set<nat> {
    set q | q in Unfinished(s) && s.procs[q].call.tenant == Some(t)
  }

  /** No other unfinished call conflicts with this one, and there is a slot for each. */
  ghost predicate Unhindered(s: State, p: nat)
    requires p in s.procs
  {
    var call := s.procs[p].call;
    && (forall q :: q in Unfinished(s) && q != p ==> Harmonious(call, s.procs[q].call))
    && |Unfinished(s)| <= s.limits.parallel
    && (call.tenant.Some? && call.tenant.value in s.limits.tenants ==>
          |UnfinishedFor(s, call.tenant.value)| <= s.limits.tenants[call.tenant.value])
  }

  lemma MoreThan(others: set<nat>, all: set<nat>, p: nat)
    requires p in all && p !in others && others <= all
    ensures |others| < |all|
  {
    SubsetSize(others + {p}, all);
  }

  lemma ClashHinders(s: State, p: nat, q: nat, lid: LockId)
    requires p in s.procs && q in Unfinished(s) && q != p && Clash(s, s.procs[p].call, s.procs[q].call, lid)
    ensures !Unhindered(s, p)
  {}

  lemma UnhinderedNotBlocked(limits: Limits, labels: seq<Label>, p: nat)
    requires ValidLimits(limits) && p in Run(limits, labels).procs && Unhindered(Run(limits, labels), p)
    ensures !Blocked(Run(limits, labels), p)
  {
    var s := Run(limits, labels);
    RunsAreSafe(limits, labels);
    if Blocked(s, p) {
      var lid := s.procs[p].status.lid;
      if lid.Barrier? || lid.Entry? {
        var q := WaitsForConflict(limits, labels, p);
        ClashHinders(s, p, q, lid);
      } else {
        var others := WaitsForSlot(limits, labels, p);
        if lid.Tenant? {
          MoreThan(others, UnfinishedFor(s, lid.name), p);
        } else {
          MoreThan(others, Unfinished(s), p);
        }
      }
    }
  }

  /** How many of its own steps a call is away from running its tool, at most. */
  function StepsLeft(proc: Proc): int {
    var locks := |Path(proc.call)| - |proc.held|;
    match proc.status
    case Registered(_) => 3 * locks - 1
    case Waiting(_) => 3 * locks - 2
    case _ => 3 * locks
  }

  predicate OnItsWay(proc: Proc) {
    proc.status.Wanting? || proc.status.Registered? || proc.status.Waiting?
  }

  /** Only the record of one call has changed. */
  ghost predicate Advanced(s: State, t: State, p: nat) {
    p in s.procs && p in t.procs && t.procs == s.procs[p := t.procs[p]] && t.procs[p].call == s.procs[p].call
  }

  lemma AdvancedOn(s: State, t: State, u: State, p: nat)
    requires Advanced(s, t, p) && Advanced(t, u, p)
    ensures Advanced(s, u, p)
  {}

  /** A call that nobody hinders takes its next step, and nobody else is touched. */
  lemma StepsFreely(limits: Limits, labels: seq<Label>, p: nat)
    requires ValidLimits(limits) && p in Run(limits, labels).procs && Unhindered(Run(limits, labels), p)
    requires OnItsWay(Run(limits, labels).procs[p]) && !Active(Run(limits, labels).procs[p])
    ensures var s := Run(limits, labels);
            var t := Run(limits, labels + [NextStep(s, p)]);
            && Advanced(s, t, p) && OnItsWay(t.procs[p]) && Unhindered(t, p)
            && 0 <= StepsLeft(t.procs[p]) < StepsLeft(s.procs[p])
  {
    var s := Run(limits, labels);
    RunsAreSafe(limits, labels);
    UnhinderedNotBlocked(limits, labels, p);
    assert ProcInv(s, p);
    UnblockedGoesOn(s, p);
    RunSnoc(limits, labels, NextStep(s, p));
    StepKeepsLimits(s, NextStep(s, p));
    OwnStepNearer(s, p);
    RunsAreSafe(limits, labels + [NextStep(s, p)]);
    OnPathLeft(After(s, NextStep(s, p)), p);
    StillUnhindered(s, After(s, NextStep(s, p)), p);
  }

  lemma OnPathLeft(s: State, p: nat)
    requires p in s.procs && ProcInv(s, p) && OnItsWay(s.procs[p])
    ensures StepsLeft(s.procs[p]) >= 0
  {}

  lemma OwnStepNearer(s: State, p: nat)
    requires p in s.procs && ProcInv(s, p) && OnItsWay(s.procs[p]) && Enabled(s, NextStep(s, p))
    requires !Active(s.procs[p])
    ensures var t := After(s, NextStep(s, p));
            && Advanced(s, t, p) && OnItsWay(t.procs[p])
            && StepsLeft(t.procs[p]) < StepsLeft(s.procs[p])
  {
    var proc := s.procs[p];
    match NextStep(s, p)
    case Request(_) =>
      var lid := Target(proc).value;
      OnLockSameObjs(s, Ask, p, proc.call, lid);
      assert After(s, NextStep(s, p)).procs == s.procs[p := proc.(status := Waiting(lid))];
    case Register(_) =>
      assert After(s, NextStep(s, p)).procs[p] == proc.(status := Registered(EntryFor(s, NeedOf(proc).key)));
    case Resume(_) => assert After(s, NextStep(s, p)).procs[p] == Resumed(proc);
    case _ =>
  }

  lemma StillUnhindered(s: State, t: State, p: nat)
    requires Advanced(s, t, p) && Unhindered(s, p) && s.limits == t.limits
    requires s.procs[p].status != Finished && t.procs[p].status != Finished
    ensures Unhindered(t, p)
  {
    assert Unfinished(t) == Unfinished(s);
    if s.procs[p].call.tenant.Some? {
      var name := s.procs[p].call.tenant.value;
      assert UnfinishedFor(t, name) == UnfinishedFor(s, name);
    }
  }

  /** Steps of one call that nobody has to give up for. */
  ghost predicate OnlyOf(labels: seq<Label>, p: nat) {
    forall l :: l in labels ==> l.p == p && Progress(l)
  }

  lemma OwnLabels(l: Label, more: seq<Label>, p: nat)
    requires l.p == p && Progress(l) && OnlyOf(more, p)
    ensures OnlyOf([l] + more, p)
  {}

  /** A call that conflicts with nobody runs its tool without waiting for anybody: from any
      reachable state its own steps alone get it there. */
  lemma {:induction false} RunsFreely(limits: Limits, labels: seq<Label>, p: nat) returns (rest: seq<Label>)
    requires ValidLimits(limits) && p in Run(limits, labels).procs && Unhindered(Run(limits, labels), p)
    requires OnItsWay(Run(limits, labels).procs[p]) && StepsLeft(Run(limits, labels).procs[p]) >= 0
    ensures var (s, t) := (Run(limits, labels), Run(limits, labels + rest));
            Advanced(s, t, p) && Active(t.procs[p])
    ensures OnlyOf(rest, p)
    decreases StepsLeft(Run(limits, labels).procs[p])
  {
    var s := Run(limits, labels);
    if Active(s.procs[p]) {
      rest := [];
      NoneAdded(labels);
    } else {
      var l := NextStep(s, p);
      StepsFreely(limits, labels, p);
      var more := RunsFreely(limits, labels + [l], p);
      rest := [l] + more;
      Associative(labels, [l], more);
      AdvancedOn(s, Run(limits, labels + [l]), Run(limits, labels + rest), p);
      OwnLabels(l, more, p);
    }
  }

  // ---------- Which calls can be active together ----------

  predicate BothActive(s: State, p: nat, q: nat, a: Call, b: Call) {
    p != q && p in ActiveCalls(s) && q in ActiveCalls(s) && s.procs[p].call == a && s.procs[q].call == b
  }

  /** Some schedule brings both calls to run their tools at the same time. */
  ghost predicate CanShare(limits: Limits, a: Call, b: Call) {
    exists labels, p, q :: BothActive(Run(limits, labels), p, q, a, b)
  }

  /** There is a slot for each of the two. */
  predicate RoomForBoth(limits: Limits, a: Call, b: Call) {
    && limits.parallel >= 2
    && (a.tenant.Some? && a.tenant == b.tenant && a.tenant.value in limits.tenants ==>
          limits.tenants[a.tenant.value] >= 2)
  }

  lemma SharingIsSafe(limits: Limits, labels: seq<Label>, p: nat, q: nat, a: Call, b: Call)
    requires ValidLimits(limits) && BothActive(Run(limits, labels), p, q, a, b)
    ensures Harmonious(a, b) && RoomForBoth(limits, a, b)
  {
    var s := Run(limits, labels);
    ExclusiveAlone(limits, labels, p, q);
    ExclusiveAlone(limits, labels, q, p);
    forall key | key in a.keys && key in b.keys ensures a.access == b.access == RW.Read {
      NoConflict(limits, labels, p, q, key);
    }
    var t := if a.tenant.Some? then a.tenant.value else "";
    WithinLimits(limits, labels, t);
    SubsetSize({p, q}, ActiveCalls(s));
    if a.tenant.Some? && a.tenant == b.tenant && t in limits.tenants {
      SubsetSize({p, q}, ActiveFor(s, t));
    }
  }

  lemma SubmittedOnItsWay(limits: Limits, labels: seq<Label>, p: nat, call: Call)
    requires ValidLimits(limits) && ValidCall(limits, call) && p !in Run(limits, labels).procs
    ensures var (s, t) := (Run(limits, labels), Run(limits, labels + [Submit(p, call)]));
            t.procs == s.procs[p := Proc(call, [], Wanting)] && t.limits == s.limits == limits
  {
    RunsAreSafe(limits, labels);
    RunSnoc(limits, labels, Submit(p, call));
  }

  lemma BothUnhindered(s: State, a: Call, b: Call)
    requires s.procs.Keys == {0, 1} && s.procs[0].call == a && s.procs[1].call == b
    requires Harmonious(a, b) && RoomForBoth(s.limits, a, b) && ValidLimits(s.limits)
    ensures Unhindered(s, 1)
  {
    SubsetSize(Unfinished(s), {0, 1});
    if b.tenant.Some? && b.tenant.value in s.limits.tenants {
      var t := b.tenant.value;
      if a.tenant == b.tenant {
        SubsetSize(UnfinishedFor(s, t), {0, 1});
      } else {
        SubsetSize(UnfinishedFor(s, t), {1});
      }
    }
  }

  lemma AloneUnhindered(s: State)
    requires s.procs.Keys == {0} && ValidLimits(s.limits)
    ensures Unhindered(s, 0)
  {
    SubsetSize(Unfinished(s), {0});
    if s.procs[0].call.tenant.Some? {
      SubsetSize(UnfinishedFor(s, s.procs[0].call.tenant.value), {0});
    }
  }

  lemma FirstActive(limits: Limits, a: Call) returns (labels: seq<Label>)
    requires ValidLimits(limits) && ValidCall(limits, a)
    ensures var s := Run(limits, labels); s.procs.Keys == {0} && s.procs[0].call == a && Active(s.procs[0])
  {
    SubmittedOnItsWay(limits, [], 0, a);
    var first := [] + [Submit(0, a)];
    AloneUnhindered(Run(limits, first));
    var rest := RunsFreely(limits, first, 0);
    labels := first + rest;
  }

  lemma BothBecomeActive(limits: Limits, a: Call, b: Call) returns (labels: seq<Label>)
    requires ValidLimits(limits) && ValidCall(limits, a) && ValidCall(limits, b)
    requires Harmonious(a, b) && RoomForBoth(limits, a, b)
    ensures BothActive(Run(limits, labels), 0, 1, a, b)
  {
    var first := FirstActive(limits, a);
    SubmittedOnItsWay(limits, first, 1, b);
    var second := first + [Submit(1, b)];
    BothUnhindered(Run(limits, second), a, b);
    var rest := RunsFreely(limits, second, 1);
    labels := second + rest;
  }

  /** Two calls can run their tools at the same time if and only if neither is exclusive, a
      key they share is read by both, and the limits leave a slot for each. */
  lemma ShareIff(limits: Limits, a: Call, b: Call)
    requires ValidLimits(limits) && ValidCall(limits, a) && ValidCall(limits, b)
    ensures CanShare(limits, a, b) <==> Harmonious(a, b) && RoomForBoth(limits, a, b)
  {
    if CanShare(limits, a, b) {
      var labels, p, q :| BothActive(Run(limits, labels), p, q, a, b);
      SharingIsSafe(limits, labels, p, q, a, b);
    }
    if Harmonious(a, b) && RoomForBoth(limits, a, b) {
      var labels := BothBecomeActive(limits, a, b);
      assert BothActive(Run(limits, labels), 0, 1, a, b);
    }
  }

  /** Calls on disjoint keys share, whether they read or write. */
  lemma DisjointCallsShare(limits: Limits, a: Call, b: Call)
    requires ValidLimits(limits) && ValidCall(limits, a) && ValidCall(limits, b) && RoomForBoth(limits, a, b)
    requires !a.exclusive && !b.exclusive && forall key :: key in a.keys ==> key !in b.keys
    ensures CanShare(limits, a, b)
  {
    ShareIff(limits, a, b);
  }

  // ---------- The order of acquisition ----------

  lemma OnePosition(call: Call, i: nat)
    requires i < |Path(call)|
    ensures match Path(call)[i]
            case NeedBarrier => i == 0
            case NeedKey(_) => 1 <= i <= |call.keys|
            case NeedTenant(_) => i == 1 + |call.keys|
            case NeedParallel => i == |Path(call)| - 1
  {
    assert forall k :: 1 <= k <= |call.keys| ==> Path(call)[k] == KeyNeeds(call.keys)[k - 1];
  }

  /** What a call that waits for `lid` has by then, and has not. */
  ghost predicate InOrder(s: State, proc: Proc, lid: LockId) {
    var (call, held) := (proc.call, proc.held);
    match lid
    case Barrier => held == []
    case Entry(e) =>
      && e in s.objs && 1 <= |held| <= |call.keys| && s.objs[e].key == call.keys[|held| - 1]
      && forall i :: 1 <= i < |held| ==>
           held[i].Entry? && held[i].eid in s.objs && s.objs[held[i].eid].key == call.keys[i - 1]
    case Tenant(name) => call.tenant == Some(name) && |held| == 1 + |call.keys| && Parallel !in held
    case Parallel => |held| == |Path(call)| - 1 && Parallel !in held
  }

  lemma WaitingInOrder(s: State, proc: Proc, lid: LockId)
    requires proc.status == Waiting(lid) && OnPath(s, proc)
    ensures InOrder(s, proc, lid)
  {
    var (call, n) := (proc.call, |proc.held|);
    assert forall k :: 1 <= k <= |call.keys| ==> Path(call)[k] == KeyNeeds(call.keys)[k - 1];
    OnePosition(call, n);
    if lid.Tenant? {
      TenantOnPath(call, n);
    }
    forall i | 0 <= i < n ensures Fits(s, Path(call)[i], proc.held[i]) && proc.held[i] != Parallel {
      OnePosition(call, i);
    }
  }

  /** A call takes the barrier, its keys in their order, the slot of its tenant and a
      parallel slot: while it waits it has what comes before, and no slot that comes later. */
  lemma AcquiresInOrder(limits: Limits, labels: seq<Label>, p: nat, lid: LockId)
    requires ValidLimits(limits)
    requires var s := Run(limits, labels); p in s.procs && s.procs[p].status == Waiting(lid)
    ensures InOrder(Run(limits, labels), Run(limits, labels).procs[p], lid)
  {
    RunsAreSafe(limits, labels);
    assert ProcInv(Run(limits, labels), p);
    WaitingInOrder(Run(limits, labels), Run(limits, labels).procs[p], lid);
  }

  // ---------- Slots go by priority ----------

  /** Every queued request carries the priority of its call. */
  ghost predicate Carries(sem: Sem.State, procs: map<nat, Proc>) {
    forall w :: w in sem.heap ==> w.who in procs && w.priority == procs[w.who].call.priority
  }

  ghost predicate SlotsCarry(s: State) {
    Carries(s.parallel, s.procs) && forall t :: t in s.tenants ==> Carries(s.tenants[t], s.procs)
  }

  /** The semaphore before the grant pass of an operation. */
  function OpenedBy(sem: Sem.State, op: LockOp, p: nat, priority: int): Sem.State {
    match op
    case Ask => Sem.Pushed(sem, p, priority)
    case Give => Sem.GivenBack(sem, p)
    case Quit => Sem.Abandoned(sem, p)
  }

  lemma {:induction false} GrantShrinks(sem: Sem.State)
    ensures forall w :: w in Sem.Grant(sem).heap ==> w in sem.heap
    decreases |sem.heap|
  {
    if sem.free > 0 && sem.heap != [] {
      GrantShrinks(Sem.Pop(sem));
    }
  }

  lemma OperationCarries(sem: Sem.State, op: LockOp, p: nat, priority: int, procs: map<nat, Proc>)
    requires Carries(sem, procs) && p in procs && priority == procs[p].call.priority
    ensures Carries(OpenedBy(sem, op, p, priority), procs) && Carries(OnSem(sem, op, p, priority), procs)
  {
    var mid := OpenedBy(sem, op, p, priority);
    forall w | w in mid.heap ensures w.who in procs && w.priority == procs[w.who].call.priority {
      if op == Quit && p !in sem.holding {
        var i :| 0 <= i < |mid.heap| && mid.heap[i] == w;
        assert sem.heap[i] in sem.heap;
      }
    }
    GrantShrinks(mid);
  }

  lemma SameCallsCarry(s: State, t: State)
    requires SlotsCarry(s) && t.parallel == s.parallel && t.tenants == s.tenants
    requires forall q :: q in s.procs ==> q in t.procs && t.procs[q].call == s.procs[q].call
    ensures SlotsCarry(t)
  {}

  lemma LockStepCarries(s: State, op: LockOp, p: nat, lid: LockId, proc: Proc)
    requires SlotsCarry(s) && p in s.procs && Exists(s, lid) && proc.call == s.procs[p].call
    ensures SlotsCarry(WithProc(OnLock(s, op, p, s.procs[p].call, lid), p, proc))
  {
    var priority := s.procs[p].call.priority;
    if lid.Tenant? {
      OperationCarries(s.tenants[lid.name], op, p, priority, s.procs);
    } else if lid.Parallel? {
      OperationCarries(s.parallel, op, p, priority, s.procs);
    }
    SameCallsCarry(OnLock(s, op, p, s.procs[p].call, lid), WithProc(OnLock(s, op, p, s.procs[p].call, lid), p, proc));
  }

  lemma StepCarries(s: State, l: Label)
    requires SlotsCarry(s) && Enabled(s, l)
    ensures SlotsCarry(After(s, l))
  {
    match l
    case Request(p) =>
      var lid := Target(s.procs[p]).value;
      LockStepCarries(s, Ask, p, lid, s.procs[p].(status := Waiting(lid)));
    case Cleanup(p) =>
      var lid := s.procs[p].status.lid;
      LockStepCarries(s, Quit, p, lid, s.procs[p].(status := Next(lid)));
    case GiveBack(p) =>
      var i := NextRelease(s.procs[p].held);
      LockStepCarries(s, Give, p, s.procs[p].held[i], Given(s.procs[p], i));
    case _ => SameCallsCarry(s, After(s, l));
  }

  lemma {:induction false} AllSlotsCarry(limits: Limits, labels: seq<Label>)
    ensures SlotsCarry(Run(limits, labels))
  {
    if labels != [] {
      var before, l := labels[..|labels| - 1], labels[|labels| - 1];
      AllSlotsCarry(limits, before);
      if Enabled(Run(limits, before), l) {
        StepCarries(Run(limits, before), l);
      }
    }
  }

  lemma {:induction false} QueuedWaiter(heap: seq<Sem.Waiter>, q: nat) returns (w: Sem.Waiter)
    requires Sem.Find(heap, q) == Sem.Queued(true)
    ensures w in heap && w.who == q && w.live
    decreases |heap|
  {
    if heap[0].who == q {
      w := heap[0];
    } else {
      w := QueuedWaiter(heap[1..], q);
    }
  }

  lemma OpeningConserved(sem: Sem.State, capacity: nat, op: LockOp, p: nat, priority: int)
    requires Sem.Inv(sem, capacity) && OpAllowed(op, SemRole(Sem.RoleOf(sem, p)))
    ensures Sem.Conserved(OpenedBy(sem, op, p, priority), capacity)
    ensures OpenedBy(sem, op, p, priority).holding <= sem.holding
    ensures OnSem(sem, op, p, priority) == Sem.Grant(OpenedBy(sem, op, p, priority))
  {
    match op
    case Ask => Sem.EnqueueKeeps(sem, capacity, p, priority, p);
    case Give => Sem.ReleaseKeeps(sem, capacity, p, p);
    case Quit => Sem.WithdrawKeeps(sem, capacity, p, p);
  }

  /** Who gets a slot asked for it with at least the priority of everybody left waiting. */
  lemma SlotToTheBest(sem: Sem.State, capacity: nat, op: LockOp, p: nat, priority: int, procs: map<nat, Proc>, a: nat,
                      b: nat)
    requires Sem.Inv(sem, capacity) && OpAllowed(op, SemRole(Sem.RoleOf(sem, p))) && Carries(sem, procs)
    requires p in procs && priority == procs[p].call.priority
    requires a !in sem.holding && a in OnSem(sem, op, p, priority).holding
    requires Sem.RoleOf(OnSem(sem, op, p, priority), b) == Sem.Queued(true)
    ensures a in procs && b in procs && procs[a].call.priority >= procs[b].call.priority
  {
    var mid := OpenedBy(sem, op, p, priority);
    OpeningConserved(sem, capacity, op, p, priority);
    OperationCarries(sem, op, p, priority, procs);
    Sem.GrantKeeps(mid, capacity, a);
    var first := QueuedWaiter(mid.heap, a);
    var later := QueuedWaiter(Sem.Grant(mid).heap, b);
    Sem.BestFirst(mid, capacity, first, later);
  }

  lemma LockStepToTheBest(s: State, op: LockOp, p: nat, lid: LockId, proc: Proc, slot: LockId, a: nat, b: nat)
    requires LocksInv(s) && SlotsCarry(s) && p in s.procs && Exists(s, lid) && OpAllowed(op, RoleAt(s, p, lid))
    requires (slot.Tenant? || slot.Parallel?) && Exists(s, slot) && !RoleAt(s, a, slot).Has?
    requires var t := WithProc(OnLock(s, op, p, s.procs[p].call, lid), p, proc);
             RoleAt(t, a, slot).Has? && RoleAt(t, b, slot).Asking?
    ensures a in s.procs && b in s.procs && s.procs[a].call.priority >= s.procs[b].call.priority
  {
    var call := s.procs[p].call;
    OnLockMoves(s, op, p, call, lid, a, slot);
    if lid.Tenant? {
      SlotToTheBest(s.tenants[lid.name], s.limits.tenants[lid.name], op, p, call.priority, s.procs, a, b);
    } else if lid.Parallel? {
      SlotToTheBest(s.parallel, s.limits.parallel, op, p, call.priority, s.procs, a, b);
    }
  }

  lemma GiveBackToTheBest(s: State, p: nat, slot: LockId, a: nat, b: nat)
    requires LocksInv(s) && SlotsCarry(s) && Enabled(s, GiveBack(p)) && ProcInv(s, p)
    requires (slot.Tenant? || slot.Parallel?) && Exists(s, slot) && !RoleAt(s, a, slot).Has?
    requires var t := After(s, GiveBack(p));
             Exists(t, slot) && RoleAt(t, a, slot).Has? && RoleAt(t, b, slot).Asking?
    ensures a in s.procs && b in s.procs && s.procs[a].call.priority >= s.procs[b].call.priority
  {
    var i := NextRelease(s.procs[p].held);
    assert s.procs[p].held[i] in s.procs[p].held;
    LockStepToTheBest(s, Give, p, s.procs[p].held[i], Given(s.procs[p], i), slot, a, b);
  }

  lemma StepToTheBest(s: State, l: Label, slot: LockId, a: nat, b: nat)
    requires LocksInv(s) && SlotsCarry(s) && Enabled(s, l) && (l.p in s.procs ==> ProcInv(s, l.p))
    requires (slot.Tenant? || slot.Parallel?) && Exists(s, slot) && !RoleAt(s, a, slot).Has?
    requires var t := After(s, l); Exists(t, slot) && RoleAt(t, a, slot).Has? && RoleAt(t, b, slot).Asking?
    ensures a in s.procs && b in s.procs && s.procs[a].call.priority >= s.procs[b].call.priority
  {
    match l
    case Request(p) =>
      var lid := Target(s.procs[p]).value;
      RequestAllowed(s, p);
      LockStepToTheBest(s, Ask, p, lid, s.procs[p].(status := Waiting(lid)), slot, a, b);
    case Cleanup(p) =>
      var lid := s.procs[p].status.lid;
      LockStepToTheBest(s, Quit, p, lid, s.procs[p].(status := Next(lid)), slot, a, b);
    case GiveBack(p) => GiveBackToTheBest(s, p, slot, a, b);
    case _ =>
  }

  /** In every schedule, when a step gives a slot to a call while another one goes on
      waiting for one of the same kind, the first has at least the priority of the second. */
  lemma SlotsByPriority(limits: Limits, labels: seq<Label>, l: Label, slot: LockId, a: nat, b: nat)
    requires ValidLimits(limits) && Enabled(Run(limits, labels), l) && (slot.Tenant? || slot.Parallel?)
    requires var (s, t) := (Run(limits, labels), After(Run(limits, labels), l));
             && Exists(s, slot) && Exists(t, slot)
             && !RoleAt(s, a, slot).Has? && RoleAt(t, a, slot).Has? && RoleAt(t, b, slot).Asking?
    ensures var s := Run(limits, labels);
            a in s.procs && b in s.procs && s.procs[a].call.priority >= s.procs[b].call.priority
  {
    var s := Run(limits, labels);
    RunsAreSafe(limits, labels);
    AllSlotsCarry(limits, labels);
    StepToTheBest(s, l, slot, a, b);
  }
}
