/**
 The tool scheduler: an execution barrier, reference-counted resource locks, tenant
 semaphores and the parallel semaphore, taken in that order by any number of calls.

 Every step below is one region the program runs without suspending. A call that
 times out or is cancelled while it waits first only leaves its wait (`Fail`); its
 cleanup handler runs later, and a grant may come between the two.
 A resource key is named by its position in the sort order of all keys.
 */
module Scheduler {
  import opened Basics
  import RW = FairRWLock
  import Sem = FairSemaphore

  datatype LockId = Barrier | Entry(eid: nat) | Tenant(name: string) | Parallel

  datatype Call = Call(exclusive: bool, keys: seq<nat>, access: RW.Access, tenant: Option<string>, priority: int)

  datatype Status =
    | Wanting
    | Registered(eid: nat)
    | Waiting(lid: LockId)
    | Leaving(lid: LockId)
    | Releasing
    | Dropping(eid: nat)
    | Finished

  datatype Proc = Proc(call: Call, held: seq<LockId>, status: Status)

  /** A registry entry object. `leaked` counts references whose owner gave up without
      dropping them. */
  datatype Obj = Obj(key: nat, lock: RW.State, refs: int, leaked: nat)

  datatype Limits = Limits(parallel: nat, tenants: map<string, nat>)

  datatype State = State(
    limits: Limits,
    barrier: RW.State,
    objs: map<nat, Obj>,
    nextEid: nat,
    registry: map<nat, nat>,
    tenants: map<string, Sem.State>,
    parallel: Sem.State,
    procs: map<nat, Proc>)

  ghost predicate ValidLimits(limits: Limits) {
    limits.parallel > 0 && forall t :: t in limits.tenants ==> limits.tenants[t] > 0
  }

  function Initial(limits: Limits): State {
    State(limits, RW.Unlocked, map[], 0, map[],
          map t | t in limits.tenants :: Sem.Open(limits.tenants[t]), Sem.Open(limits.parallel), map[])
  }

  // ---------- The order of acquisition ----------

  datatype Need = NeedBarrier | NeedKey(key: nat) | NeedTenant(name: string) | NeedParallel

  function KeyNeeds(keys: seq<nat>): (r: seq<Need>)
    ensures |r| == |keys| && forall i :: 0 <= i < |keys| ==> r[i] == NeedKey(keys[i])
  {
    seq(|keys|, i requires 0 <= i < |keys| => NeedKey(keys[i]))
  }

  function Path(call: Call): seq<Need> {
    [NeedBarrier] + KeyNeeds(call.keys)
    + (if call.tenant.Some? then [NeedTenant(call.tenant.value)] else [])
    + [NeedParallel]
  }

  ghost predicate ValidCall(limits: Limits, call: Call) {
    && (forall i, j :: 0 <= i < j < |call.keys| ==> call.keys[i] < call.keys[j])
    && (call.tenant.Some? ==> call.tenant.value in limits.tenants)
  }

  predicate Acquiring(status: Status) {
    status.Wanting? || status.Registered? || status.Waiting? || status.Leaving?
  }

  /** The call holds everything it asked for: its tool may run. */
  predicate Active(proc: Proc) {
    proc.status == Wanting && |proc.held| == |Path(proc.call)|
  }

  function NeedOf(proc: Proc): Need
    requires |proc.held| < |Path(proc.call)|
  {
    Path(proc.call)[|proc.held|]
  }

  /** What a lease gives back next: resource locks in reverse, then the tenant slot,
      the parallel slot, and the barrier last. */
  function NextRelease(held: seq<LockId>): (i: nat)
    requires held != []
    ensures i < |held|
  {
    var entries := Last(held, |held|, (lid: LockId) => lid.Entry?);
    var tenants := Last(held, |held|, (lid: LockId) => lid.Tenant?);
    var slots := Last(held, |held|, (lid: LockId) => lid == Parallel);
    if entries < |held| then entries
    else if tenants < |held| then tenants
    else if slots < |held| then slots
    else |held| - 1
  }

  /** The last position below `n` whose lock satisfies `p`, or `|held|`. */
  function Last(held: seq<LockId>, n: nat, p: LockId -> bool): (i: nat)
    requires n <= |held|
    ensures i < n || i == |held|
    ensures i < |held| ==> p(held[i]) && forall j :: i < j < n ==> !p(held[j])
    ensures i == |held| ==> forall j :: 0 <= j < n ==> !p(held[j])
  {
    if n == 0 then |held| else if p(held[n - 1]) then n - 1 else Last(held, n - 1, p)
  }

  function Minus(held: seq<LockId>, i: nat): seq<LockId>
    requires i < |held|
  {
    held[..i] + held[i + 1..]
  }

  // ---------- Locks by identity ----------

  predicate Exists(s: State, lid: LockId) {
    match lid
    case Entry(eid) => eid in s.objs
    case Tenant(name) => name in s.tenants
    case _ => true
  }

  /** `Stale`: a withdrawn request that has not been popped off its queue yet. */
  datatype Role = Out | Stale | Asking(write: bool) | Has(write: bool)

  function RWRole(r: RW.Role): Role {
    match r
    case Absent => Out
    case Queued(access, live) => if live then Asking(access == RW.Write) else Stale
    case Holds(access) => Has(access == RW.Write)
  }

  function SemRole(r: Sem.Role): Role {
    match r
    case Absent => Out
    case Queued(live) => if live then Asking(false) else Stale
    case Holds => Has(false)
  }

  function RoleAt(s: State, p: nat, lid: LockId): Role
    requires Exists(s, lid)
  {
    match lid
    case Barrier => RWRole(RW.RoleOf(s.barrier, p))
    case Entry(eid) => RWRole(RW.RoleOf(s.objs[eid].lock, p))
    case Tenant(name) => SemRole(Sem.RoleOf(s.tenants[name], p))
    case Parallel => SemRole(Sem.RoleOf(s.parallel, p))
  }

  function WriteMode(call: Call, lid: LockId): bool {
    match lid
    case Barrier => call.exclusive
    case Entry(_) => call.access == RW.Write
    case _ => false
  }

  datatype LockOp = Ask | Give | Quit

  function OnRW(lock: RW.State, op: LockOp, p: nat, write: bool): RW.State {
    match op
    case Ask => RW.Enqueued(lock, p, if write then RW.Write else RW.Read)
    case Give => RW.Released(lock, p)
    case Quit => RW.Withdrawn(lock, p)
  }

  function OnSem(sem: Sem.State, op: LockOp, p: nat, priority: int): Sem.State {
    match op
    case Ask => Sem.Enqueued(sem, p, priority)
    case Give => Sem.Released(sem, p)
    case Quit => Sem.Withdrawn(sem, p)
  }

  function OnLock(s: State, op: LockOp, p: nat, call: Call, lid: LockId): State
    requires Exists(s, lid)
  {
    var write := WriteMode(call, lid);
    match lid
    case Barrier => s.(barrier := OnRW(s.barrier, op, p, write))
    case Entry(eid) => s.(objs := s.objs[eid := s.objs[eid].(lock := OnRW(s.objs[eid].lock, op, p, write))])
    case Tenant(name) => s.(tenants := s.tenants[name := OnSem(s.tenants[name], op, p, call.priority)])
    case Parallel => s.(parallel := OnSem(s.parallel, op, p, call.priority))
  }

  // ---------- Steps ----------

  datatype Label =
    | Submit(p: nat, call: Call)
    | Register(p: nat)
    | Request(p: nat)
    | Resume(p: nat)
    | Fail(p: nat)
    | Cleanup(p: nat)
    | Stop(p: nat)
    | Expire(p: nat)
    | GiveBack(p: nat)
    | Drop(p: nat)
    | Finish(p: nat)

  /** The lock a call asks for next, when it may ask now. */
  function Target(proc: Proc): Option<LockId> {
    if proc.status.Registered? then Some(Entry(proc.status.eid))
    else if proc.status == Wanting && |proc.held| < |Path(proc.call)| then
      match NeedOf(proc)
      case NeedBarrier => Some(Barrier)
      case NeedKey(_) => None
      case NeedTenant(name) => Some(Tenant(name))
      case NeedParallel => Some(Parallel)
    else None
  }

  ghost predicate Enabled(s: State, l: Label) {
    if l.Submit?
    then l.p !in s.procs && ValidCall(s.limits, l.call)
    else l.p in s.procs && Ready(s, s.procs[l.p], l)
  }

  ghost predicate Ready(s: State, proc: Proc, l: Label) {
    match l
    case Register(_) => proc.status == Wanting && |proc.held| < |Path(proc.call)| && NeedOf(proc).NeedKey?
    case Request(_) => Target(proc).Some? && Exists(s, Target(proc).value)
    case Resume(p) => proc.status.Waiting? && Exists(s, proc.status.lid) && RoleAt(s, p, proc.status.lid).Has?
    case Fail(_) => proc.status.Waiting?
    case Cleanup(_) => proc.status.Leaving? && Exists(s, proc.status.lid)
    case Stop(_) => proc.status == Wanting
    case Expire(_) => proc.status.Registered? && proc.status.eid in s.objs
    case GiveBack(_) => proc.status == Releasing && proc.held != [] && Exists(s, proc.held[NextRelease(proc.held)])
    case Drop(_) => proc.status.Dropping? && proc.status.eid in s.objs
    case Finish(_) => proc.status == Releasing && proc.held == []
    case Submit(_, _) => true
  }

  function WithProc(s: State, p: nat, proc: Proc): State {
    s.(procs := s.procs[p := proc])
  }

  /** After a lock is given up, a resource lock still has its reference to drop. */
  function Next(lid: LockId): Status {
    if lid.Entry? then Dropping(lid.eid) else Releasing
  }

  /** The registry lookup: the entry of a key is made on first use. */
  function Registering(s: State, p: nat, key: nat): State
    requires p in s.procs
  {
    var eid := if key in s.registry then s.registry[key] else s.nextEid;
    var obj := if key in s.registry && eid in s.objs then s.objs[eid] else Obj(key, RW.Unlocked, 0, 0);
    WithProc(
      s.(objs := s.objs[eid := obj.(refs := obj.refs + 1)],
         registry := s.registry[key := eid],
         nextEid := if key in s.registry then s.nextEid else s.nextEid + 1),
      p, s.procs[p].(status := Registered(eid)))
  }

  /** Dropping a reference removes the entry of that key when nobody refers to it. */
  function Dropped(s: State, p: nat, eid: nat): State
    requires p in s.procs && eid in s.objs
  {
    var obj := s.objs[eid].(refs := s.objs[eid].refs - 1);
    var idle := obj.lock.holding == map[] && obj.lock.queue == [];
    WithProc(
      s.(objs := s.objs[eid := obj],
         registry := if obj.refs == 0 && idle then s.registry - {obj.key} else s.registry),
      p, s.procs[p].(status := Releasing))
  }

  ghost function After(s: State, l: Label): State
    requires Enabled(s, l)
  {
    if l.Submit? then WithProc(s, l.p, Proc(l.call, [], Wanting)) else Advance(s, s.procs[l.p], l)
  }

  ghost function Advance(s: State, proc: Proc, l: Label): State
    requires l.p in s.procs && s.procs[l.p] == proc && Ready(s, proc, l)
  {
    match l
    case Register(p) => Registering(s, p, NeedOf(proc).key)
    case Request(p) =>
      var lid := Target(proc).value;
      WithProc(OnLock(s, Ask, p, proc.call, lid), p, proc.(status := Waiting(lid)))
    case Resume(p) => WithProc(s, p, proc.(held := proc.held + [proc.status.lid], status := Wanting))
    case Fail(p) => WithProc(s, p, proc.(status := Leaving(proc.status.lid)))
    case Cleanup(p) =>
      var lid := proc.status.lid;
      WithProc(OnLock(s, Quit, p, proc.call, lid), p, proc.(status := Next(lid)))
    case Stop(p) => WithProc(s, p, proc.(status := Releasing))
    case Expire(p) =>
      var obj := s.objs[proc.status.eid];
      WithProc(s.(objs := s.objs[proc.status.eid := obj.(leaked := obj.leaked + 1)]), p, proc.(status := Releasing))
    case GiveBack(p) =>
      var i := NextRelease(proc.held);
      WithProc(OnLock(s, Give, p, proc.call, proc.held[i]), p,
               proc.(held := Minus(proc.held, i), status := Next(proc.held[i])))
    case Drop(p) => Dropped(s, p, proc.status.eid)
    case Finish(p) => WithProc(s, p, proc.(status := Finished))
    case Submit(_, _) => s
  }

  /** The state after any schedule; a step that is not possible is skipped. */
  ghost function Run(limits: Limits, labels: seq<Label>): State {
    if labels == [] then Initial(limits)
    else
      var s := Run(limits, labels[..|labels| - 1]);
      var l := labels[|labels| - 1];
      if Enabled(s, l) then After(s, l) else s
  }

  // ---------- Invariant ----------

  ghost predicate Fits(s: State, need: Need, lid: LockId) {
    match need
    case NeedBarrier => lid == Barrier
    case NeedKey(key) => lid.Entry? && lid.eid in s.objs && s.objs[lid.eid].key == key
    case NeedTenant(name) => lid == Tenant(name)
    case NeedParallel => lid == Parallel
  }

  predicate RefersTo(proc: Proc, eid: nat) {
    || Entry(eid) in proc.held
    || proc.status in {Registered(eid), Waiting(Entry(eid)), Leaving(Entry(eid)), Dropping(eid)}
  }

  /** The registry still maps the entry's key to this very entry. */
  ghost predicate Current(s: State, eid: nat) {
    eid in s.objs && s.objs[eid].key in s.registry && s.registry[s.objs[eid].key] == eid
  }

  ghost predicate OnPath(s: State, proc: Proc)
    requires Acquiring(proc.status)
  {
    && |proc.held| <= |Path(proc.call)|
    && (forall i :: 0 <= i < |proc.held| ==> Fits(s, Path(proc.call)[i], proc.held[i]))
    && (proc.status != Wanting ==>
         && |proc.held| < |Path(proc.call)|
         && Fits(s, NeedOf(proc), if proc.status.Registered? then Entry(proc.status.eid) else proc.status.lid))
  }

  ghost predicate ProcInv(s: State, p: nat)
    requires p in s.procs
  {
    var proc := s.procs[p];
    && ValidCall(s.limits, proc.call)
    && (forall i, j :: 0 <= i < j < |proc.held| ==> proc.held[i] != proc.held[j])
    && (forall lid :: lid in proc.held ==>
         Exists(s, lid) && RoleAt(s, p, lid) == Has(WriteMode(proc.call, lid)))
    && (forall eid :: RefersTo(proc, eid) ==> Current(s, eid))
    && (proc.status.Waiting? || proc.status.Leaving? ==>
         && Exists(s, proc.status.lid) && proc.status.lid !in proc.held
         && RoleAt(s, p, proc.status.lid) in {Asking(WriteMode(proc.call, proc.status.lid)),
                                             Has(WriteMode(proc.call, proc.status.lid))})
    && (forall lid | Exists(s, lid) :: RoleAt(s, p, lid) !in {Out, Stale} ==>
         lid in proc.held || proc.status in {Waiting(lid), Leaving(lid)})
    && (Acquiring(proc.status) ==> forall lid | Exists(s, lid) :: RoleAt(s, p, lid) != Stale)
    && (proc.status.Registered? || proc.status.Dropping? ==> Entry(proc.status.eid) !in proc.held)
    && (Acquiring(proc.status) ==> OnPath(s, proc))
    && (proc.status == Finished ==> proc.held == [])
  }

  ghost predicate LocksInv(s: State) {
    && RW.Inv(s.barrier) && RW.AllLive(s.barrier)
    && (forall e :: e in s.objs ==> RW.Inv(s.objs[e].lock) && RW.AllLive(s.objs[e].lock))
    && s.tenants.Keys == s.limits.tenants.Keys
    && (forall t :: t in s.tenants ==> Sem.Inv(s.tenants[t], s.limits.tenants[t]))
    && Sem.Inv(s.parallel, s.limits.parallel)
  }

  function Referers(s: State, eid: nat): set<nat> {
    set p | p in s.procs && RefersTo(s.procs[p], eid)
  }

  ghost predicate RegistryInv(s: State) {
    && (forall e :: e in s.objs ==> e < s.nextEid && s.objs[e].refs == |Referers(s, e)| + s.objs[e].leaked)
    && (forall k :: k in s.registry ==>
         s.registry[k] in s.objs && s.objs[s.registry[k]].key == k && s.objs[s.registry[k]].refs > 0)
  }

  ghost predicate Strangers(s: State) {
    forall p: nat, lid | p !in s.procs && Exists(s, lid) :: RoleAt(s, p, lid) == Out
  }

  ghost predicate Inv(s: State) {
    && ValidLimits(s.limits) && LocksInv(s) && RegistryInv(s) && Strangers(s)
    && (forall p :: p in s.procs ==> ProcInv(s, p))
  }

  // ---------- One lock step ----------

  /** All a step on a lock does to the clients that did not take it. */
  ghost predicate Moves(before: Role, after: Role) {
    || after == before
    || (before.Asking? && after == Has(before.write))
    || (before == Stale && after == Out)
  }

  ghost predicate OpAllowed(op: LockOp, r: Role) {
    (op == Ask ==> r == Out) && (op == Give ==> r.Has?)
  }

  ghost predicate OpDone(op: LockOp, write: bool, r: Role) {
    match op
    case Ask => r in {Asking(write), Has(write)}
    case Give => r == Out
    case Quit => r in {Out, Stale}
  }

  lemma OnRWRoles(lock: RW.State, op: LockOp, p: nat, write: bool, q: nat)
    requires RW.Inv(lock) && RW.AllLive(lock) && OpAllowed(op, RWRole(RW.RoleOf(lock, p)))
    ensures var next := OnRW(lock, op, p, write);
            && RW.Inv(next) && RW.AllLive(next)
            && OpDone(op, write, RWRole(RW.RoleOf(next, p)))
            && (q != p ==> Moves(RWRole(RW.RoleOf(lock, q)), RWRole(RW.RoleOf(next, q))))
  {
    RW.StepsLive(lock, p, if write then RW.Write else RW.Read);
    match op
    case Ask => RW.EnqueueKeeps(lock, p, if write then RW.Write else RW.Read, q);
    case Give =>
      RW.FoundLive(lock.queue, p);
      RW.ReleaseKeeps(lock, p, q);
    case Quit => RW.WithdrawKeeps(lock, p, q);
  }

  lemma OnSemRoles(sem: Sem.State, capacity: nat, op: LockOp, p: nat, priority: int, q: nat)
    requires Sem.Inv(sem, capacity) && OpAllowed(op, SemRole(Sem.RoleOf(sem, p)))
    ensures var next := OnSem(sem, op, p, priority);
            && Sem.Inv(next, capacity)
            && OpDone(op, false, SemRole(Sem.RoleOf(next, p)))
            && (q != p ==> Moves(SemRole(Sem.RoleOf(sem, q)), SemRole(Sem.RoleOf(next, q))))
  {
    match op
    case Ask => Sem.EnqueueKeeps(sem, capacity, p, priority, q);
    case Give => Sem.ReleaseKeeps(sem, capacity, p, q);
    case Quit => Sem.WithdrawKeeps(sem, capacity, p, q);
  }

  lemma OnSharedLockKeeps(s: State, op: LockOp, p: nat, call: Call, lid: LockId)
    requires LocksInv(s) && Exists(s, lid) && OpAllowed(op, RoleAt(s, p, lid)) && (lid.Barrier? || lid.Entry?)
    ensures var t := OnLock(s, op, p, call, lid); LocksInv(t) && OpDone(op, WriteMode(call, lid), RoleAt(t, p, lid))
  {
    if lid.Barrier? {
      OnRWRoles(s.barrier, op, p, WriteMode(call, lid), p);
    } else {
      OnRWRoles(s.objs[lid.eid].lock, op, p, WriteMode(call, lid), p);
    }
  }

  lemma OnSlotKeeps(s: State, op: LockOp, p: nat, call: Call, lid: LockId)
    requires LocksInv(s) && Exists(s, lid) && OpAllowed(op, RoleAt(s, p, lid)) && (lid.Tenant? || lid.Parallel?)
    ensures var t := OnLock(s, op, p, call, lid); LocksInv(t) && OpDone(op, WriteMode(call, lid), RoleAt(t, p, lid))
  {
    if lid.Tenant? {
      OnSemRoles(s.tenants[lid.name], s.limits.tenants[lid.name], op, p, call.priority, p);
    } else {
      OnSemRoles(s.parallel, s.limits.parallel, op, p, call.priority, p);
    }
  }

  lemma OnLockKeeps(s: State, op: LockOp, p: nat, call: Call, lid: LockId)
    requires LocksInv(s) && Exists(s, lid) && OpAllowed(op, RoleAt(s, p, lid))
    ensures var t := OnLock(s, op, p, call, lid); LocksInv(t) && OpDone(op, WriteMode(call, lid), RoleAt(t, p, lid))
  {
    if lid.Barrier? || lid.Entry? {
      OnSharedLockKeeps(s, op, p, call, lid);
    } else {
      OnSlotKeeps(s, op, p, call, lid);
    }
  }

  lemma OnLockMoves(s: State, op: LockOp, p: nat, call: Call, lid: LockId, q: nat, other: LockId)
    requires LocksInv(s) && Exists(s, lid) && OpAllowed(op, RoleAt(s, p, lid)) && Exists(s, other)
    ensures var t := OnLock(s, op, p, call, lid);
            && Exists(t, other)
            && (other != lid ==> RoleAt(t, q, other) == RoleAt(s, q, other))
            && (q != p ==> Moves(RoleAt(s, q, other), RoleAt(t, q, other)))
  {
    var write := WriteMode(call, lid);
    if other == lid {
      match lid
      case Barrier => OnRWRoles(s.barrier, op, p, write, q);
      case Entry(eid) => OnRWRoles(s.objs[eid].lock, op, p, write, q);
      case Tenant(name) => OnSemRoles(s.tenants[name], s.limits.tenants[name], op, p, call.priority, q);
      case Parallel => OnSemRoles(s.parallel, s.limits.parallel, op, p, call.priority, q);
    }
  }

  // ---------- Frames ----------

  /** A step of somebody else leaves call `q` as it was, up to grants. */
  ghost predicate Undisturbed(s: State, t: State, q: nat) {
    && t.limits == s.limits
    && q in s.procs && q in t.procs && t.procs[q] == s.procs[q]
    && (forall lid | Exists(s, lid) :: Exists(t, lid) && Moves(RoleAt(s, q, lid), RoleAt(t, q, lid)))
    && (forall lid | Exists(t, lid) && !Exists(s, lid) :: RoleAt(t, q, lid) == Out)
    && (forall e :: e in s.objs ==> e in t.objs && t.objs[e].key == s.objs[e].key)
    && (forall e :: RefersTo(s.procs[q], e) ==> Current(t, e))
  }

  lemma OthersKept(s: State, t: State, q: nat)
    requires q in s.procs && ProcInv(s, q) && Undisturbed(s, t, q)
    ensures ProcInv(t, q)
  {
    var proc := s.procs[q];
    forall lid | lid in proc.held ensures Exists(t, lid) && RoleAt(t, q, lid) == Has(WriteMode(proc.call, lid)) {
      assert Exists(s, lid);
    }
    forall lid | Exists(t, lid) && RoleAt(t, q, lid) !in {Out, Stale}
      ensures lid in proc.held || proc.status in {Waiting(lid), Leaving(lid)}
    {
      assert Exists(s, lid);
    }
    if Acquiring(proc.status) {
      forall lid | Exists(t, lid) ensures RoleAt(t, q, lid) != Stale {
        if Exists(s, lid) { assert RoleAt(s, q, lid) != Stale; }
      }
    }
  }

  lemma SameReferers(s: State, t: State, p: nat)
    requires t.procs.Keys == s.procs.Keys && p in s.procs
    requires forall q :: q in s.procs && q != p ==> t.procs[q] == s.procs[q]
    requires forall e :: RefersTo(t.procs[p], e) <==> RefersTo(s.procs[p], e)
    ensures forall e: nat :: Referers(t, e) == Referers(s, e)
  {
    forall e: nat ensures Referers(t, e) == Referers(s, e) {
      forall q | q in s.procs ensures q in Referers(t, e) <==> q in Referers(s, e) {}
    }
  }

  ghost predicate SameObjs(s: State, t: State) {
    && t.limits == s.limits && t.registry == s.registry && t.nextEid == s.nextEid
    && t.objs.Keys == s.objs.Keys
    && (forall e :: e in s.objs ==> t.objs[e].(lock := s.objs[e].lock) == s.objs[e])
  }

  lemma RegistryKept(s: State, t: State, p: nat)
    requires RegistryInv(s) && SameObjs(s, t)
    requires t.procs.Keys == s.procs.Keys && p in s.procs
    requires forall q :: q in s.procs && q != p ==> t.procs[q] == s.procs[q]
    requires forall e :: RefersTo(t.procs[p], e) <==> RefersTo(s.procs[p], e)
    ensures RegistryInv(t)
  {
    SameReferers(s, t, p);
  }

  lemma OtherOfLocalStep(s: State, p: nat, proc: Proc, q: nat)
    requires p in s.procs && q in s.procs && q != p && ProcInv(s, q)
    ensures ProcInv(WithProc(s, p, proc), q)
  {
    OthersKept(s, WithProc(s, p, proc), q);
  }

  /** A step of `p` that changes only its own record, and refers to the same entries. */
  lemma LocalStepKeeps(s: State, p: nat, proc: Proc)
    requires Inv(s) && p in s.procs
    requires forall e :: RefersTo(proc, e) <==> RefersTo(s.procs[p], e)
    requires ProcInv(WithProc(s, p, proc), p)
    ensures Inv(WithProc(s, p, proc))
  {
    var t := WithProc(s, p, proc);
    RegistryKept(s, t, p);
    forall q | q in t.procs ensures ProcInv(t, q) {
      if q != p { OtherOfLocalStep(s, p, proc, q); }
    }
    assert LocksInv(t);
    forall q: nat, lid | q !in t.procs && Exists(t, lid) ensures RoleAt(t, q, lid) == Out {
      assert Exists(s, lid) && RoleAt(s, q, lid) == Out;
    }
  }

  lemma LockStepDisturbsNone(s: State, op: LockOp, p: nat, lid: LockId, proc: Proc, q: nat)
    requires LocksInv(s) && p in s.procs && Exists(s, lid) && OpAllowed(op, RoleAt(s, p, lid))
    requires q in s.procs && q != p && forall e :: RefersTo(s.procs[q], e) ==> Current(s, e)
    ensures Undisturbed(s, WithProc(OnLock(s, op, p, s.procs[p].call, lid), p, proc), q)
  {
    var mid := OnLock(s, op, p, s.procs[p].call, lid);
    var t := WithProc(mid, p, proc);
    OnLockSameObjs(s, op, p, s.procs[p].call, lid);
    forall other ensures Exists(t, other) <==> Exists(s, other) {
      SameLocksExist(s, op, p, s.procs[p].call, lid, other);
    }
    forall other | Exists(s, other) ensures Moves(RoleAt(s, q, other), RoleAt(t, q, other)) {
      OnLockMoves(s, op, p, s.procs[p].call, lid, q, other);
      LocksIgnoreProcs(mid, p, proc, q, other);
    }
  }

  lemma OthersOfLockStep(s: State, op: LockOp, p: nat, lid: LockId, proc: Proc)
    requires Inv(s) && p in s.procs && Exists(s, lid) && OpAllowed(op, RoleAt(s, p, lid))
    ensures var t := WithProc(OnLock(s, op, p, s.procs[p].call, lid), p, proc);
            forall q :: q in s.procs && q != p ==> ProcInv(t, q)
  {
    var t := WithProc(OnLock(s, op, p, s.procs[p].call, lid), p, proc);
    forall q | q in s.procs && q != p ensures ProcInv(t, q) {
      LockStepDisturbsNone(s, op, p, lid, proc, q);
      OthersKept(s, t, q);
    }
  }

  lemma StrangerOfLockStep(s: State, op: LockOp, p: nat, lid: LockId, q: nat, other: LockId)
    requires LocksInv(s) && Strangers(s) && p in s.procs && Exists(s, lid) && OpAllowed(op, RoleAt(s, p, lid))
    requires q !in s.procs && Exists(s, other)
    ensures RoleAt(OnLock(s, op, p, s.procs[p].call, lid), q, other) == Out
  {
    OnLockMoves(s, op, p, s.procs[p].call, lid, q, other);
    assert RoleAt(s, q, other) == Out;
  }

  lemma StrangersOfLockStep(s: State, op: LockOp, p: nat, lid: LockId, proc: Proc)
    requires LocksInv(s) && Strangers(s) && p in s.procs && Exists(s, lid) && OpAllowed(op, RoleAt(s, p, lid))
    ensures Strangers(WithProc(OnLock(s, op, p, s.procs[p].call, lid), p, proc))
  {
    var mid := OnLock(s, op, p, s.procs[p].call, lid);
    var t := WithProc(mid, p, proc);
    forall q: nat, other | q !in t.procs && Exists(t, other) ensures RoleAt(t, q, other) == Out {
      StrangerOfLockStep(s, op, p, lid, q, other);
      assert RoleAt(t, q, other) == RoleAt(mid, q, other);
    }
  }

  lemma OnLockSameObjs(s: State, op: LockOp, p: nat, call: Call, lid: LockId)
    requires Exists(s, lid)
    ensures SameObjs(s, OnLock(s, op, p, call, lid)) && OnLock(s, op, p, call, lid).procs == s.procs
  {}

  lemma RegistryOfLockStep(s: State, op: LockOp, p: nat, lid: LockId, proc: Proc)
    requires RegistryInv(s) && p in s.procs && Exists(s, lid)
    requires forall e :: RefersTo(proc, e) <==> RefersTo(s.procs[p], e)
    ensures RegistryInv(WithProc(OnLock(s, op, p, s.procs[p].call, lid), p, proc))
  {
    var mid := OnLock(s, op, p, s.procs[p].call, lid);
    OnLockSameObjs(s, op, p, s.procs[p].call, lid);
    assert SameObjs(s, WithProc(mid, p, proc));
    RegistryKept(s, WithProc(mid, p, proc), p);
  }

  lemma TablesOfLockStep(s: State, op: LockOp, p: nat, lid: LockId, proc: Proc)
    requires LocksInv(s) && RegistryInv(s) && p in s.procs && Exists(s, lid) && OpAllowed(op, RoleAt(s, p, lid))
    requires forall e :: RefersTo(proc, e) <==> RefersTo(s.procs[p], e)
    ensures var t := WithProc(OnLock(s, op, p, s.procs[p].call, lid), p, proc); LocksInv(t) && RegistryInv(t)
  {
    OnLockKeeps(s, op, p, s.procs[p].call, lid);
    assert LocksInv(WithProc(OnLock(s, op, p, s.procs[p].call, lid), p, proc));
    RegistryOfLockStep(s, op, p, lid, proc);
  }

  lemma Assemble(s: State, t: State, p: nat)
    requires ValidLimits(t.limits) && LocksInv(t) && RegistryInv(t) && Strangers(t)
    requires p in t.procs && ProcInv(t, p)
    requires t.procs.Keys == s.procs.Keys
    requires forall q :: q in s.procs && q != p ==> ProcInv(t, q)
    ensures Inv(t)
  {}

  lemma AroundLockStep(s: State, op: LockOp, p: nat, lid: LockId, proc: Proc)
    requires ValidLimits(s.limits) && LocksInv(s) && RegistryInv(s) && Strangers(s)
    requires p in s.procs && Exists(s, lid) && OpAllowed(op, RoleAt(s, p, lid))
    requires forall e :: RefersTo(proc, e) <==> RefersTo(s.procs[p], e)
    ensures var t := WithProc(OnLock(s, op, p, s.procs[p].call, lid), p, proc);
            && ValidLimits(t.limits) && LocksInv(t) && RegistryInv(t) && Strangers(t)
            && t.procs.Keys == s.procs.Keys
  {
    TablesOfLockStep(s, op, p, lid, proc);
    StrangersOfLockStep(s, op, p, lid, proc);
    OnLockSameObjs(s, op, p, s.procs[p].call, lid);
  }

  /** A step of `p` on one lock. */
  lemma LockStepKeeps(s: State, op: LockOp, p: nat, lid: LockId, proc: Proc)
    requires Inv(s) && p in s.procs && Exists(s, lid) && OpAllowed(op, RoleAt(s, p, lid))
    requires forall e :: RefersTo(proc, e) <==> RefersTo(s.procs[p], e)
    requires ProcInv(WithProc(OnLock(s, op, p, s.procs[p].call, lid), p, proc), p)
    ensures Inv(WithProc(OnLock(s, op, p, s.procs[p].call, lid), p, proc))
  {
    AroundLockStep(s, op, p, lid, proc);
    OthersOfLockStep(s, op, p, lid, proc);
    Assemble(s, WithProc(OnLock(s, op, p, s.procs[p].call, lid), p, proc), p);
  }

  // ---------- The order of acquisition is strict ----------

  /** Positions on the path, ordered by kind and then by key. */
  function Rank(need: Need): (nat, nat) {
    match need
    case NeedBarrier => (0, 0)
    case NeedKey(key) => (1, key)
    case NeedTenant(_) => (2, 0)
    case NeedParallel => (3, 0)
  }

  predicate Lower(a: (nat, nat), b: (nat, nat)) {
    a.0 < b.0 || (a.0 == b.0 && a.1 < b.1)
  }

  lemma PathClimbs(limits: Limits, call: Call, i: nat, j: nat)
    requires ValidCall(limits, call) && i < j < |Path(call)|
    ensures Lower(Rank(Path(call)[i]), Rank(Path(call)[j]))
  {
    var n := |call.keys|;
    var keys := KeyNeeds(call.keys);
    assert forall k :: 1 <= k <= n ==> Path(call)[k] == keys[k - 1];
    assert Path(call)[|Path(call)| - 1] == NeedParallel;
  }

  lemma NotYetHeld(s: State, proc: Proc, lid: LockId)
    requires ValidCall(s.limits, proc.call) && Acquiring(proc.status) && OnPath(s, proc)
    requires |proc.held| < |Path(proc.call)| && Fits(s, NeedOf(proc), lid)
    ensures lid !in proc.held
  {
    forall i | 0 <= i < |proc.held| ensures proc.held[i] != lid {
      PathClimbs(s.limits, proc.call, i, |proc.held|);
      assert Fits(s, Path(proc.call)[i], proc.held[i]);
    }
  }

  // ---------- Each step keeps the record of its own call ----------

  /** `t` is `s` after a step of `p`, which may have changed its role at `lid` only. */
  ghost predicate OwnStep(s: State, t: State, p: nat, lid: LockId) {
    && p in s.procs && p in t.procs && t.procs[p].call == s.procs[p].call
    && SameObjs(s, t) && Exists(s, lid)
    && (forall other :: Exists(t, other) <==> Exists(s, other))
    && (forall other | Exists(s, other) && other != lid :: RoleAt(t, p, other) == RoleAt(s, p, other))
  }

  lemma LocksIgnoreProcs(s: State, p: nat, proc: Proc, q: nat, lid: LockId)
    requires Exists(s, lid)
    ensures Exists(WithProc(s, p, proc), lid) && RoleAt(WithProc(s, p, proc), q, lid) == RoleAt(s, q, lid)
  {}

  lemma OwnStepFrom(s: State, mid: State, p: nat, lid: LockId, proc: Proc)
    requires p in s.procs && Exists(s, lid) && proc.call == s.procs[p].call
    requires SameObjs(s, mid) && mid.procs == s.procs
    requires forall other :: Exists(mid, other) <==> Exists(s, other)
    requires forall other | Exists(s, other) && other != lid :: RoleAt(mid, p, other) == RoleAt(s, p, other)
    ensures OwnStep(s, WithProc(mid, p, proc), p, lid)
    ensures RoleAt(WithProc(mid, p, proc), p, lid) == RoleAt(mid, p, lid)
  {
    var t := WithProc(mid, p, proc);
    forall other | Exists(s, other) && other != lid ensures RoleAt(t, p, other) == RoleAt(s, p, other) {
      LocksIgnoreProcs(mid, p, proc, p, other);
    }
    LocksIgnoreProcs(mid, p, proc, p, lid);
  }

  lemma OwnLockStep(s: State, op: LockOp, p: nat, lid: LockId, proc: Proc)
    requires LocksInv(s) && p in s.procs && Exists(s, lid) && OpAllowed(op, RoleAt(s, p, lid))
    requires proc.call == s.procs[p].call
    ensures var t := WithProc(OnLock(s, op, p, s.procs[p].call, lid), p, proc);
            OwnStep(s, t, p, lid) && OpDone(op, WriteMode(s.procs[p].call, lid), RoleAt(t, p, lid))
  {
    var mid := OnLock(s, op, p, s.procs[p].call, lid);
    OnLockKeeps(s, op, p, s.procs[p].call, lid);
    OnLockSameObjs(s, op, p, s.procs[p].call, lid);
    forall other ensures Exists(mid, other) <==> Exists(s, other) {
      SameLocksExist(s, op, p, s.procs[p].call, lid, other);
    }
    forall other | Exists(s, other) && other != lid ensures RoleAt(mid, p, other) == RoleAt(s, p, other) {
      OnLockMoves(s, op, p, s.procs[p].call, lid, p, other);
    }
    OwnStepFrom(s, mid, p, lid, proc);
  }

  lemma SameLocksExist(s: State, op: LockOp, p: nat, call: Call, lid: LockId, other: LockId)
    requires Exists(s, lid)
    ensures Exists(OnLock(s, op, p, call, lid), other) <==> Exists(s, other)
  {}

  lemma RequestOwn(s: State, t: State, p: nat, lid: LockId)
    requires OwnStep(s, t, p, lid) && ProcInv(s, p) && Target(s.procs[p]) == Some(lid)
    requires t.procs[p] == s.procs[p].(status := Waiting(lid))
    requires OpDone(Ask, WriteMode(s.procs[p].call, lid), RoleAt(t, p, lid))
    ensures ProcInv(t, p)
  {
    NotYetHeld(s, s.procs[p], lid);
    forall e | RefersTo(t.procs[p], e) ensures Current(t, e) {
      assert RefersTo(s.procs[p], e);
    }
  }

  lemma RequestAllowed(s: State, p: nat)
    requires p in s.procs && ProcInv(s, p) && Target(s.procs[p]).Some? && Exists(s, Target(s.procs[p]).value)
    ensures RoleAt(s, p, Target(s.procs[p]).value) == Out
  {
    NotYetHeld(s, s.procs[p], Target(s.procs[p]).value);
  }

  lemma CleanupOwn(s: State, t: State, p: nat, lid: LockId)
    requires OwnStep(s, t, p, lid) && ProcInv(s, p) && s.procs[p].status == Leaving(lid)
    requires t.procs[p] == s.procs[p].(status := Next(lid))
    requires OpDone(Quit, WriteMode(s.procs[p].call, lid), RoleAt(t, p, lid))
    ensures ProcInv(t, p)
  {
    forall e | RefersTo(t.procs[p], e) ensures Current(t, e) {
      assert RefersTo(s.procs[p], e);
    }
  }

  lemma MinusHeld(held: seq<LockId>, i: nat)
    requires i < |held| && forall a, b :: 0 <= a < b < |held| ==> held[a] != held[b]
    ensures forall a, b :: 0 <= a < b < |Minus(held, i)| ==> Minus(held, i)[a] != Minus(held, i)[b]
    ensures forall lid :: lid in Minus(held, i) <==> lid in held && lid != held[i]
  {
    assert held == held[..i] + [held[i]] + held[i + 1..];
    forall lid | lid in held && lid != held[i] ensures lid in Minus(held, i) {
      var k :| 0 <= k < |held| && held[k] == lid;
      assert if k < i then Minus(held, i)[k] == lid else Minus(held, i)[k - 1] == lid;
    }
  }

  lemma GiveBackOwn(s: State, t: State, p: nat, i: nat)
    requires p in s.procs && ProcInv(s, p) && s.procs[p].status == Releasing && i < |s.procs[p].held|
    requires OwnStep(s, t, p, s.procs[p].held[i])
    requires t.procs[p] == s.procs[p].(held := Minus(s.procs[p].held, i), status := Next(s.procs[p].held[i]))
    requires RoleAt(t, p, s.procs[p].held[i]) == Out
    ensures ProcInv(t, p)
  {
    MinusHeld(s.procs[p].held, i);
    forall e | RefersTo(t.procs[p], e) ensures Current(t, e) {
      assert RefersTo(s.procs[p], e);
    }
  }

  lemma ResumedOnPath(s: State, p: nat, proc: Proc)
    requires proc.status.Waiting? && OnPath(s, proc)
    ensures OnPath(WithProc(s, p, Resumed(proc)), Resumed(proc))
  {
    var t, held := WithProc(s, p, Resumed(proc)), Resumed(proc).held;
    forall i | 0 <= i < |held| ensures Fits(t, Path(proc.call)[i], held[i]) {
      assert Fits(s, Path(proc.call)[i], held[i]);
    }
  }

  /** The grant taken joins the locks held, and no role is left anywhere else. */
  lemma ResumedHolds(s: State, p: nat)
    requires p in s.procs && ProcInv(s, p) && s.procs[p].status.Waiting?
    requires Exists(s, s.procs[p].status.lid) && RoleAt(s, p, s.procs[p].status.lid).Has?
    ensures var (proc, held) := (s.procs[p], Resumed(s.procs[p]).held);
            && (forall i, j :: 0 <= i < j < |held| ==> held[i] != held[j])
            && (forall lid :: lid in held ==> Exists(s, lid) && RoleAt(s, p, lid) == Has(WriteMode(proc.call, lid)))
            && (forall lid | Exists(s, lid) :: RoleAt(s, p, lid) != Stale && (RoleAt(s, p, lid) != Out ==> lid in held))
  {}

  lemma ResumeOwn(s: State, p: nat)
    requires p in s.procs && ProcInv(s, p) && s.procs[p].status.Waiting?
    requires Exists(s, s.procs[p].status.lid) && RoleAt(s, p, s.procs[p].status.lid).Has?
    ensures ProcInv(WithProc(s, p, Resumed(s.procs[p])), p)
  {
    var proc := s.procs[p];
    var t := WithProc(s, p, Resumed(proc));
    ResumedHolds(s, p);
    ResumedOnPath(s, p, proc);
    forall lid | Exists(t, lid) ensures Exists(s, lid) && RoleAt(t, p, lid) == RoleAt(s, p, lid) {
      LocksIgnoreProcs(s, p, Resumed(proc), p, lid);
    }
    forall e | RefersTo(t.procs[p], e) ensures Current(t, e) {
      assert RefersTo(proc, e);
    }
  }

  // ---------- Registry steps ----------

  lemma ReferersAdd(s: State, t: State, p: nat, eid: nat)
    requires t.procs.Keys == s.procs.Keys && p in s.procs
    requires forall q :: q in s.procs && q != p ==> t.procs[q] == s.procs[q]
    requires forall e :: RefersTo(t.procs[p], e) <==> RefersTo(s.procs[p], e) || e == eid
    requires !RefersTo(s.procs[p], eid)
    ensures |Referers(t, eid)| == |Referers(s, eid)| + 1
    ensures forall e: nat :: e != eid ==> Referers(t, e) == Referers(s, e)
  {
    assert Referers(t, eid) == Referers(s, eid) + {p};
    forall e: nat | e != eid ensures Referers(t, e) == Referers(s, e) {
      forall q | q in s.procs ensures q in Referers(t, e) <==> q in Referers(s, e) {}
    }
  }

  /** `t` is `s` after `p` looked up `key` and found, or made, the entry `eid`. */
  ghost predicate Looked(s: State, t: State, p: nat, key: nat, eid: nat) {
    && p in s.procs && t.procs == s.procs[p := s.procs[p].(status := Registered(eid))]
    && t.limits == s.limits
    && t.registry == s.registry[key := eid]
    && (if key in s.registry then eid == s.registry[key] && eid in s.objs else eid == s.nextEid && eid !in s.objs)
    && t.objs.Keys == s.objs.Keys + {eid}
    && (forall e :: e in s.objs ==> t.objs[e].key == s.objs[e].key)
    && t.objs[eid].key == key
    && SameRoles(s, t)
  }

  ghost predicate SameRoles(s: State, t: State) {
    && (forall lid :: Exists(s, lid) ==> Exists(t, lid))
    && (forall q: nat, lid | Exists(t, lid) :: RoleAt(t, q, lid) == if Exists(s, lid) then RoleAt(s, q, lid) else Out)
  }

  /** Call `p` may register the entry of its next key. */
  ghost predicate MayRegister(s: State, p: nat) {
    && p in s.procs && s.procs[p].status == Wanting
    && |s.procs[p].held| < |Path(s.procs[p].call)| && NeedOf(s.procs[p]).NeedKey?
  }

  function EntryFor(s: State, key: nat): nat {
    if key in s.registry then s.registry[key] else s.nextEid
  }

  lemma RegisterRoles(s: State, p: nat, key: nat, q: nat, lid: LockId)
    requires p in s.procs && Exists(Registering(s, p, key), lid)
    requires key in s.registry ==> s.registry[key] in s.objs
    requires key !in s.registry ==> s.nextEid !in s.objs
    ensures RoleAt(Registering(s, p, key), q, lid) == if Exists(s, lid) then RoleAt(s, q, lid) else Out
  {}

  lemma RegisterLooks(s: State, p: nat, key: nat)
    requires RegistryInv(s) && p in s.procs
    ensures Looked(s, Registering(s, p, key), p, key, EntryFor(s, key))
  {
    var t := Registering(s, p, key);
    forall q: nat, lid | Exists(t, lid)
      ensures RoleAt(t, q, lid) == if Exists(s, lid) then RoleAt(s, q, lid) else Out
    {
      RegisterRoles(s, p, key, q, lid);
    }
  }

  /** The call that registers does not refer to the entry of its next key yet. */
  lemma NextKeyUnreferenced(s: State, p: nat)
    requires RegistryInv(s) && MayRegister(s, p) && ProcInv(s, p)
    ensures !RefersTo(s.procs[p], EntryFor(s, NeedOf(s.procs[p]).key))
  {
    var proc := s.procs[p];
    var key := NeedOf(proc).key;
    var eid := EntryFor(s, key);
    if key in s.registry {
      NotYetHeld(s, proc, Entry(eid));
    } else {
      assert !Current(s, eid);
    }
  }

  /** The counts of an entry, zero when there is none yet. */
  function Counts(s: State, eid: nat): (int, nat) {
    if eid in s.objs then (s.objs[eid].refs, s.objs[eid].leaked) else (0, 0)
  }

  lemma LookedTables(s: State, t: State, p: nat, key: nat, eid: nat)
    requires Looked(s, t, p, key, eid) && RegistryInv(s) && !RefersTo(s.procs[p], eid)
    requires s.procs[p].status == Wanting
    requires eid !in s.objs ==> Referers(s, eid) == {}
    requires t.nextEid == if key in s.registry then s.nextEid else s.nextEid + 1
    requires forall e :: e in t.objs ==>
      Counts(t, e) == (Counts(s, e).0 + if e == eid then 1 else 0, Counts(s, e).1)
    ensures RegistryInv(t)
  {
    assert t.procs[p] == s.procs[p].(status := Registered(eid));
    forall e ensures RefersTo(t.procs[p], e) <==> RefersTo(s.procs[p], e) || e == eid {}
    ReferersAdd(s, t, p, eid);
    forall e | e in t.objs
      ensures e < t.nextEid && t.objs[e].refs == |Referers(t, e)| + t.objs[e].leaked
    {
      assert Counts(t, e) == (Counts(s, e).0 + if e == eid then 1 else 0, Counts(s, e).1);
    }
    LookedEntries(s, t, p, key, eid);
  }

  lemma LookedEntries(s: State, t: State, p: nat, key: nat, eid: nat)
    requires Looked(s, t, p, key, eid) && RegistryInv(s)
    requires forall e :: e in t.objs ==> Counts(t, e).0 == Counts(s, e).0 + if e == eid then 1 else 0
    ensures forall k :: k in t.registry ==>
      t.registry[k] in t.objs && t.objs[t.registry[k]].key == k && t.objs[t.registry[k]].refs > 0
  {
    forall k | k in t.registry
      ensures t.registry[k] in t.objs && t.objs[t.registry[k]].key == k && t.objs[t.registry[k]].refs > 0
    {
      if k != key {
        assert Counts(t, t.registry[k]).0 >= Counts(s, s.registry[k]).0;
      } else {
        assert Counts(s, eid).0 >= 0;
        assert Counts(t, eid).0 == Counts(s, eid).0 + 1;
      }
    }
  }

  lemma RegisterTables(s: State, p: nat)
    requires RegistryInv(s) && MayRegister(s, p)
    requires forall q :: q in s.procs ==> ProcInv(s, q)
    ensures RegistryInv(Registering(s, p, NeedOf(s.procs[p]).key))
  {
    var key := NeedOf(s.procs[p]).key;
    NextKeyUnreferenced(s, p);
    RegisterLooks(s, p, key);
    NewEntryUnreferenced(s);
    LookedTables(s, Registering(s, p, key), p, key, EntryFor(s, key));
  }

  lemma RegisterLocks(s: State, p: nat, key: nat)
    requires LocksInv(s) && p in s.procs
    ensures LocksInv(Registering(s, p, key))
  {}

  lemma NewEntryUnreferenced(s: State)
    requires RegistryInv(s) && forall q :: q in s.procs ==> ProcInv(s, q)
    ensures Referers(s, s.nextEid) == {}
  {
    forall q | q in s.procs ensures !RefersTo(s.procs[q], s.nextEid) {
      assert ProcInv(s, q) && !Current(s, s.nextEid);
    }
  }

  lemma LookedOther(s: State, t: State, p: nat, key: nat, eid: nat, q: nat)
    requires Looked(s, t, p, key, eid) && q in s.procs && q != p && ProcInv(s, q)
    ensures ProcInv(t, q)
  {
    forall e | RefersTo(s.procs[q], e) ensures Current(t, e) {
      assert Current(s, e);
    }
    OthersKept(s, t, q);
  }

  lemma LookedOwn(s: State, t: State, p: nat, key: nat, eid: nat)
    requires Looked(s, t, p, key, eid) && MayRegister(s, p) && ProcInv(s, p)
    requires NeedOf(s.procs[p]) == NeedKey(key) && !RefersTo(s.procs[p], eid)
    ensures ProcInv(t, p)
  {
    forall e | RefersTo(t.procs[p], e) ensures Current(t, e) {
      if RefersTo(s.procs[p], e) { assert Current(s, e); }
    }
  }

  lemma RegisterKeeps(s: State, p: nat)
    requires Inv(s) && MayRegister(s, p)
    ensures Inv(Registering(s, p, NeedOf(s.procs[p]).key))
  {
    var key := NeedOf(s.procs[p]).key;
    var t := Registering(s, p, key);
    RegisterTables(s, p);
    RegisterLocks(s, p, key);
    RegisterLooks(s, p, key);
    NextKeyUnreferenced(s, p);
    LookedOwn(s, t, p, key, EntryFor(s, key));
    forall q | q in s.procs && q != p ensures ProcInv(t, q) {
      LookedOther(s, t, p, key, EntryFor(s, key), q);
    }
    LookedStrangers(s, t, p, key, EntryFor(s, key));
    Assemble(s, t, p);
  }

  lemma LookedStrangers(s: State, t: State, p: nat, key: nat, eid: nat)
    requires Looked(s, t, p, key, eid) && Strangers(s)
    ensures Strangers(t)
  {}

  /** `t` is `s` after `p` let go of the entry `eid`, whose key may leave the registry
      once no call refers to the entry. */
  ghost predicate Unlinked(s: State, t: State, p: nat, eid: nat) {
    && p in s.procs && t.procs == s.procs[p := s.procs[p].(status := Releasing)]
    && s.procs[p].status in {Registered(eid), Dropping(eid)}
    && t.limits == s.limits && t.nextEid == s.nextEid
    && eid in s.objs && t.objs.Keys == s.objs.Keys
    && (forall e :: e in s.objs ==> t.objs[e].key == s.objs[e].key)
    && (forall e :: e in s.objs && e != eid ==> t.objs[e] == s.objs[e])
    && (t.registry == s.registry || (t.registry == s.registry - {s.objs[eid].key} && t.objs[eid].refs == 0))
    && SameRoles(s, t)
  }

  lemma ReferersDrop(s: State, t: State, p: nat, eid: nat)
    requires Unlinked(s, t, p, eid) && ProcInv(s, p)
    ensures p in Referers(s, eid) && Referers(t, eid) == Referers(s, eid) - {p}
    ensures forall e: nat :: e != eid ==> Referers(t, e) == Referers(s, e)
    ensures |Referers(t, eid)| == |Referers(s, eid)| - 1
  {
    assert t.procs[p] == s.procs[p].(status := Releasing);
    assert RefersTo(s.procs[p], eid) && !RefersTo(t.procs[p], eid);
    forall q, e: nat | q in s.procs && (q != p || e != eid)
      ensures RefersTo(t.procs[q], e) <==> RefersTo(s.procs[q], e) {}
    forall e: nat | e != eid ensures Referers(t, e) == Referers(s, e) {}
  }

  lemma UnlinkedOther(s: State, t: State, p: nat, eid: nat, q: nat)
    requires Unlinked(s, t, p, eid) && ProcInv(s, p) && q in s.procs && q != p && ProcInv(s, q)
    requires t.objs[eid].refs == |Referers(t, eid)| + t.objs[eid].leaked
    ensures ProcInv(t, q)
  {
    ReferersDrop(s, t, p, eid);
    forall e | RefersTo(s.procs[q], e) ensures Current(t, e) {
      assert Current(s, e);
      assert q in Referers(t, e);
      if e == eid { assert |Referers(t, eid)| > 0; }
    }
    OthersKept(s, t, q);
  }

  lemma UnlinkedOwn(s: State, t: State, p: nat, eid: nat)
    requires Unlinked(s, t, p, eid) && ProcInv(s, p)
    ensures ProcInv(t, p)
  {
    assert RefersTo(s.procs[p], eid) && Current(s, eid);
    forall e | RefersTo(t.procs[p], e) ensures Current(t, e) {
      assert RefersTo(s.procs[p], e) && Current(s, e) && e != eid;
    }
  }

  lemma UnlinkedTables(s: State, t: State, p: nat, eid: nat)
    requires Unlinked(s, t, p, eid) && ProcInv(s, p) && RegistryInv(s)
    requires t.objs[eid].refs - t.objs[eid].leaked == s.objs[eid].refs - s.objs[eid].leaked - 1
    requires t.objs[eid].leaked >= s.objs[eid].leaked
    requires t.registry == s.registry ==> t.objs[eid].refs > 0
    ensures RegistryInv(t)
  {
    ReferersDrop(s, t, p, eid);
  }

  lemma UnlinkedOthers(s: State, t: State, p: nat, eid: nat)
    requires Unlinked(s, t, p, eid) && p in s.procs && forall q :: q in s.procs ==> ProcInv(s, q)
    requires t.objs[eid].refs == |Referers(t, eid)| + t.objs[eid].leaked
    ensures forall q :: q in s.procs && q != p ==> ProcInv(t, q)
  {
    forall q | q in s.procs && q != p ensures ProcInv(t, q) {
      UnlinkedOther(s, t, p, eid, q);
    }
  }

  lemma UnlinkedStrangers(s: State, t: State, p: nat, eid: nat)
    requires Unlinked(s, t, p, eid) && Strangers(s)
    ensures Strangers(t) && t.procs.Keys == s.procs.Keys
  {}

  lemma UnlinkedKeeps(s: State, t: State, p: nat, eid: nat)
    requires Inv(s) && Unlinked(s, t, p, eid) && LocksInv(t)
    requires t.objs[eid].refs - t.objs[eid].leaked == s.objs[eid].refs - s.objs[eid].leaked - 1
    requires t.objs[eid].leaked >= s.objs[eid].leaked
    requires t.registry == s.registry ==> t.objs[eid].refs > 0
    ensures Inv(t)
  {
    UnlinkedTables(s, t, p, eid);
    UnlinkedOwn(s, t, p, eid);
    UnlinkedOthers(s, t, p, eid);
    UnlinkedStrangers(s, t, p, eid);
    Assemble(s, t, p);
  }

  ghost function Expired(s: State, p: nat, eid: nat): State
    requires p in s.procs && eid in s.objs
  {
    WithProc(s.(objs := s.objs[eid := s.objs[eid].(leaked := s.objs[eid].leaked + 1)]), p,
             s.procs[p].(status := Releasing))
  }

  lemma ExpireKeeps(s: State, p: nat)
    requires Inv(s) && p in s.procs && s.procs[p].status.Registered? && s.procs[p].status.eid in s.objs
    ensures Inv(Expired(s, p, s.procs[p].status.eid))
  {
    var eid := s.procs[p].status.eid;
    var t := Expired(s, p, eid);
    ObjUpdateKeepsLocks(s, t);
    assert p in Referers(s, eid);
    UnlinkedKeeps(s, t, p, eid);
  }

  lemma ObjUpdateKeepsLocks(s: State, t: State)
    requires LocksInv(s) && t.limits == s.limits
    requires t.barrier == s.barrier && t.tenants == s.tenants && t.parallel == s.parallel
    requires t.objs.Keys == s.objs.Keys && forall e :: e in s.objs ==> t.objs[e].lock == s.objs[e].lock
    ensures LocksInv(t) && SameRoles(s, t)
  {}

  lemma IdleIfNobody(lock: RW.State)
    requires RW.AllLive(lock)
    requires forall q: nat :: RWRole(RW.RoleOf(lock, q)) in {Out, Stale}
    ensures lock.holding == map[] && lock.queue == []
  {
    if lock.holding != map[] {
      var q :| q in lock.holding;
      var role := RWRole(RW.RoleOf(lock, q));
    } else if lock.queue != [] {
      var w := lock.queue[0];
      var role := RWRole(RW.RoleOf(lock, w.who));
    }
  }

  /** Once nobody refers to an entry its lock is idle, so the count alone decides. */
  lemma UnreferencedIdle(s: State, p: nat, eid: nat)
    requires Inv(s) && eid in s.objs && p in s.procs && s.procs[p].status == Dropping(eid)
    requires Referers(s, eid) == {p}
    ensures s.objs[eid].lock.holding == map[] && s.objs[eid].lock.queue == []
  {
    forall q: nat ensures RWRole(RW.RoleOf(s.objs[eid].lock, q)) in {Out, Stale} {
      NoRoleWithoutReference(s, p, eid, q);
    }
    IdleIfNobody(s.objs[eid].lock);
  }

  lemma NoRoleWithoutReference(s: State, p: nat, eid: nat, q: nat)
    requires Strangers(s) && eid in s.objs && p in s.procs && s.procs[p].status == Dropping(eid)
    requires q in s.procs ==> ProcInv(s, q)
    requires Referers(s, eid) == {p}
    ensures RWRole(RW.RoleOf(s.objs[eid].lock, q)) in {Out, Stale}
  {
    assert Exists(s, Entry(eid)) && RWRole(RW.RoleOf(s.objs[eid].lock, q)) == RoleAt(s, q, Entry(eid));
    if q in s.procs {
      assert q in Referers(s, eid) <==> RefersTo(s.procs[q], eid);
    }
  }

  /** The last one to drop an entry takes it out of the registry. */
  lemma LastDropUnlinks(s: State, p: nat, eid: nat)
    requires Inv(s) && p in s.procs && s.procs[p].status == Dropping(eid) && eid in s.objs
    ensures Dropped(s, p, eid).registry == s.registry ==> s.objs[eid].refs > 1 || s.objs[eid].key !in s.registry
    ensures s.objs[eid].refs == 1 ==> Dropped(s, p, eid).registry == s.registry - {s.objs[eid].key}
    ensures s.objs[eid].refs >= 1
  {
    assert p in Referers(s, eid);
    if s.objs[eid].refs == 1 {
      OnlyOne(Referers(s, eid), p);
      UnreferencedIdle(s, p, eid);
    }
  }

  lemma DropUnlinked(s: State, p: nat, eid: nat)
    requires LocksInv(s) && p in s.procs && s.procs[p].status == Dropping(eid) && eid in s.objs
    ensures LocksInv(Dropped(s, p, eid)) && Unlinked(s, Dropped(s, p, eid), p, eid)
  {
    ObjUpdateKeepsLocks(s, Dropped(s, p, eid));
  }

  lemma DropKeeps(s: State, p: nat)
    requires Inv(s) && p in s.procs && s.procs[p].status.Dropping? && s.procs[p].status.eid in s.objs
    ensures Inv(Dropped(s, p, s.procs[p].status.eid))
  {
    var eid := s.procs[p].status.eid;
    var t := Dropped(s, p, eid);
    DropUnlinked(s, p, eid);
    DropCounts(s, p, eid);
    UnlinkedKeeps(s, t, p, eid);
  }

  lemma DropCounts(s: State, p: nat, eid: nat)
    requires Inv(s) && p in s.procs && s.procs[p].status == Dropping(eid) && eid in s.objs
    ensures var t := Dropped(s, p, eid);
            && t.objs[eid].refs - t.objs[eid].leaked == s.objs[eid].refs - s.objs[eid].leaked - 1
            && t.objs[eid].leaked == s.objs[eid].leaked
            && (t.registry == s.registry ==> t.objs[eid].refs > 0)
  {
    assert ProcInv(s, p) && RefersTo(s.procs[p], eid) && Current(s, eid);
    LastDropUnlinks(s, p, eid);
  }

  lemma OnlyOne(s: set<nat>, p: nat)
    requires p in s && |s| == 1
    ensures s == {p}
  {
    assert |s - {p}| == 0;
  }

  // ---------- Every reachable state is safe ----------

  lemma SubmitOthers(s: State, p: nat, call: Call, q: nat)
    requires p !in s.procs && q in s.procs && ProcInv(s, q)
    ensures ProcInv(WithProc(s, p, Proc(call, [], Wanting)), q)
  {
    OthersKept(s, WithProc(s, p, Proc(call, [], Wanting)), q);
  }

  lemma SubmitOwn(s: State, p: nat, call: Call)
    requires Strangers(s) && p !in s.procs && ValidCall(s.limits, call)
    ensures ProcInv(WithProc(s, p, Proc(call, [], Wanting)), p)
  {
    var t := WithProc(s, p, Proc(call, [], Wanting));
    forall lid | Exists(t, lid) ensures RoleAt(t, p, lid) == Out {
      assert Exists(s, lid) && RoleAt(s, p, lid) == Out;
    }
  }

  lemma SubmitTables(s: State, p: nat, call: Call)
    requires LocksInv(s) && RegistryInv(s) && Strangers(s) && p !in s.procs
    ensures var t := WithProc(s, p, Proc(call, [], Wanting)); LocksInv(t) && RegistryInv(t) && Strangers(t)
  {
    var t := WithProc(s, p, Proc(call, [], Wanting));
    forall e: nat ensures Referers(t, e) == Referers(s, e) {}
    forall q: nat, lid | q !in t.procs && Exists(t, lid) ensures RoleAt(t, q, lid) == Out {
      assert Exists(s, lid) && RoleAt(s, q, lid) == Out;
    }
    assert LocksInv(t);
  }

  lemma SubmitKeeps(s: State, p: nat, call: Call)
    requires Inv(s) && p !in s.procs && ValidCall(s.limits, call)
    ensures Inv(WithProc(s, p, Proc(call, [], Wanting)))
  {
    var t := WithProc(s, p, Proc(call, [], Wanting));
    SubmitTables(s, p, call);
    SubmitOwn(s, p, call);
    forall q | q in s.procs ensures ProcInv(t, q) {
      SubmitOthers(s, p, call, q);
    }
  }

  lemma RequestOwnKept(s: State, p: nat, lid: LockId)
    requires LocksInv(s) && p in s.procs && ProcInv(s, p) && Target(s.procs[p]) == Some(lid) && Exists(s, lid)
    ensures RoleAt(s, p, lid) == Out
    ensures ProcInv(WithProc(OnLock(s, Ask, p, s.procs[p].call, lid), p, s.procs[p].(status := Waiting(lid))), p)
  {
    var proc := s.procs[p].(status := Waiting(lid));
    RequestAllowed(s, p);
    OwnLockStep(s, Ask, p, lid, proc);
    RequestOwn(s, WithProc(OnLock(s, Ask, p, s.procs[p].call, lid), p, proc), p, lid);
  }

  lemma RequestKeeps(s: State, p: nat, lid: LockId)
    requires Inv(s) && p in s.procs && Target(s.procs[p]) == Some(lid) && Exists(s, lid)
    ensures Inv(WithProc(OnLock(s, Ask, p, s.procs[p].call, lid), p, s.procs[p].(status := Waiting(lid))))
  {
    RequestOwnKept(s, p, lid);
    LockStepKeeps(s, Ask, p, lid, s.procs[p].(status := Waiting(lid)));
  }

  lemma CleanupOwnKept(s: State, p: nat, lid: LockId)
    requires LocksInv(s) && p in s.procs && ProcInv(s, p) && s.procs[p].status == Leaving(lid) && Exists(s, lid)
    ensures ProcInv(WithProc(OnLock(s, Quit, p, s.procs[p].call, lid), p, s.procs[p].(status := Next(lid))), p)
  {
    var proc := s.procs[p].(status := Next(lid));
    OwnLockStep(s, Quit, p, lid, proc);
    CleanupOwn(s, WithProc(OnLock(s, Quit, p, s.procs[p].call, lid), p, proc), p, lid);
  }

  lemma CleanupKeeps(s: State, p: nat, lid: LockId)
    requires Inv(s) && p in s.procs && s.procs[p].status == Leaving(lid) && Exists(s, lid)
    ensures Inv(WithProc(OnLock(s, Quit, p, s.procs[p].call, lid), p, s.procs[p].(status := Next(lid))))
  {
    CleanupOwnKept(s, p, lid);
    LockStepKeeps(s, Quit, p, lid, s.procs[p].(status := Next(lid)));
  }

  /** The record of a lease after it gave back the lock at position `i`. */
  function Given(proc: Proc, i: nat): Proc
    requires i < |proc.held|
  {
    proc.(held := Minus(proc.held, i), status := Next(proc.held[i]))
  }

  lemma GiveBackOwnKept(s: State, p: nat, i: nat)
    requires LocksInv(s) && p in s.procs && ProcInv(s, p)
    requires s.procs[p].status == Releasing && i < |s.procs[p].held|
    ensures var lid := s.procs[p].held[i];
            && Exists(s, lid) && RoleAt(s, p, lid).Has?
            && ProcInv(WithProc(OnLock(s, Give, p, s.procs[p].call, lid), p, Given(s.procs[p], i)), p)
  {
    var lid := s.procs[p].held[i];
    assert lid in s.procs[p].held;
    OwnLockStep(s, Give, p, lid, Given(s.procs[p], i));
    GiveBackOwn(s, WithProc(OnLock(s, Give, p, s.procs[p].call, lid), p, Given(s.procs[p], i)), p, i);
  }

  lemma GiveBackKeeps(s: State, p: nat, i: nat)
    requires Inv(s) && p in s.procs && s.procs[p].status == Releasing && i < |s.procs[p].held|
    requires Exists(s, s.procs[p].held[i])
    ensures Inv(WithProc(OnLock(s, Give, p, s.procs[p].call, s.procs[p].held[i]), p, Given(s.procs[p], i)))
  {
    assert ProcInv(s, p);
    GiveBackOwnKept(s, p, i);
    MinusHeld(s.procs[p].held, i);
    LockStepKeeps(s, Give, p, s.procs[p].held[i], Given(s.procs[p], i));
  }

  lemma FailKeeps(s: State, p: nat)
    requires Inv(s) && p in s.procs && s.procs[p].status.Waiting?
    ensures Inv(WithProc(s, p, s.procs[p].(status := Leaving(s.procs[p].status.lid))))
  {
    var proc := s.procs[p].(status := Leaving(s.procs[p].status.lid));
    RelabelOwn(s, p, proc);
    LocalStepKeeps(s, p, proc);
  }

  lemma EndKeeps(s: State, p: nat, status: Status)
    requires Inv(s) && p in s.procs
    requires ((s.procs[p].status == Wanting && status == Releasing)
              || (s.procs[p].status == Releasing && s.procs[p].held == [] && status == Finished))
    ensures Inv(WithProc(s, p, s.procs[p].(status := status)))
  {
    RelabelOwn(s, p, s.procs[p].(status := status));
    LocalStepKeeps(s, p, s.procs[p].(status := status));
  }

  lemma RelabelOwn(s: State, p: nat, proc: Proc)
    requires p in s.procs && ProcInv(s, p) && proc == s.procs[p].(status := proc.status)
    requires ((s.procs[p].status.Waiting? && proc.status == Leaving(s.procs[p].status.lid))
              || (s.procs[p].status == Wanting && proc.status == Releasing)
              || (s.procs[p].status == Releasing && proc.held == [] && proc.status == Finished))
    ensures ProcInv(WithProc(s, p, proc), p)
  {
    var t := WithProc(s, p, proc);
    forall e | RefersTo(proc, e) ensures Current(t, e) {
      assert RefersTo(s.procs[p], e);
    }
  }

  /** The record of a call after it took the grant it was waiting for. */
  function Resumed(proc: Proc): Proc
    requires proc.status.Waiting?
  {
    proc.(held := proc.held + [proc.status.lid], status := Wanting)
  }

  lemma ResumeKeeps(s: State, p: nat)
    requires Inv(s) && p in s.procs && s.procs[p].status.Waiting?
    requires Exists(s, s.procs[p].status.lid) && RoleAt(s, p, s.procs[p].status.lid).Has?
    ensures Inv(WithProc(s, p, Resumed(s.procs[p])))
  {
    ResumeOwn(s, p);
    LocalStepKeeps(s, p, Resumed(s.procs[p]));
  }

  lemma StepKeeps(s: State, l: Label)
    requires Inv(s) && Enabled(s, l)
    ensures Inv(After(s, l))
  {
    match l
    case Submit(p, call) => SubmitKeeps(s, p, call);
    case Register(p) => RegisterKeeps(s, p);
    case Request(p) => RequestKeeps(s, p, Target(s.procs[p]).value);
    case Resume(p) => ResumeKeeps(s, p);
    case Fail(p) => FailKeeps(s, p);
    case Cleanup(p) => CleanupKeeps(s, p, s.procs[p].status.lid);
    case Stop(p) => EndKeeps(s, p, Releasing);
    case Expire(p) => ExpireKeeps(s, p);
    case GiveBack(p) => GiveBackKeeps(s, p, NextRelease(s.procs[p].held));
    case Drop(p) => DropKeeps(s, p);
    case Finish(p) => EndKeeps(s, p, Finished);
  }

  lemma StepKeepsLimits(s: State, l: Label)
    requires Enabled(s, l)
    ensures After(s, l).limits == s.limits
  {}

  lemma InitialSafe(limits: Limits)
    requires ValidLimits(limits)
    ensures Inv(Initial(limits))
  {}

  /** The invariant holds after every schedule of every set of calls. */
  lemma {:induction false} RunsAreSafe(limits: Limits, labels: seq<Label>)
    requires ValidLimits(limits)
    ensures Inv(Run(limits, labels)) && Run(limits, labels).limits == limits
  {
    if labels == [] {
      InitialSafe(limits);
    } else {
      var before, l := labels[..|labels| - 1], labels[|labels| - 1];
      RunsAreSafe(limits, before);
      if Enabled(Run(limits, before), l) {
        StepKeeps(Run(limits, before), l);
        StepKeepsLimits(Run(limits, before), l);
      }
    }
  }

  // ---------- Isolation ----------

  function ActiveCalls(s: State): set<nat> {
    set p | p in s.procs && Active(s.procs[p])
  }

  /** An active call holds the lock of every need on its path. */
  lemma ActiveHolds(s: State, p: nat, i: nat)
    requires p in s.procs && ProcInv(s, p) && Active(s.procs[p]) && i < |Path(s.procs[p].call)|
    ensures var proc := s.procs[p];
            && Fits(s, Path(proc.call)[i], proc.held[i]) && Exists(s, proc.held[i])
            && RoleAt(s, p, proc.held[i]) == Has(WriteMode(proc.call, proc.held[i]))
  {
    assert s.procs[p].held[i] in s.procs[p].held;
  }

  /** An exclusive call is active alone. */
  lemma ExclusiveAlone(limits: Limits, labels: seq<Label>, p: nat, q: nat)
    requires ValidLimits(limits)
    requires p in ActiveCalls(Run(limits, labels)) && q in ActiveCalls(Run(limits, labels)) && p != q
    ensures !Run(limits, labels).procs[p].call.exclusive
  {
    RunsAreSafe(limits, labels);
    var s := Run(limits, labels);
    assert ProcInv(s, p) && ProcInv(s, q);
    ActiveHolds(s, p, 0);
    ActiveHolds(s, q, 0);
    SharedLock(s.barrier, p, q);
  }

  /** Two active calls that share a resource key both only read it. */
  lemma NoConflict(limits: Limits, labels: seq<Label>, p: nat, q: nat, key: nat)
    requires ValidLimits(limits) && p != q
    requires p in ActiveCalls(Run(limits, labels)) && key in Run(limits, labels).procs[p].call.keys
    requires q in ActiveCalls(Run(limits, labels)) && key in Run(limits, labels).procs[q].call.keys
    ensures var s := Run(limits, labels); s.procs[p].call.access == s.procs[q].call.access == RW.Read
  {
    RunsAreSafe(limits, labels);
    var s := Run(limits, labels);
    assert ProcInv(s, p) && ProcInv(s, q);
    var e := KeyEntry(s, p, key);
    var f := KeyEntry(s, q, key);
    SharedLock(s.objs[e].lock, p, q);
  }

  /** Two holders of one reader/writer lock are both readers. */
  lemma SharedLock(lock: RW.State, p: nat, q: nat)
    requires RW.Inv(lock) && RW.AllLive(lock) && p != q
    requires RWRole(RW.RoleOf(lock, p)).Has? && RWRole(RW.RoleOf(lock, q)).Has?
    ensures RWRole(RW.RoleOf(lock, p)) == RWRole(RW.RoleOf(lock, q)) == Has(false)
  {
    RW.FoundLive(lock.queue, p);
    RW.FoundLive(lock.queue, q);
  }

  /** The entry through which an active call holds a key is the registered one. */
  lemma KeyEntry(s: State, p: nat, key: nat) returns (eid: nat)
    requires p in s.procs && Active(s.procs[p]) && ProcInv(s, p) && key in s.procs[p].call.keys
    ensures key in s.registry && eid == s.registry[key] && eid in s.objs
    ensures RoleAt(s, p, Entry(eid)) == Has(s.procs[p].call.access == RW.Write)
  {
    var proc := s.procs[p];
    var i :| 0 <= i < |proc.call.keys| && proc.call.keys[i] == key;
    assert Path(proc.call)[i + 1] == KeyNeeds(proc.call.keys)[i];
    ActiveHolds(s, p, i + 1);
    eid := proc.held[i + 1].eid;
    assert Entry(eid) in proc.held;
    assert RefersTo(proc, eid);
    assert Current(s, eid);
  }

  lemma HoldsSlot(s: State, p: nat)
    requires p in s.procs && ProcInv(s, p) && Active(s.procs[p])
    ensures p in s.parallel.holding
  {
    ActiveHolds(s, p, |Path(s.procs[p].call)| - 1);
    HasMeansHolding(s.parallel, p);
  }

  lemma HoldsTenantSlot(s: State, p: nat, t: string)
    requires p in s.procs && ProcInv(s, p) && Active(s.procs[p]) && s.procs[p].call.tenant == Some(t)
    ensures t in s.tenants && p in s.tenants[t].holding
  {
    var path := Path(s.procs[p].call);
    assert path[|path| - 2] == NeedTenant(t);
    ActiveHolds(s, p, |path| - 2);
    HasMeansHolding(s.tenants[t], p);
  }

  function ActiveFor(s: State, t: string): set<nat> {
    set p | p in ActiveCalls(s) && s.procs[p].call.tenant == Some(t)
  }

  /** No more than the configured number of calls is active, in all and per tenant. */
  lemma WithinLimits(limits: Limits, labels: seq<Label>, t: string)
    requires ValidLimits(limits)
    ensures |ActiveCalls(Run(limits, labels))| <= limits.parallel
    ensures t in limits.tenants ==> |ActiveFor(Run(limits, labels), t)| <= limits.tenants[t]
  {
    RunsAreSafe(limits, labels);
    var s := Run(limits, labels);
    forall p | p in ActiveCalls(s) ensures p in s.parallel.holding {
      HoldsSlot(s, p);
    }
    SubsetSize(ActiveCalls(s), s.parallel.holding);
    if t in limits.tenants {
      forall p | p in ActiveFor(s, t) ensures p in s.tenants[t].holding {
        HoldsTenantSlot(s, p, t);
      }
      SubsetSize(ActiveFor(s, t), s.tenants[t].holding);
    }
  }

  lemma HasMeansHolding(sem: Sem.State, p: nat)
    requires SemRole(Sem.RoleOf(sem, p)).Has?
    ensures p in sem.holding
  {}

  /** A lease gives back its resource locks first, the last acquired first, and the
      barrier only when nothing else is left. */
  lemma ReleaseOrder(held: seq<LockId>, j: nat)
    requires held != [] && j < |held|
    ensures var i := NextRelease(held);
            && (held[j].Entry? ==> held[i].Entry? && j <= i)
            && (held[j].Tenant? ==> held[i].Entry? || held[i].Tenant?)
            && (held[j] == Parallel ==> held[i] != Barrier)
  {
    if held[NextRelease(held)] == Barrier {
      assert NextRelease(held) == |held| - 1;
    }
  }

  // ---------- Freedom from deadlock ----------

  /** The only state in which a call cannot go on by itself. */
  predicate Blocked(s: State, p: nat)
    requires p in s.procs
  {
    var status := s.procs[p].status;
    status.Waiting? && Exists(s, status.lid) && RoleAt(s, p, status.lid).Asking?
  }

  /** Steps that bring a call or a lease forward without anybody giving up. */
  predicate Progress(l: Label) {
    !l.Submit? && !l.Fail? && !l.Stop? && !l.Expire?
  }

  /** The step an unblocked call takes next. */
  function NextStep(s: State, p: nat): Label
    requires p in s.procs
  {
    var proc := s.procs[p];
    match proc.status
    case Wanting =>
      if |proc.held| < |Path(proc.call)| && NeedOf(proc).NeedKey? then Register(p) else Request(p)
    case Registered(_) => Request(p)
    case Waiting(_) => Resume(p)
    case Leaving(_) => Cleanup(p)
    case Releasing => if proc.held == [] then Finish(p) else GiveBack(p)
    case Dropping(_) => Drop(p)
    case Finished => Finish(p)
  }

  lemma UnblockedGoesOn(s: State, p: nat)
    requires LocksInv(s) && p in s.procs && ProcInv(s, p)
    requires s.procs[p].status != Finished && !Active(s.procs[p]) && !Blocked(s, p)
    ensures Enabled(s, NextStep(s, p)) && Progress(NextStep(s, p))
  {
    var proc := s.procs[p];
    match proc.status
    case Wanting =>
      var need := NeedOf(proc);
      if need.NeedTenant? {
        TenantOnPath(proc.call, |proc.held|);
      }
    case Registered(eid) => assert RefersTo(proc, eid) && Current(s, eid);
    case Dropping(eid) => assert RefersTo(proc, eid) && Current(s, eid);
    case Releasing =>
      if proc.held != [] { assert proc.held[NextRelease(proc.held)] in proc.held; }
    case _ =>
  }

  lemma TenantOnPath(call: Call, i: nat)
    requires i < |Path(call)| && Path(call)[i].NeedTenant?
    ensures call.tenant == Some(Path(call)[i].name)
  {
    assert forall k :: 1 <= k <= |call.keys| ==> Path(call)[k] == KeyNeeds(call.keys)[k - 1];
  }

  /** Whoever is asked to wait waits for somebody. */
  lemma RWHasHolder(lock: RW.State, p: nat) returns (h: nat)
    requires RW.Inv(lock) && RW.AllLive(lock) && RWRole(RW.RoleOf(lock, p)).Asking?
    ensures RWRole(RW.RoleOf(lock, h)).Has?
  {
    assert lock.queue != [] && lock.queue[0] in lock.queue;
    assert RW.Written(lock) || lock.holding != map[];
    h :| h in lock.holding;
  }

  lemma SemHasHolder(sem: Sem.State, capacity: nat, p: nat) returns (h: nat)
    requires Sem.Inv(sem, capacity) && capacity > 0 && SemRole(Sem.RoleOf(sem, p)).Asking?
    ensures SemRole(Sem.RoleOf(sem, h)).Has?
  {
    assert |sem.holding| > 0;
    h :| h in sem.holding;
  }

  lemma LockHasHolder(s: State, p: nat, lid: LockId) returns (h: nat)
    requires LocksInv(s) && ValidLimits(s.limits) && Exists(s, lid) && RoleAt(s, p, lid).Asking?
    ensures RoleAt(s, h, lid).Has?
  {
    match lid
    case Barrier => h := RWHasHolder(s.barrier, p);
    case Entry(eid) => h := RWHasHolder(s.objs[eid].lock, p);
    case Tenant(name) => h := SemHasHolder(s.tenants[name], s.limits.tenants[name], p);
    case Parallel => h := SemHasHolder(s.parallel, s.limits.parallel, p);
  }

  /** Where on its path a waiting call stands. */
  function WaitRank(s: State, p: nat): (nat, nat) {
    if p in s.procs && |s.procs[p].held| < |Path(s.procs[p].call)| then Rank(NeedOf(s.procs[p])) else (0, 0)
  }

  lemma TopWaiter(s: State, waiting: set<nat>) returns (p: nat)
    requires waiting != {}
    ensures p in waiting && forall q :: q in waiting ==> !Lower(WaitRank(s, p), WaitRank(s, q))
  {
    var first :| first in waiting;
    var rest := waiting - {first};
    p := first;
    if rest != {} {
      var q := TopWaiter(s, rest);
      if Lower(WaitRank(s, p), WaitRank(s, q)) { p := q; }
    }
    forall q | q in waiting ensures !Lower(WaitRank(s, p), WaitRank(s, q)) {
      assert q == first || q in rest;
    }
  }

  /** A call that holds the lock another one waits for is either not blocked, or
      blocked strictly further along the path. */
  lemma HolderIsAhead(s: State, p: nat, h: nat, lid: LockId)
    requires p in s.procs && ProcInv(s, p) && s.procs[p].status == Waiting(lid) && Exists(s, lid)
    requires h in s.procs && ProcInv(s, h) && Blocked(s, h) && RoleAt(s, h, lid).Has?
    ensures Lower(WaitRank(s, p), WaitRank(s, h))
  {
    var mine, theirs := s.procs[p], s.procs[h];
    assert lid in theirs.held;
    var i :| 0 <= i < |theirs.held| && theirs.held[i] == lid;
    PathClimbs(s.limits, theirs.call, i, |theirs.held|);
    assert Fits(s, Path(theirs.call)[i], lid) && Fits(s, NeedOf(mine), lid);
  }

  lemma SomebodyUnblocked(s: State, p: nat) returns (q: nat)
    requires Inv(s) && p in s.procs && s.procs[p].status != Finished
    ensures q in s.procs && s.procs[q].status != Finished && !Blocked(s, q)
  {
    if !Blocked(s, p) {
      return p;
    }
    var waiting := set w | w in s.procs && Blocked(s, w);
    assert p in waiting;
    var top := TopWaiter(s, waiting);
    var lid := s.procs[top].status.lid;
    var h := LockHasHolder(s, top, lid);
    q := h;
    HolderKnown(s, h, lid);
    assert ProcInv(s, top) && ProcInv(s, h);
    assert Blocked(s, h) <==> h in waiting;
    if Blocked(s, h) {
      HolderIsAhead(s, top, h, lid);
    }
  }

  lemma HolderKnown(s: State, h: nat, lid: LockId)
    requires Inv(s) && Exists(s, lid) && RoleAt(s, h, lid).Has?
    ensures h in s.procs && s.procs[h].status != Finished
  {
    if h in s.procs {
      assert ProcInv(s, h);
    }
  }

  /** No schedule leads to a deadlock: while any call is unfinished, some call is active
      with its tool running, or some call can take a step that needs nobody to give up. */
  lemma NoDeadlock(limits: Limits, labels: seq<Label>, p: nat) returns (q: nat)
    requires ValidLimits(limits)
    requires p in Run(limits, labels).procs && Run(limits, labels).procs[p].status != Finished
    ensures var s := Run(limits, labels);
            && q in s.procs && s.procs[q].status != Finished
            && (Active(s.procs[q]) || (Enabled(s, NextStep(s, q)) && Progress(NextStep(s, q))))
  {
    RunsAreSafe(limits, labels);
    var s := Run(limits, labels);
    q := SomebodyUnblocked(s, p);
    assert ProcInv(s, q);
    if !Active(s.procs[q]) {
      UnblockedGoesOn(s, q);
    }
  }

  // ---------- Keys that time out ----------

  /** The key whose lookup a step turns into a timeout, if that is what the step does. */
  ghost function TimedOutBy(s: State, l: Label): set<nat> {
    if l.Expire? && Enabled(s, l) then {s.objs[s.procs[l.p].status.eid].key} else {}
  }

  /** The keys that timed out between their lookup and their wait, over a schedule. */
  ghost function TimedOut(limits: Limits, labels: seq<Label>): set<nat> {
    if labels == [] then {}
    else
      var before := labels[..|labels| - 1];
      TimedOut(limits, before) + TimedOutBy(Run(limits, before), labels[|labels| - 1])
  }

  /** No call of the schedule gives up between its lookup of a key and its wait. */
  ghost predicate NoTimeout(limits: Limits, labels: seq<Label>) {
    forall k :: 0 <= k < |labels| && labels[k].Expire? ==> !Enabled(Run(limits, labels[..k]), labels[k])
  }

  lemma NoTimeoutSnoc(limits: Limits, labels: seq<Label>)
    requires labels != []
    ensures var last := |labels| - 1;
            NoTimeout(limits, labels) <==>
            && NoTimeout(limits, labels[..last])
            && !(labels[last].Expire? && Enabled(Run(limits, labels[..last]), labels[last]))
  {
    var last := |labels| - 1;
    assert forall k :: 0 <= k < last ==> labels[..last][..k] == labels[..k] && labels[..last][k] == labels[k];
  }

  lemma {:induction false} NoneTimedOut(limits: Limits, labels: seq<Label>)
    ensures TimedOut(limits, labels) == {} <==> NoTimeout(limits, labels)
  {
    if labels != [] {
      var last := |labels| - 1;
      var before := labels[..last];
      NoneTimedOut(limits, before);
      NoTimeoutSnoc(limits, labels);
    }
  }

  predicate Leaks(s: State, e: nat) {
    e in s.objs && s.objs[e].leaked > 0
  }

  ghost function LeakedKeys(s: State): set<nat> {
    set e | e in s.objs && Leaks(s, e) :: s.objs[e].key
  }

  /** An entry that lost a reference stays registered. */
  ghost predicate LeaksCurrent(s: State) {
    forall e :: Leaks(s, e) ==> Current(s, e)
  }

  /** Entries keep their leaks and the places they are registered at. */
  lemma SameLeaks(s: State, t: State)
    requires LeaksCurrent(s)
    requires forall e: nat :: Leaks(t, e) <==> Leaks(s, e)
    requires forall e :: Leaks(s, e) ==> Current(t, e) && t.objs[e].key == s.objs[e].key
    ensures LeaksCurrent(t) && LeakedKeys(t) == LeakedKeys(s)
  {
    forall k ensures k in LeakedKeys(t) <==> k in LeakedKeys(s) {
      if k in LeakedKeys(s) {
        var e :| e in s.objs && Leaks(s, e) && s.objs[e].key == k;
        assert e in t.objs && Leaks(t, e);
      }
      if k in LeakedKeys(t) {
        var e :| e in t.objs && Leaks(t, e) && t.objs[e].key == k;
        assert e in s.objs && Leaks(s, e);
      }
    }
  }

  lemma LockStepLeaks(s: State, op: LockOp, p: nat, lid: LockId, proc: Proc)
    requires LeaksCurrent(s) && p in s.procs && Exists(s, lid)
    ensures var t := WithProc(OnLock(s, op, p, s.procs[p].call, lid), p, proc);
            LeaksCurrent(t) && LeakedKeys(t) == LeakedKeys(s)
  {
    OnLockSameObjs(s, op, p, s.procs[p].call, lid);
    var t := WithProc(OnLock(s, op, p, s.procs[p].call, lid), p, proc);
    forall e: nat ensures Leaks(t, e) <==> Leaks(s, e) {
      if e in s.objs { assert t.objs[e].(lock := s.objs[e].lock) == s.objs[e]; }
    }
    forall e | Leaks(s, e) ensures Current(t, e) && t.objs[e].key == s.objs[e].key {
      assert t.objs[e].(lock := s.objs[e].lock) == s.objs[e];
    }
    SameLeaks(s, t);
  }

  lemma RegisterLeaks(s: State, p: nat, key: nat)
    requires LeaksCurrent(s) && RegistryInv(s) && p in s.procs
    ensures LeaksCurrent(Registering(s, p, key)) && LeakedKeys(Registering(s, p, key)) == LeakedKeys(s)
  {
    SameLeaks(s, Registering(s, p, key));
  }

  /** Dropping a reference never removes an entry that lost one: its count stays positive. */
  lemma DropLeaks(s: State, p: nat, eid: nat)
    requires LeaksCurrent(s) && RegistryInv(s) && eid in s.objs
    requires p in s.procs && ProcInv(s, p) && s.procs[p].status == Dropping(eid)
    ensures LeaksCurrent(Dropped(s, p, eid)) && LeakedKeys(Dropped(s, p, eid)) == LeakedKeys(s)
  {
    assert RefersTo(s.procs[p], eid) && p in Referers(s, eid);
    SameLeaks(s, Dropped(s, p, eid));
  }

  lemma ExpireLeaks(s: State, p: nat, eid: nat)
    requires LeaksCurrent(s) && eid in s.objs
    requires p in s.procs && ProcInv(s, p) && s.procs[p].status == Registered(eid)
    ensures LeaksCurrent(Expired(s, p, eid))
    ensures LeakedKeys(Expired(s, p, eid)) == LeakedKeys(s) + {s.objs[eid].key}
  {
    var t := Expired(s, p, eid);
    assert RefersTo(s.procs[p], eid) && Leaks(t, eid);
    forall e | e != eid ensures Leaks(t, e) <==> Leaks(s, e) {}
    forall k ensures k in LeakedKeys(t) <==> k in LeakedKeys(s) + {s.objs[eid].key} {
      if k in LeakedKeys(s) {
        var e :| e in s.objs && Leaks(s, e) && s.objs[e].key == k;
        assert e in t.objs && Leaks(t, e) && t.objs[e].key == k;
      }
    }
  }

  /** Steps on a lock leave the entries what they are. */
  lemma LockLabelLeaks(s: State, l: Label)
    requires LeaksCurrent(s) && Enabled(s, l) && (l.Request? || l.Cleanup? || l.GiveBack?)
    ensures LeaksCurrent(After(s, l)) && LeakedKeys(After(s, l)) == LeakedKeys(s)
  {
    match l
    case Request(p) =>
      var lid := Target(s.procs[p]).value;
      LockStepLeaks(s, Ask, p, lid, s.procs[p].(status := Waiting(lid)));
    case Cleanup(p) =>
      var lid := s.procs[p].status.lid;
      LockStepLeaks(s, Quit, p, lid, s.procs[p].(status := Next(lid)));
    case GiveBack(p) =>
      var i := NextRelease(s.procs[p].held);
      LockStepLeaks(s, Give, p, s.procs[p].held[i], Given(s.procs[p], i));
  }

  lemma StepLeaks(s: State, l: Label)
    requires LeaksCurrent(s) && RegistryInv(s) && Enabled(s, l)
    requires forall p :: p in s.procs ==> ProcInv(s, p)
    ensures LeaksCurrent(After(s, l)) && LeakedKeys(After(s, l)) == LeakedKeys(s) + TimedOutBy(s, l)
  {
    match l
    case Register(p) => RegisterLeaks(s, p, NeedOf(s.procs[p]).key);
    case Request(_) => LockLabelLeaks(s, l);
    case Cleanup(_) => LockLabelLeaks(s, l);
    case GiveBack(_) => LockLabelLeaks(s, l);
    case Expire(p) => ExpireLeaks(s, p, s.procs[p].status.eid);
    case Drop(p) => DropLeaks(s, p, s.procs[p].status.eid);
    case _ => SameLeaks(s, After(s, l));
  }

  /** The entries that lost a reference are registered, and they are those of the keys
      that timed out: in every reachable state, however many calls are still running. */
  lemma {:induction false} TimedOutStayRegistered(limits: Limits, labels: seq<Label>)
    requires ValidLimits(limits)
    ensures var s := Run(limits, labels);
            && LeaksCurrent(s) && LeakedKeys(s) == TimedOut(limits, labels)
            && TimedOut(limits, labels) <= s.registry.Keys
  {
    var s := Run(limits, labels);
    if labels != [] {
      var before, l := labels[..|labels| - 1], labels[|labels| - 1];
      TimedOutStayRegistered(limits, before);
      RunsAreSafe(limits, before);
      if Enabled(Run(limits, before), l) { StepLeaks(Run(limits, before), l); }
    }
    forall k | k in LeakedKeys(s) ensures k in s.registry {
      var e :| e in s.objs && Leaks(s, e) && s.objs[e].key == k;
      assert Current(s, e);
    }
  }

  lemma RunSnoc(limits: Limits, labels: seq<Label>, l: Label)
    requires Enabled(Run(limits, labels), l)
    ensures Run(limits, labels + [l]) == After(Run(limits, labels), l)
  {
    assert (labels + [l])[..|labels|] == labels;
  }

  lemma {:induction false} TimedOutGrows(limits: Limits, labels: seq<Label>, rest: seq<Label>)
    ensures TimedOut(limits, labels) <= TimedOut(limits, labels + rest)
  {
    if rest == [] {
      assert labels + rest == labels;
    } else {
      TimedOutGrows(limits, labels, rest[..|rest| - 1]);
      assert (labels + rest)[..|labels + rest| - 1] == labels + rest[..|rest| - 1];
    }
  }

  lemma LookupMayExpire(s: State, p: nat)
    requires RegistryInv(s) && MayRegister(s, p)
    ensures var key := NeedOf(s.procs[p]).key;
            && Enabled(s, Register(p)) && Enabled(After(s, Register(p)), Expire(p))
            && TimedOutBy(After(s, Register(p)), Expire(p)) == {key}
            && After(s, Register(p)).procs == s.procs[p := s.procs[p].(status := Registered(EntryFor(s, key)))]
  {
    RegisterLooks(s, p, NeedOf(s.procs[p]).key);
  }

  lemma LookupTimesOut(limits: Limits, labels: seq<Label>, p: nat)
    requires ValidLimits(limits) && MayRegister(Run(limits, labels), p)
    ensures NeedOf(Run(limits, labels).procs[p]).key in TimedOut(limits, labels + [Register(p), Expire(p)])
  {
    var looked := labels + [Register(p)];
    RunsAreSafe(limits, labels);
    LookupMayExpire(Run(limits, labels), p);
    RunSnoc(limits, labels, Register(p));
    TimedOutSnoc(limits, looked, Expire(p));
    assert looked + [Expire(p)] == labels + [Register(p), Expire(p)];
  }

  lemma TimedOutSnoc(limits: Limits, labels: seq<Label>, l: Label)
    ensures TimedOut(limits, labels + [l]) == TimedOut(limits, labels) + TimedOutBy(Run(limits, labels), l)
  {
    assert (labels + [l])[..|labels|] == labels;
  }

  /** A key that times out right after its lookup stays registered for good, whatever
      the schedule does afterwards. */
  lemma TimeoutLeaks(limits: Limits, labels: seq<Label>, p: nat, rest: seq<Label>)
    requires ValidLimits(limits) && MayRegister(Run(limits, labels), p)
    ensures var key := NeedOf(Run(limits, labels).procs[p]).key;
            key in Run(limits, labels + [Register(p), Expire(p)] + rest).registry
  {
    var all := labels + [Register(p), Expire(p)];
    LookupTimesOut(limits, labels, p);
    TimedOutGrows(limits, all, rest);
    TimedOutStayRegistered(limits, all + rest);
  }

  /** A call alone with a lock is granted at once. */
  lemma AloneIsGranted(s: State, p: nat, lid: LockId)
    requires Inv(s) && s.procs.Keys == {p} && s.procs[p].status == Waiting(lid)
    ensures Exists(s, lid) && RoleAt(s, p, lid).Has?
  {
    assert ProcInv(s, p);
    if RoleAt(s, p, lid).Asking? {
      var h := LockHasHolder(s, p, lid);
      HolderKnown(s, h, lid);
    }
  }

  /** `s` has one call, with record `proc`. */
  predicate Sole(s: State, proc: Proc) {
    s.procs.Keys == {0} && s.procs[0] == proc
  }

  lemma SoleRequests(s: State, call: Call)
    requires Sole(s, Proc(call, [], Wanting))
    ensures Enabled(s, Request(0)) && Sole(After(s, Request(0)), Proc(call, [], Waiting(Barrier)))
  {
    assert NeedOf(s.procs[0]) == NeedBarrier;
    OnLockSameObjs(s, Ask, 0, call, Barrier);
  }

  lemma SoleResumes(s: State, call: Call)
    requires Inv(s) && Sole(s, Proc(call, [], Waiting(Barrier)))
    ensures Enabled(s, Resume(0)) && Sole(After(s, Resume(0)), Proc(call, [Barrier], Wanting))
  {
    AloneIsGranted(s, 0, Barrier);
  }

  lemma SoleGivesBack(s: State, call: Call)
    requires Sole(s, Proc(call, [Barrier], Releasing))
    ensures Enabled(s, GiveBack(0)) && Sole(After(s, GiveBack(0)), Proc(call, [], Releasing))
  {
    assert NextRelease([Barrier]) == 0 && Minus([Barrier], 0) == [];
    OnLockSameObjs(s, Give, 0, call, Barrier);
  }

  /** What a call does, alone, whose first key times out before its wait. */
  function TimeoutStart(call: Call): seq<Label> {
    [Submit(0, call), Request(0), Resume(0)]
  }

  lemma StartsWithBarrier(limits: Limits, call: Call)
    requires ValidLimits(limits) && ValidCall(limits, call)
    ensures Sole(Run(limits, TimeoutStart(call)), Proc(call, [Barrier], Wanting))
  {
    var submitted := [Submit(0, call)];
    assert submitted == [] + [Submit(0, call)];
    RunSnoc(limits, [], Submit(0, call));
    SoleRequests(Run(limits, submitted), call);
    RunSnoc(limits, submitted, Request(0));
    assert submitted + [Request(0)] == [Submit(0, call), Request(0)];
    RunsAreSafe(limits, [Submit(0, call), Request(0)]);
    SoleResumes(Run(limits, [Submit(0, call), Request(0)]), call);
    RunSnoc(limits, [Submit(0, call), Request(0)], Resume(0));
    assert [Submit(0, call), Request(0)] + [Resume(0)] == TimeoutStart(call);
  }

  lemma SoleExpires(limits: Limits, labels: seq<Label>, call: Call)
    requires ValidLimits(limits) && call.keys != [] && Sole(Run(limits, labels), Proc(call, [Barrier], Wanting))
    ensures MayRegister(Run(limits, labels), 0) && NeedOf(Run(limits, labels).procs[0]) == NeedKey(call.keys[0])
    ensures Sole(Run(limits, labels + [Register(0), Expire(0)]), Proc(call, [Barrier], Releasing))
  {
    assert Path(call)[1] == KeyNeeds(call.keys)[0];
    RunsAreSafe(limits, labels);
    LookupMayExpire(Run(limits, labels), 0);
    RunSnoc(limits, labels, Register(0));
    RunSnoc(limits, labels + [Register(0)], Expire(0));
    assert labels + [Register(0)] + [Expire(0)] == labels + [Register(0), Expire(0)];
  }

  lemma SoleEnds(limits: Limits, labels: seq<Label>, call: Call)
    requires Sole(Run(limits, labels), Proc(call, [Barrier], Releasing))
    ensures Sole(Run(limits, labels + [GiveBack(0), Finish(0)]), Proc(call, [], Finished))
  {
    SoleGivesBack(Run(limits, labels), call);
    RunSnoc(limits, labels, GiveBack(0));
    RunSnoc(limits, labels + [GiveBack(0)], Finish(0));
    assert labels + [GiveBack(0)] + [Finish(0)] == labels + [GiveBack(0), Finish(0)];
  }

  /** Any call with a resource key, run alone to its end, can leave its key registered. */
  lemma LeakWitness(limits: Limits, call: Call)
    requires ValidLimits(limits) && ValidCall(limits, call) && call.keys != []
    ensures var s := Run(limits, TimeoutStart(call) + [Register(0), Expire(0)] + [GiveBack(0), Finish(0)]);
            && (forall p :: p in s.procs ==> s.procs[p].status == Finished)
            && call.keys[0] in s.registry
  {
    var labels := TimeoutStart(call);
    StartsWithBarrier(limits, call);
    SoleExpires(limits, labels, call);
    SoleEnds(limits, labels + [Register(0), Expire(0)], call);
    TimeoutLeaks(limits, labels, 0, [GiveBack(0), Finish(0)]);
  }

  // ---------- Conservation ----------

  /** Once every call has finished, everything acquired has been given back: the barrier
      and every resource lock are free and every semaphore is full. The registry keeps
      exactly the keys that timed out between their lookup and their wait, so it is empty
      if and only if the schedule has no such timeout. */
  lemma EverythingGivenBack(limits: Limits, labels: seq<Label>)
    requires ValidLimits(limits)
    requires var s := Run(limits, labels); forall p :: p in s.procs ==> s.procs[p].status == Finished
    ensures var s := Run(limits, labels);
            && s.barrier.holding == map[] && s.barrier.queue == []
            && (forall e :: e in s.objs ==> s.objs[e].lock.holding == map[] && s.objs[e].lock.queue == [])
            && s.parallel.free == limits.parallel
            && (forall t :: t in limits.tenants ==> t in s.tenants && s.tenants[t].free == limits.tenants[t])
            && (forall k :: k in s.registry ==> s.registry[k] in s.objs && s.objs[s.registry[k]].leaked > 0)
            && s.registry.Keys == TimedOut(limits, labels)
            && (s.registry == map[] <==> NoTimeout(limits, labels))
  {
    RunsAreSafe(limits, labels);
    var s := Run(limits, labels);
    forall p: nat, lid | Exists(s, lid) ensures RoleAt(s, p, lid) in {Out, Stale} {
      QuietRole(s, p, lid);
    }
    QuietLock(s, Barrier);
    forall e | e in s.objs ensures s.objs[e].lock.holding == map[] && s.objs[e].lock.queue == [] {
      QuietLock(s, Entry(e));
    }
    QuietLock(s, Parallel);
    forall t | t in limits.tenants ensures t in s.tenants && s.tenants[t].free == limits.tenants[t] {
      QuietLock(s, Tenant(t));
    }
    RegistryLeft(limits, labels);
  }

  lemma RegistryKeysLeft(limits: Limits, labels: seq<Label>)
    requires ValidLimits(limits)
    requires var s := Run(limits, labels); forall p :: p in s.procs ==> s.procs[p].status == Finished
    ensures var s := Run(limits, labels);
            && (forall k :: k in s.registry ==> s.registry[k] in s.objs && s.objs[s.registry[k]].leaked > 0)
            && s.registry.Keys == TimedOut(limits, labels)
  {
    RunsAreSafe(limits, labels);
    TimedOutStayRegistered(limits, labels);
    QuietRegistry(Run(limits, labels));
  }

  lemma RegistryLeft(limits: Limits, labels: seq<Label>)
    requires ValidLimits(limits)
    requires var s := Run(limits, labels); forall p :: p in s.procs ==> s.procs[p].status == Finished
    ensures var s := Run(limits, labels);
            && (forall k :: k in s.registry ==> s.registry[k] in s.objs && s.objs[s.registry[k]].leaked > 0)
            && s.registry.Keys == TimedOut(limits, labels)
            && (s.registry == map[] <==> NoTimeout(limits, labels))
  {
    RegistryKeysLeft(limits, labels);
    NoneTimedOut(limits, labels);
    NoKeysNoEntries(Run(limits, labels).registry);
  }

  lemma QuietRegistry(s: State)
    requires RegistryInv(s) && forall p :: p in s.procs ==> ProcInv(s, p) && s.procs[p].status == Finished
    ensures forall k :: k in s.registry ==> s.registry[k] in s.objs && s.objs[s.registry[k]].leaked > 0
    ensures s.registry.Keys <= LeakedKeys(s)
  {
    forall k | k in s.registry ensures k in LeakedKeys(s) && s.objs[s.registry[k]].leaked > 0 {
      QuietReferers(s, s.registry[k]);
      assert Leaks(s, s.registry[k]) && s.objs[s.registry[k]].key == k;
    }
  }

  lemma NoKeysNoEntries(m: map<nat, nat>)
    ensures m == map[] <==> m.Keys == {}
  {}

  lemma QuietRole(s: State, p: nat, lid: LockId)
    requires Strangers(s) && Exists(s, lid)
    requires p in s.procs ==> ProcInv(s, p) && s.procs[p].status == Finished
    ensures RoleAt(s, p, lid) in {Out, Stale}
  {}

  lemma QuietReferers(s: State, e: nat)
    requires forall p :: p in s.procs ==> ProcInv(s, p) && s.procs[p].status == Finished
    ensures Referers(s, e) == {}
  {
    forall p | p in s.procs ensures !RefersTo(s.procs[p], e) {
      assert ProcInv(s, p);
    }
  }

  lemma QuietLock(s: State, lid: LockId)
    requires LocksInv(s) && Exists(s, lid) && forall p: nat :: RoleAt(s, p, lid) in {Out, Stale}
    ensures match lid
            case Barrier => s.barrier.holding == map[] && s.barrier.queue == []
            case Entry(e) => s.objs[e].lock.holding == map[] && s.objs[e].lock.queue == []
            case Tenant(t) => s.tenants[t].free == s.limits.tenants[t]
            case Parallel => s.parallel.free == s.limits.parallel
  {
    match lid
    case Barrier =>
      forall p: nat ensures RWRole(RW.RoleOf(s.barrier, p)) in {Out, Stale} {
        assert RoleAt(s, p, lid) in {Out, Stale};
      }
      IdleIfNobody(s.barrier);
    case Entry(e) =>
      forall p: nat ensures RWRole(RW.RoleOf(s.objs[e].lock, p)) in {Out, Stale} {
        assert RoleAt(s, p, lid) in {Out, Stale};
      }
      IdleIfNobody(s.objs[e].lock);
    case Tenant(t) => FullIfNobody(s, lid, s.tenants[t], s.limits.tenants[t]);
    case Parallel => FullIfNobody(s, lid, s.parallel, s.limits.parallel);
  }

  lemma FullIfNobody(s: State, lid: LockId, sem: Sem.State, capacity: nat)
    requires Sem.Inv(sem, capacity) && Exists(s, lid)
    requires forall p: nat :: RoleAt(s, p, lid) in {Out, Stale}
    requires forall p: nat :: SemRole(Sem.RoleOf(sem, p)) == RoleAt(s, p, lid)
    ensures sem.free == capacity
  {
    if sem.holding != {} {
      var p :| p in sem.holding;
      var role := SemRole(Sem.RoleOf(sem, p));
    }
  }
}
