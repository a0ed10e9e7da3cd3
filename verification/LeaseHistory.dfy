/**
 What the lock table answers, told by the history of the leases: who took a key, when it
 was last extended, and whether it was released or ran out.
 */
module LeaseHistory {
  import opened Basics
  import RW = FairRWLock
  import opened LockTable

  /** What an operation makes of the lease of `owner` on `key`: its granted acquire takes it,
      its renewal extends it if that comes in time, its release ends it, and so does the
      next grant of anybody once it has expired. */
  function NextLease(lease: Option<Row>, op: Op, granted: bool, key: string, owner: string): Option<Row> {
    var named := op.owner == owner && key in op.keys;
    match op
    case Release(_, _) => if named then None else lease
    case Renew(now, extension, _, _) =>
      if named && lease.Some? && lease.value.expires > now then Some(Row(lease.value.access, now + extension))
      else lease
    case Acquire(now, extension, _, _, access) =>
      if granted && named then Some(Row(access, now + extension))
      else if granted && lease.Some? && lease.value.expires <= now then None
      else lease
  }

  /** The lease of an owner on a key before the `n`-th operation. */
  function LeaseAt(ops: seq<Op>, n: nat, key: string, owner: string): Option<Row>
    requires n <= |ops|
  {
    LeaseIn(At(ops, n), key, owner)
  }

  function LeaseIn(t: Table, key: string, owner: string): Option<Row> {
    if (key, owner) in t.rows then Some(t.rows[(key, owner)]) else None
  }

  lemma StepLease(t: Table, op: Op, key: string, owner: string)
    ensures LeaseIn(Step(t, op).0, key, owner)
            == NextLease(LeaseIn(t, key, owner), op, Step(t, op).1.Granted?, key, owner)
  {}

  /** Nobody has a lease at first, and every operation changes the lease of every owner on
      every key as told, whatever the clocks: nothing else takes, extends or ends one. */
  lemma LeaseFollows(ops: seq<Op>, n: nat, key: string, owner: string)
    requires n <= |ops|
    ensures if n == 0 then LeaseAt(ops, n, key, owner) == None
            else LeaseAt(ops, n, key, owner)
                 == NextLease(LeaseAt(ops, n - 1, key, owner), ops[n - 1], AnswerAt(ops, n - 1).Granted?, key, owner)
  {
    if n > 0 {
      StepLease(At(ops, n - 1), ops[n - 1], key, owner);
    }
  }

  /** The lease is still running at a clock reading. */
  predicate Running(ops: seq<Op>, n: nat, key: string, owner: string, now: int)
    requires n <= |ops|
  {
    LeaseAt(ops, n, key, owner).Some? && LeaseAt(ops, n, key, owner).value.expires > now
  }

  /** An acquire is granted exactly when no lease of another owner on one of its keys is
      still running, or both only read: readers share, and an expired or released lease
      stands in nobody's way. */
  lemma GrantedIff(ops: seq<Op>, i: nat)
    requires i < |ops| && ops[i].Acquire?
    ensures AnswerAt(ops, i).Granted? <==>
      forall key, owner :: key in ops[i].keys && owner != ops[i].owner && Running(ops, i, key, owner, ops[i].now) ==>
        ops[i].access == LeaseAt(ops, i, key, owner).value.access == RW.Read
  {
    var op := ops[i];
    var live := Unexpired(At(ops, i).rows, op.now);
    if AnswerAt(ops, i).Granted? {
      forall key, owner | key in op.keys && owner != op.owner && Running(ops, i, key, owner, op.now)
        ensures op.access == LeaseAt(ops, i, key, owner).value.access == RW.Read
      {
        assert (key, owner) in live;
      }
    } else {
      var s :| s in live && s.0 in op.keys && s.1 != op.owner && (op.access == RW.Write || live[s].access == RW.Write);
      assert Running(ops, i, s.0, s.1, op.now);
    }
  }

  /** A renewal succeeds exactly when the owner's leases on all its keys are still running
      and no key is named twice. */
  lemma RenewedIff(ops: seq<Op>, i: nat)
    requires i < |ops| && ops[i].Renew?
    ensures AnswerAt(ops, i) == Renewed(true) <==>
      NoRepeats(ops[i].keys) && forall key :: key in ops[i].keys ==> Running(ops, i, key, ops[i].owner, ops[i].now)
  {
    var (keys, owner, now) := (ops[i].keys, ops[i].owner, ops[i].now);
    var kept := Kept(At(ops, i).rows, keys, owner, now);
    forall key ensures key in kept <==> key in keys && Running(ops, i, key, owner, now) {}
    KeptSize(keys, kept);
  }

  lemma KeptSize(keys: seq<string>, kept: set<string>)
    requires forall k :: k in kept ==> k in keys
    ensures |kept| == |keys| <==> NoRepeats(keys) && forall k :: k in keys ==> k in kept
  {
    var all := set k | k in keys;
    SetOfSeqSize(keys);
    SubsetSize(kept, all);
    DistinctSize(keys);
    if |kept| == |keys| {
      EqualSets(kept, all);
    } else if forall k :: k in keys ==> k in kept {
      assert kept == all;
    }
  }

  lemma EqualSets(a: set<string>, b: set<string>)
    requires a <= b && |a| >= |b|
    ensures a == b
  {
    assert b == a + (b - a);
  }

  lemma {:induction false} DistinctSize(keys: seq<string>)
    ensures |set k | k in keys| == |keys| <==> NoRepeats(keys)
  {
    if keys != [] {
      var (rest, last) := (keys[..|keys| - 1], keys[|keys| - 1]);
      DistinctSize(rest);
      SetOfSeqSize(rest);
      assert keys == rest + [last];
      assert (set k | k in keys) == (set k | k in rest) + {last};
      RepeatsSnoc(rest, last);
    }
  }

  lemma RepeatsSnoc(rest: seq<string>, last: string)
    ensures NoRepeats(rest + [last]) <==> NoRepeats(rest) && last !in rest
  {
    var keys := rest + [last];
    if NoRepeats(keys) {
      forall p, q | 0 <= p < q < |rest| ensures rest[p] != rest[q] {
        assert keys[p] != keys[q];
      }
      forall p | 0 <= p < |rest| ensures rest[p] != last {
        assert keys[p] != keys[|rest|];
      }
    }
  }
}
