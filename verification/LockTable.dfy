/**
 The lock table shared by processes: rows of (resource key, owner) with a mode and an
 expiry time, and a fencing counter. Each operation is one transaction. Every caller
 brings its own clock, so nothing is assumed about the times of successive operations.
 */
module LockTable {
  import opened Basics
  import RW = FairRWLock

  datatype Row = Row(access: RW.Access, expires: int)

  type Slot = (string, string)

  datatype Table = Table(rows: map<Slot, Row>, lastToken: nat)

  const Empty := Table(map[], 0)

  datatype Op =
    | Acquire(now: int, lease: nat, keys: seq<string>, owner: string, access: RW.Access)
    | Renew(now: int, lease: nat, keys: seq<string>, owner: string)
    | Release(keys: seq<string>, owner: string)

  /** The answer of a transaction: a fencing token, a yes or no, or nothing. */
  datatype Answer = Granted(token: nat) | Refused | Renewed(ok: bool) | Done

  // ---------- The transactions ----------

  function Unexpired(rows: map<Slot, Row>, now: int): map<Slot, Row> {
    map s | s in rows && rows[s].expires > now :: rows[s]
  }

  /** Somebody else's row on one of the keys is in the way. */
  predicate Blocked(rows: map<Slot, Row>, keys: seq<string>, owner: string, access: RW.Access) {
    exists s | s in rows :: s.0 in keys && s.1 != owner && (access == RW.Write || rows[s].access == RW.Write)
  }

  function Inserted(rows: map<Slot, Row>, keys: seq<string>, owner: string, row: Row): (r: map<Slot, Row>)
    ensures forall s :: s in r <==> s in rows || (s.1 == owner && s.0 in keys)
    ensures forall s :: s in r ==> r[s] == if s.1 == owner && s.0 in keys then row else rows[s]
  {
    if keys == [] then rows
    else
      var rest := keys[..|keys| - 1];
      assert keys == rest + [keys[|keys| - 1]];
      Inserted(rows, rest, owner, row)[(keys[|keys| - 1], owner) := row]
  }

  /** The keys on which `owner` still has an unexpired row. */
  function Kept(rows: map<Slot, Row>, keys: seq<string>, owner: string, now: int): set<string> {
    set k | k in keys && (k, owner) in rows && rows[(k, owner)].expires > now
  }

  function Extended(rows: map<Slot, Row>, kept: set<string>, owner: string, expires: int): map<Slot, Row> {
    map s | s in rows :: if s.1 == owner && s.0 in kept then rows[s].(expires := expires) else rows[s]
  }

  function Cleared(rows: map<Slot, Row>, keys: seq<string>, owner: string): map<Slot, Row> {
    map s | s in rows && !(s.1 == owner && s.0 in keys) :: rows[s]
  }

  /** A refused acquire rolls everything back, the removal of expired rows included. */
  function Step(t: Table, op: Op): (Table, Answer) {
    match op
    case Acquire(now, lease, keys, owner, access) =>
      var live := Unexpired(t.rows, now);
      if Blocked(live, keys, owner, access) then (t, Refused)
      else (Table(Inserted(live, keys, owner, Row(access, now + lease)), t.lastToken + 1), Granted(t.lastToken + 1))
    case Renew(now, lease, keys, owner) =>
      var kept := Kept(t.rows, keys, owner, now);
      (t.(rows := Extended(t.rows, kept, owner, now + lease)), Renewed(|kept| == |keys|))
    case Release(keys, owner) => (t.(rows := Cleared(t.rows, keys, owner)), Done)
  }

  /** The table before the `n`-th operation of a run that starts empty. */
  function At(ops: seq<Op>, n: nat): Table
    requires n <= |ops|
  {
    if n == 0 then Empty else Step(At(ops, n - 1), ops[n - 1]).0
  }

  /** The answer to the `i`-th operation. */
  function AnswerAt(ops: seq<Op>, i: nat): Answer
    requires i < |ops|
  {
    Step(At(ops, i), ops[i]).1
  }

  // ---------- Exclusion ----------

  /** On every key either all rows are readers or there is a single owner. */
  ghost predicate Exclusive(rows: map<Slot, Row>) {
    forall a, b :: a in rows && b in rows && a.0 == b.0 && a.1 != b.1 ==>
      rows[a].access == RW.Read && rows[b].access == RW.Read
  }

  lemma StepExclusive(t: Table, op: Op)
    requires Exclusive(t.rows)
    ensures Exclusive(Step(t, op).0.rows)
  {
    if op.Acquire? {
      var live := Unexpired(t.rows, op.now);
      if !Blocked(live, op.keys, op.owner, op.access) {
        forall s | s in live && s.0 in op.keys && s.1 != op.owner
          ensures op.access == RW.Read && live[s].access == RW.Read {}
      }
    }
  }

  /** Reader/writer exclusion holds after any operations with any clocks. */
  lemma {:induction false} ExclusiveOverRuns(ops: seq<Op>, n: nat)
    requires n <= |ops|
    ensures Exclusive(At(ops, n).rows)
  {
    if n > 0 {
      ExclusiveOverRuns(ops, n - 1);
      StepExclusive(At(ops, n - 1), ops[n - 1]);
    }
  }

  /** A multi-key acquire takes every key in the requested mode or changes nothing. */
  lemma AllOrNothing(t: Table, op: Op)
    requires op.Acquire?
    ensures var (next, answer) := Step(t, op);
            if answer.Granted?
            then forall k :: k in op.keys ==>
                   (k, op.owner) in next.rows && next.rows[(k, op.owner)] == Row(op.access, op.now + op.lease)
            else answer == Refused && next == t
  {}

  // ---------- Fencing ----------

  lemma {:induction false} TokensOnlyGrow(ops: seq<Op>, i: nat, j: nat)
    requires i <= j <= |ops|
    ensures At(ops, i).lastToken <= At(ops, j).lastToken
    decreases j - i
  {
    if i < j {
      TokensOnlyGrow(ops, i, j - 1);
    }
  }

  /** Every grant gets a fencing token above all earlier ones, so the holder it may have
      superseded is fenced off. */
  lemma TokensIncrease(ops: seq<Op>, i: nat, j: nat)
    requires i < j < |ops| && AnswerAt(ops, i).Granted? && AnswerAt(ops, j).Granted?
    ensures AnswerAt(ops, i).token < AnswerAt(ops, j).token
  {
    TokensOnlyGrow(ops, i + 1, j);
  }

  // ---------- What a successful renewal proves ----------

  /** A row that is there after a step not acquired by its owner was there before. */
  lemma RowNotNew(t: Table, op: Op, s: Slot)
    requires s in Step(t, op).0.rows && !(op.Acquire? && op.owner == s.1)
    ensures s in t.rows && Step(t, op).0.rows[s].access == t.rows[s].access
    ensures op.Acquire? && Step(t, op).1.Granted? && s.0 in op.keys ==>
      op.access == RW.Read && t.rows[s].access == RW.Read
  {
    if op.Acquire? && Step(t, op).1.Granted? {
      var live := Unexpired(t.rows, op.now);
      assert s in live && !Blocked(live, op.keys, op.owner, op.access);
    }
  }

  ghost predicate NotReacquired(ops: seq<Op>, from: nat, upto: nat, owner: string)
    requires upto <= |ops|
  {
    forall m :: from <= m < upto ==> !(ops[m].Acquire? && ops[m].owner == owner)
  }

  /** A row there at the end of a stretch was there all along it, in the same mode. */
  lemma {:induction false} RowThroughout(ops: seq<Op>, from: nat, upto: nat, s: Slot)
    requires from <= upto <= |ops| && NotReacquired(ops, from, upto, s.1)
    requires s in At(ops, upto).rows
    ensures s in At(ops, from).rows && At(ops, from).rows[s].access == At(ops, upto).rows[s].access
    decreases upto
  {
    if from < upto {
      RowNotNew(At(ops, upto - 1), ops[upto - 1], s);
      RowThroughout(ops, from, upto - 1, s);
    }
  }

  lemma RenewedRow(ops: seq<Op>, j: nat, key: string)
    requires j < |ops| && ops[j].Renew? && AnswerAt(ops, j) == Renewed(true) && key in ops[j].keys
    ensures (key, ops[j].owner) in At(ops, j).rows
  {
    AllKept(At(ops, j).rows, ops[j].keys, ops[j].owner, ops[j].now);
  }

  lemma GrantedRow(ops: seq<Op>, i: nat, key: string)
    requires i < |ops| && ops[i].Acquire? && AnswerAt(ops, i).Granted? && key in ops[i].keys
    ensures (key, ops[i].owner) in At(ops, i + 1).rows
    ensures At(ops, i + 1).rows[(key, ops[i].owner)].access == ops[i].access
  {
    AllOrNothing(At(ops, i), ops[i]);
  }

  /** A grant between two points of a stretch over which a row lasts does not conflict
      with the row. */
  lemma GrantBeside(ops: seq<Op>, from: nat, m: nat, upto: nat, s: Slot)
    requires from <= m < upto <= |ops| && NotReacquired(ops, from, upto, s.1)
    requires s in At(ops, upto).rows
    requires ops[m].Acquire? && AnswerAt(ops, m).Granted? && s.0 in ops[m].keys
    ensures ops[m].access == RW.Read
    ensures s in At(ops, from).rows && At(ops, from).rows[s].access == RW.Read
  {
    RowThroughout(ops, m + 1, upto, s);
    RowNotNew(At(ops, m), ops[m], s);
    RowThroughout(ops, from, m, s);
  }

  lemma LeaseRowLasts(ops: seq<Op>, i: nat, from: nat, j: nat, key: string)
    requires i < j < |ops| && from == i + 1
    requires ops[i].Acquire? && AnswerAt(ops, i).Granted? && key in ops[i].keys
    requires ops[j].Renew? && ops[j].owner == ops[i].owner && AnswerAt(ops, j) == Renewed(true) && key in ops[j].keys
    ensures (key, ops[i].owner) in At(ops, from).rows
    ensures At(ops, from).rows[(key, ops[i].owner)].access == ops[i].access
    ensures (key, ops[i].owner) in At(ops, j).rows
  {
    GrantedRow(ops, i, key);
    RenewedRow(ops, j, key);
  }

  lemma LeaseUndisturbed(ops: seq<Op>, from: nat, m: nat, upto: nat, s: Slot, access: RW.Access)
    requires from <= m < upto <= |ops| && NotReacquired(ops, from, upto, s.1)
    requires s in At(ops, from).rows ==> At(ops, from).rows[s].access == access
    requires s in At(ops, upto).rows
    requires ops[m].Acquire? && AnswerAt(ops, m).Granted? && s.0 in ops[m].keys
    ensures access == RW.Read && ops[m].access == RW.Read
  {
    GrantBeside(ops, from, m, upto, s);
  }

  /** The lease protocol. An owner that acquired at step `i` and whose renewal of distinct
      keys at step `j` succeeded had no conflicting grant on those keys in between,
      whatever clocks the other processes used. */
  lemma RenewalProvesExclusion(ops: seq<Op>, i: nat, m: nat, j: nat, key: string)
    requires i < m < j < |ops|
    requires ops[i].Acquire? && AnswerAt(ops, i).Granted? && key in ops[i].keys
    requires ops[j].Renew? && ops[j].owner == ops[i].owner && AnswerAt(ops, j) == Renewed(true)
    requires key in ops[j].keys && NotReacquired(ops, i + 1, j, ops[i].owner)
    requires ops[m].Acquire? && AnswerAt(ops, m).Granted? && key in ops[m].keys
    ensures ops[i].access == RW.Read && ops[m].access == RW.Read
  {
    var from: nat :| from == i + 1;  // the table right after the acquire
    LeaseRowLasts(ops, i, from, j, key);
    LeaseUndisturbed(ops, from, m, j, (key, ops[i].owner), ops[i].access);
  }

  lemma AllKept(rows: map<Slot, Row>, keys: seq<string>, owner: string, now: int)
    requires |Kept(rows, keys, owner, now)| == |keys|
    ensures forall k :: k in keys ==> k in Kept(rows, keys, owner, now)
  {
    var all := set k | k in keys;
    SetOfSeqSize(keys);
    var kept := Kept(rows, keys, owner, now);
    if k :| k in keys && k !in kept {
      assert kept <= all - {k};
      SubsetSize(kept, all - {k});
    }
  }

  lemma SetOfSeqSize(keys: seq<string>)
    ensures |set k | k in keys| <= |keys|
  {
    if keys != [] {
      var rest := keys[..|keys| - 1];
      SetOfSeqSize(rest);
      assert keys == rest + [keys[|keys| - 1]];
      assert (set k | k in keys) == (set k | k in rest) + {keys[|keys| - 1]};
    }
  }

  // ---------- The running backend ----------

  method InsertAll(live: map<Slot, Row>, keys: seq<string>, owner: string, row: Row) returns (rows: map<Slot, Row>)
    ensures rows == Inserted(live, keys, owner, row)
  {
    rows := live;
    for i := 0 to |keys|
      invariant rows == Inserted(live, keys[..i], owner, row)
    {
      assert keys[..i + 1][..i] == keys[..i];
      rows := rows[(keys[i], owner) := row];
    }
    assert keys[..|keys|] == keys;
  }

  class ResourceLockBackend {
    var rows: map<Slot, Row>
    var lastToken: nat

    function View(): Table
      reads this
    {
      Table(rows, lastToken)
    }

    constructor ()
      ensures View() == Empty
    {
      rows, lastToken := map[], 0;
    }

    method TryAcquire(now: int, lease: nat, keys: seq<string>, owner: string, access: RW.Access)
      returns (token: Option<nat>)
      modifies this
      ensures var (next, answer) := Step(old(View()), Acquire(now, lease, keys, owner, access));
              View() == next && answer == if token.Some? then Granted(token.value) else Refused
    {
      var before := rows;
      rows := Unexpired(rows, now);
      if Blocked(rows, keys, owner, access) {
        rows := before;
        return None;
      }
      rows := InsertAll(rows, keys, owner, Row(access, now + lease));
      lastToken := lastToken + 1;
      return Some(lastToken);
    }

    /** True only when every requested key was still held and is now extended. */
    method Renew(now: int, lease: nat, keys: seq<string>, owner: string) returns (ok: bool)
      modifies this
      ensures (View(), Renewed(ok)) == Step(old(View()), Op.Renew(now, lease, keys, owner))
    {
      if keys == [] {
        assert Extended(rows, Kept(rows, keys, owner, now), owner, now + lease) == rows;
        return true;
      }
      var kept := Kept(rows, keys, owner, now);
      rows := Extended(rows, kept, owner, now + lease);
      ok := |kept| == |keys|;
    }

    method Release(keys: seq<string>, owner: string)
      modifies this
      ensures (View(), Done) == Step(old(View()), Op.Release(keys, owner))
    {
      rows := Cleared(rows, keys, owner);
    }
  }
}
