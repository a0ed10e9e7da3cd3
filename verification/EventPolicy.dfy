/**
 What becomes of one event pushed into the bounded stream, from the buffer's contents alone:
 nothing is evicted, coalesced or refused while the event fits, no more is evicted than
 needed, and an event is refused only when what may not be evicted leaves no room.
 */
module EventPolicy {
  import opened Basics
  import opened EventQueue
  import S = EventStream

  /** The items that may not be evicted: how many, and their bytes. */
  function Fixed(q: seq<Item>): (nat, nat) {
    if q == [] then (0, 0)
    else
      var (n, b) := Fixed(q[1..]);
      if Evictable(q[0], None) then (n, b) else (n + 1, b + SizeOf(q[0]))
  }

  lemma {:induction false} FixedAppend(a: seq<Item>, b: seq<Item>)
    ensures Fixed(a + b) == (Fixed(a).0 + Fixed(b).0, Fixed(a).1 + Fixed(b).1)
    decreases |a|
  {
    if |a| == 0 {
      NoneAdded(b);
    } else {
      TailOfSum(a, b);
      FixedAppend(a[1..], b);
    }
  }

  /** An eviction leaves them alone. */
  lemma FixedStays(q: seq<Item>, i: nat)
    requires i < |q| && Evictable(q[i], None)
    ensures Fixed(RemoveAt(q, i)) == Fixed(q)
  {
    assert q == q[..i] + ([q[i]] + q[i + 1..]);
    FixedAppend(q[..i], [q[i]] + q[i + 1..]);
    FixedAppend([q[i]], q[i + 1..]);
    FixedAppend(q[..i], q[i + 1..]);
    assert [q[i]][1..] == [];
  }

  lemma {:induction false} FixedWithin(q: seq<Item>)
    ensures Fixed(q).0 <= |q| && Fixed(q).1 <= Sum(q)
    ensures (forall i :: 0 <= i < |q| ==> !Evictable(q[i], None)) ==> Fixed(q) == (|q|, Sum(q))
  {
    if q != [] {
      FixedWithin(q[1..]);
      if forall i :: 0 <= i < |q| ==> !Evictable(q[i], None) {
        assert forall i :: 0 <= i < |q| - 1 ==> q[1..][i] == q[i + 1];
      }
    }
  }

  /** An event of that size fits beside what may not be evicted. */
  predicate FitsBesideFixed(c: Config, q: seq<Item>, size: nat) {
    Fixed(q).0 + 1 <= c.maxEvents && Fixed(q).1 + size <= c.maxBytes
  }

  /** Room is made exactly when there can be room. */
  lemma {:induction false} RoomIffFixedFits(c: Config, s: St, size: nat)
    requires Open(c, s)
    ensures MakeRoom(c, s, size).made <==> FitsBesideFixed(c, s.queue, size)
    decreases |s.queue|
  {
    OpenCount(c, s);
    FixedWithin(s.queue);
    if Overflows(c, s, size) {
      var i := Candidate(s.queue, None);
      CandidateIs(s.queue, None);
      if i < |s.queue| {
        CandidateRemovable(c, s, None, i);
        EvictKeeps(c, s, i);
        FixedStays(s.queue, i);
        RoomIffFixedFits(c, Evict(s, i), size);
      }
    }
  }

  /** No more is evicted than needed, the oldest first: before the last eviction the event
      did not fit. */
  lemma {:induction false} LastEviction(c: Config, s: St, size: nat) returns (p: St)
    requires Open(c, s) && MakeRoom(c, s, size).st != s
    ensures Open(c, p) && Overflows(c, p, size) && p.queue != []
    ensures var i := Candidate(p.queue, None); i < |p.queue| && MakeRoom(c, s, size).st == Evict(p, i)
    decreases |s.queue|
  {
    var i := Candidate(s.queue, None);
    CandidateIs(s.queue, None);
    CandidateRemovable(c, s, None, i);
    EvictKeeps(c, s, i);
    var next := Evict(s, i);
    if MakeRoom(c, next, size).st == next {
      p := s;
    } else {
      p := LastEviction(c, next, size);
    }
  }

  /** An update of the event's key waits in the queue. */
  ghost predicate Waits(s: St, e: Event) {
    exists i :: 0 <= i < |s.queue| && HasKeyOf(s.queue[i], e)
  }

  /** The newest update of the event's key in the queue. */
  ghost predicate LastWaiting(s: St, e: Event, i: nat) {
    && i < |s.queue| && HasKeyOf(s.queue[i], e)
    && forall j :: i < j < |s.queue| ==> !HasKeyOf(s.queue[j], e)
  }

  lemma WaitsIffIndexed(c: Config, s: St, e: Event)
    requires Shape(c, s)
    ensures Waits(s, e) <==> KeyOf(e).Some? && KeyOf(e).value in s.pending
  {
    if KeyOf(e).Some? && KeyOf(e).value in s.pending {
      IndexedPosition(c, s, e);
    }
    if i :| 0 <= i < |s.queue| && HasKeyOf(s.queue[i], e) {
      assert HasKey(s.queue[i], KeyOf(e).value);
    }
  }

  /** The event fits as the buffer is. */
  predicate Fits(c: Config, s: St, e: Event) {
    s.count + 1 <= c.maxEvents && s.bytes + c.bytes(e) <= c.maxBytes
  }

  /** What a well-formed event that is not too large by itself becomes. */
  ghost predicate Decided(c: Config, s: St, e: Event, t: St, v: Verdict) {
    if Fits(c, s, e) then
      v.Enqueued? && t.dropped == s.dropped && t.coalesced == s.coalesced
    else if Waits(s, e) then
      forall i: nat :: LastWaiting(s, e, i) ==>
        v == if c.bytes(Merge(s.queue[i].value, e)) <= c.maxBytes then Coalesced
             else if c.failWhenSlow then Failed else Replaced
    else if c.failWhenSlow && !IsTerminal(c, e) then v.Failed?
    else if FitsBesideFixed(c, s.queue, c.bytes(e)) then v.Enqueued? && t.coalesced == s.coalesced
    else if IsProgress(e) then v.Dropped?
    else v.Failed?
  }

  lemma WaitingDecides(c: Config, s: St, e: Event, i: nat)
    requires Inv(c, s) && !s.done && c.bytes(e) <= c.maxBytes && !Fits(c, s, e) && LastWaiting(s, e, i)
    ensures Push(c, s, e).1 ==
            if c.bytes(Merge(s.queue[i].value, e)) <= c.maxBytes then Coalesced
            else if c.failWhenSlow then Failed else Replaced
  {
    WaitsIffIndexed(c, s, e);
    IndexedPosition(c, s, e);
    assert Position(s.queue, s.pending[KeyOf(e).value]) == i;
  }

  /** The verdict of every push on an open stream. */
  lemma PushDecides(c: Config, s: St, e: Event)
    requires Inv(c, s) && !s.done
    ensures var (t, v) := Push(c, s, e);
            if IsTerminal(c, e) && c.malformed(e) then v.Failed?
            else if c.bytes(e) > c.maxBytes then
              if IsProgress(e) && !c.failWhenSlow then v.Dropped? else v.Failed?
            else Decided(c, s, e, t, v)
  {
    WaitsIffIndexed(c, s, e);
    if !(IsTerminal(c, e) && c.malformed(e)) && c.bytes(e) <= c.maxBytes {
      if Fits(c, s, e) {
        EnqueueKeeps(c, s, e);
      } else if Waits(s, e) {
        forall i: nat | LastWaiting(s, e, i)
          ensures Push(c, s, e).1 ==
                  if c.bytes(Merge(s.queue[i].value, e)) <= c.maxBytes then Coalesced
                  else if c.failWhenSlow then Failed else Replaced
        {
          WaitingDecides(c, s, e, i);
        }
      } else {
        RoomIffFixedFits(c, s, c.bytes(e));
        PushFullKeeps(c, s, e);
      }
    }
  }

  /** The update that is taken in shows in the queue unless the bytes had to be trimmed:
      the item then carries the event's own state, and the whole delta text so far unless
      that had grown too large. */
  lemma CoalescedShows(c: Config, s: St, i: nat, e: Event)
    requires Inv(c, s) && !s.done && i < |s.queue| && HasKeyOf(s.queue[i], e) && Newest(s, s.queue[i].uid)
    requires c.bytes(e) <= c.maxBytes && !Coalesce(c, s, i, e).1.Failed?
    ensures var (t, v) := Coalesce(c, s, i, e);
            var at := Position(t.queue, s.queue[i].uid);
            at < |t.queue| ==>
              && t.queue[at].value.payload == e.payload
              && (v.Replaced? || !IsDelta(e.kind) ==> t.queue[at].value == e)
              && (v.Coalesced? && IsDelta(e.kind) && s.queue[i].value.delta.Some? && e.delta.Some? ==>
                   t.queue[at].value.delta == Some(s.queue[i].value.delta.value + e.delta.value))
  {
    var merged := Merge(s.queue[i].value, e);
    var (value, lost) := if c.bytes(merged) <= c.maxBytes then (merged, 0) else (e, 1);
    MergeKeepsKey(s.queue[i].value, e);
    AbsorbKeeps(c, s, i, value, lost);
    TrimShows(c, Absorb(s, i, value, c.bytes(value), lost), s.queue[i].uid, i);
  }

  lemma TrimShows(c: Config, s: St, uid: nat, i: nat)
    requires Open(c, s) && Protecting(c, s, uid) && i < |s.queue| && s.queue[i].Queued? && s.queue[i].uid == uid
    ensures var t := TrimBytes(c, s, uid);
            var at := Position(t.queue, uid);
            at < |t.queue| ==> t.queue[at] == s.queue[i]
  {
    PositionUnique(s.queue, s.next, uid, i);
    TrimOthersShows(c, s, uid);
    TrimOthersKeeps(c, s, uid);
    var u := TrimOthers(c, s, uid);
    var at := Position(u.queue, uid);
    if u.bytes > c.maxBytes && u.queue[at].droppable {
      GoneAfterEviction(u, uid, at);
    }
  }

  lemma GoneAfterEviction(s: St, uid: nat, at: nat)
    requires Ordered(s.queue, s.next) && at < |s.queue| && s.queue[at].Queued? && s.queue[at].uid == uid
    ensures Position(RemoveAt(s.queue, at), uid) == |s.queue| - 1
  {
    RemovedItems(s.queue, at);
  }

  lemma {:induction false} TrimOthersShows(c: Config, s: St, uid: nat)
    requires Open(c, s) && Protecting(c, s, uid)
    ensures var t := TrimOthers(c, s, uid);
            var at := Position(t.queue, uid);
            at < |t.queue| ==> t.queue[at] == s.queue[Position(s.queue, uid)]
    decreases |s.queue|
  {
    var i := Candidate(s.queue, Some(uid));
    if s.bytes > c.maxBytes && s.count > 1 && i < |s.queue| {
      CandidateIs(s.queue, Some(uid));
      CandidateRemovable(c, s, Some(uid), i);
      EvictKeeps(c, s, i);
      EvictProtects(c, s, uid, i);
      EvictPosition(s, uid, i);
      TrimOthersShows(c, Evict(s, i), uid);
    }
  }

  // ---------- High watermarks ----------

  ghost predicate UnderHigh(s: St) {
    s.count <= s.highEvents && s.bytes <= s.highBytes
  }

  /** The watermarks of `t` are those of `s`, raised to what `t` holds. */
  ghost predicate Raised(s: St, t: St) {
    t.highEvents == Max(s.highEvents, t.count) && t.highBytes == Max(s.highBytes, t.bytes)
  }

  ghost predicate SameHigh(s: St, t: St) {
    t.highEvents == s.highEvents && t.highBytes == s.highBytes && t.count <= s.count && t.bytes <= s.bytes
  }

  lemma {:induction false} RoomHigh(c: Config, s: St, size: nat)
    ensures SameHigh(s, MakeRoom(c, s, size).st)
    decreases |s.queue|
  {
    if Overflows(c, s, size) {
      var i := Candidate(s.queue, None);
      if i < |s.queue| {
        RoomHigh(c, Evict(s, i), size);
      }
    }
  }

  lemma {:induction false} TrimHigh(c: Config, s: St, uid: nat)
    ensures TrimOthers(c, s, uid).highEvents == s.highEvents && TrimOthers(c, s, uid).highBytes == s.highBytes
    ensures TrimOthers(c, s, uid).count <= s.count
    decreases |s.queue|
  {
    if s.bytes > c.maxBytes && s.count > 1 {
      var i := Candidate(s.queue, Some(uid));
      if i < |s.queue| {
        TrimHigh(c, Evict(s, i), uid);
      }
    }
  }

  lemma CoalesceHigh(c: Config, s: St, i: nat, e: Event)
    requires i < |s.queue| && s.queue[i].Queued? && UnderHigh(s)
    ensures Raised(s, Coalesce(c, s, i, e).0)
  {
    var merged := Merge(s.queue[i].value, e);
    TrimHigh(c, Absorb(s, i, merged, c.bytes(merged), 0), s.queue[i].uid);
    TrimHigh(c, Absorb(s, i, e, c.bytes(e), 1), s.queue[i].uid);
  }

  lemma PushHigh(c: Config, s: St, e: Event)
    requires UnderHigh(s)
    ensures Raised(s, Push(c, s, e).0)
  {
    RoomHigh(c, s, c.bytes(e));
    if KeyOf(e).Some? && KeyOf(e).value in s.pending {
      var i := Position(s.queue, s.pending[KeyOf(e).value]);
      if i < |s.queue| {
        CoalesceHigh(c, s, i, e);
      }
    }
  }

  /** The most that was ever queued, by events and by bytes. */
  function PeakEvents(c: Config, ops: seq<S.Op>): nat {
    if ops == [] then 0 else Max(PeakEvents(c, ops[..|ops| - 1]), S.After(c, ops).st.count)
  }

  function PeakBytes(c: Config, ops: seq<S.Op>): nat {
    if ops == [] then 0 else Max(PeakBytes(c, ops[..|ops| - 1]), S.After(c, ops).st.bytes)
  }

  lemma StepHigh(c: Config, t: S.Trace, op: S.Op)
    requires UnderHigh(t.st)
    ensures Raised(t.st, S.Step(c, t, op).st)
  {
    if op.Send? {
      PushHigh(c, t.st, op.e);
    }
  }

  /** In every run the high watermarks are the most that was ever queued. */
  lemma {:induction false} HighIsPeak(c: Config, ops: seq<S.Op>)
    ensures var s := S.After(c, ops).st;
            UnderHigh(s) && s.highEvents == PeakEvents(c, ops) && s.highBytes == PeakBytes(c, ops)
  {
    if ops != [] {
      HighIsPeak(c, ops[..|ops| - 1]);
      StepHigh(c, S.After(c, ops[..|ops| - 1]), ops[|ops| - 1]);
    }
  }
}
