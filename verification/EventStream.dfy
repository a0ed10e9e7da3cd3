/**
 What a consumer of the bounded stream can rely on, over every run: structural events
 arrive all and in order, every accepted event is accounted for, and as long as nothing
 was dropped the deltas of each key join to exactly what was pushed.
 */
module EventStream {
  import opened Basics
  import opened EventQueue

  function Values(q: seq<Item>): seq<Event> {
    if q == [] then [] else (if q[0].Queued? then [q[0].value] else []) + Values(q[1..])
  }

  /** The structural events, in order. */
  function Facts(es: seq<Event>): seq<Event> {
    if es == [] then [] else (if IsProgress(es[0]) then [] else [es[0]]) + Facts(es[1..])
  }

  function TextOf(e: Event, k: Key): string {
    if KeyOf(e) == Some(k) && e.delta.Some? then e.delta.value else ""
  }

  /** The deltas of one key, joined. */
  function Text(es: seq<Event>, k: Key): string {
    if es == [] then "" else TextOf(es[0], k) + Text(es[1..], k)
  }

  ghost predicate AllText(es: seq<Event>) {
    forall e :: e in es && IsDelta(e.kind) ==> e.delta.Some?
  }

  // ---------- Lists ----------

  lemma {:induction false} ValuesAppend(a: seq<Item>, b: seq<Item>)
    ensures Values(a + b) == Values(a) + Values(b)
  {
    if a == [] {
      assert a + b == b;
    } else {
      assert (a + b)[1..] == a[1..] + b;
      ValuesAppend(a[1..], b);
      Associative(if a[0].Queued? then [a[0].value] else [], Values(a[1..]), Values(b));
    }
  }

  lemma {:induction false} FactsAppend(a: seq<Event>, b: seq<Event>)
    ensures Facts(a + b) == Facts(a) + Facts(b)
  {
    if a == [] {
      assert a + b == b;
    } else {
      assert (a + b)[1..] == a[1..] + b;
      FactsAppend(a[1..], b);
      Associative(if IsProgress(a[0]) then [] else [a[0]], Facts(a[1..]), Facts(b));
    }
  }

  lemma {:induction false} TextAppend(a: seq<Event>, b: seq<Event>, k: Key)
    ensures Text(a + b, k) == Text(a, k) + Text(b, k)
  {
    if a == [] {
      assert a + b == b;
    } else {
      assert (a + b)[1..] == a[1..] + b;
      TextAppend(a[1..], b, k);
      Associative(TextOf(a[0], k), Text(a[1..], k), Text(b, k));
    }
  }

  lemma Single(x: Item, e: Event, k: Key)
    requires x.Queued? && x.value == e
    ensures Values([x]) == [e] && Values([Marker]) == [] && Values([]) == []
    ensures Facts([e]) == (if IsProgress(e) then [] else [e]) && Text([e], k) == TextOf(e, k)
  {
    assert [x][1..] == [] && [Marker][1..] == [] && [e][1..] == [];
    assert [e] + [] == [e];
    assert TextOf(e, k) + "" == TextOf(e, k);
  }

  lemma ValuesSplit(q: seq<Item>, i: nat)
    requires i < |q| && q[i].Queued?
    ensures Values(q) == Values(q[..i]) + ([q[i].value] + Values(q[i + 1..]))
  {
    assert q == q[..i] + ([q[i]] + q[i + 1..]);
    ValuesAppend(q[..i], [q[i]] + q[i + 1..]);
    ValuesAppend([q[i]], q[i + 1..]);
    Single(q[i], q[i].value, Key(TextDelta, 0));
  }

  lemma FactsSplit(a: seq<Event>, e: Event, b: seq<Event>)
    requires IsProgress(e)
    ensures Facts(a + ([e] + b)) == Facts(a) + Facts(b)
  {
    FactsAppend(a, [e] + b);
    FactsAppend([e], b);
    assert [e][1..] == [];
    assert [] + Facts(b) == Facts(b);
  }

  // ---------- Structural events ----------

  /** An evicted progress event takes no structural one with it. */
  lemma EvictFacts(q: seq<Item>, i: nat)
    requires i < |q| && q[i].Queued? && IsProgress(q[i].value)
    ensures Facts(Values(RemoveAt(q, i))) == Facts(Values(q))
  {
    ValuesSplit(q, i);
    FactsSplit(Values(q[..i]), q[i].value, Values(q[i + 1..]));
    ValuesAppend(q[..i], q[i + 1..]);
    FactsAppend(Values(q[..i]), Values(q[i + 1..]));
  }

  lemma ReplaceFacts(q: seq<Item>, i: nat, x: Item)
    requires i < |q| && q[i].Queued? && IsProgress(q[i].value) && x.Queued? && IsProgress(x.value)
    ensures Facts(Values(q[i := x])) == Facts(Values(q))
  {
    EvictFacts(q, i);
    EvictFacts(q[i := x], i);
    assert RemoveAt(q[i := x], i) == RemoveAt(q, i);
  }

  lemma {:induction false} MakeRoomFacts(c: Config, s: St, size: nat)
    requires Open(c, s)
    ensures Facts(Values(MakeRoom(c, s, size).st.queue)) == Facts(Values(s.queue))
    decreases |s.queue|
  {
    var i := Candidate(s.queue, None);
    if Overflows(c, s, size) && i < |s.queue| {
      CandidateIs(s.queue, None);
      CandidateRemovable(c, s, None, i);
      EvictKeeps(c, s, i);
      assert ItemOk(c, s.queue[i]);
      EvictFacts(s.queue, i);
      MakeRoomFacts(c, Evict(s, i), size);
    }
  }

  lemma {:induction false} TrimOthersFacts(c: Config, s: St, uid: nat)
    requires Open(c, s) && Protecting(c, s, uid)
    ensures Facts(Values(TrimOthers(c, s, uid).queue)) == Facts(Values(s.queue))
    decreases |s.queue|
  {
    var i := Candidate(s.queue, Some(uid));
    if s.bytes > c.maxBytes && s.count > 1 && i < |s.queue| {
      CandidateIs(s.queue, Some(uid));
      CandidateRemovable(c, s, Some(uid), i);
      EvictKeeps(c, s, i);
      EvictProtects(c, s, uid, i);
      assert ItemOk(c, s.queue[i]);
      EvictFacts(s.queue, i);
      TrimOthersFacts(c, Evict(s, i), uid);
    }
  }

  lemma EvictOwnFacts(c: Config, t: St, uid: nat)
    requires forall i :: 0 <= i < |t.queue| ==> ItemOk(c, t.queue[i])
    ensures var i := Position(t.queue, uid);
            i < |t.queue| && t.queue[i].droppable ==> Facts(Values(Evict(t, i).queue)) == Facts(Values(t.queue))
  {
    var i := Position(t.queue, uid);
    if i < |t.queue| && t.queue[i].droppable {
      assert ItemOk(c, t.queue[i]);
      EvictFacts(t.queue, i);
    }
  }

  lemma TrimBytesFacts(c: Config, s: St, uid: nat)
    requires Open(c, s) && Protecting(c, s, uid)
    ensures Facts(Values(TrimBytes(c, s, uid).queue)) == Facts(Values(s.queue))
  {
    TrimOthersKeeps(c, s, uid);
    TrimOthersFacts(c, s, uid);
    EvictOwnFacts(c, TrimOthers(c, s, uid), uid);
  }

  lemma TakeInFacts(c: Config, s: St, i: nat, value: Event, lost: nat)
    requires Inv(c, s) && !s.done && i < |s.queue| && HasKeyOf(s.queue[i], value)
    requires Newest(s, s.queue[i].uid) && c.bytes(value) <= c.maxBytes
    ensures Facts(Values(TakeIn(c, s, i, value, lost).queue)) == Facts(Values(s.queue))
  {
    var mid := Absorb(s, i, value, c.bytes(value), lost);
    assert ItemOk(c, s.queue[i]);
    AbsorbKeeps(c, s, i, value, lost);
    ReplaceFacts(s.queue, i, mid.queue[i]);
    TrimBytesFacts(c, mid, s.queue[i].uid);
  }

  lemma TerminateFacts(s: St)
    ensures Values(Terminate(s).queue) == Values(s.queue)
  {
    ValuesAppend(s.queue, [Marker]);
    assert [Marker][1..] == [];
    NoneAdded(Values(s.queue));
  }

  lemma EnqueueValues(c: Config, s: St, e: Event)
    ensures Values(Enqueue(c, s, e).queue) == Values(s.queue) + [e]
  {
    Single(Entry(c, s, e), e, Key(TextDelta, 0));
    ValuesAppend(s.queue, [Entry(c, s, e)]);
    var t := s.(queue := s.queue + [Entry(c, s, e)]);
    TerminateFacts(t);
  }

  predicate Accepted(v: Verdict) {
    !v.Ignored? && !v.Failed?
  }

  function AcceptedEvents(v: Verdict, e: Event): seq<Event> {
    if Accepted(v) then [e] else []
  }

  lemma PushFullFacts(c: Config, s: St, e: Event)
    requires Inv(c, s) && !s.done
    ensures var (t, v) := PushFull(c, s, e);
            Facts(Values(t.queue)) == Facts(Values(s.queue)) + Facts(AcceptedEvents(v, e))
  {
    var room := MakeRoom(c, s, c.bytes(e));
    MakeRoomFacts(c, s, c.bytes(e));
    EnqueueValues(c, room.st, e);
    FactsAppend(Values(room.st.queue), [e]);
    TerminateFacts(s);
    TerminateFacts(room.st);
    NoneAdded(Facts(Values(s.queue)));
    assert [e][1..] == [];
  }

  lemma CoalesceFacts(c: Config, s: St, i: nat, e: Event)
    requires Inv(c, s) && !s.done && i < |s.queue| && HasKeyOf(s.queue[i], e) && Newest(s, s.queue[i].uid)
    requires c.bytes(e) <= c.maxBytes
    ensures var (t, v) := Coalesce(c, s, i, e);
            Facts(Values(t.queue)) == Facts(Values(s.queue)) + Facts(AcceptedEvents(v, e))
  {
    var merged := Merge(s.queue[i].value, e);
    MergeKeepsKey(s.queue[i].value, e);
    if c.bytes(merged) <= c.maxBytes {
      TakeInFacts(c, s, i, merged, 0);
    } else if c.failWhenSlow {
      TerminateFacts(s);
    } else {
      TakeInFacts(c, s, i, e, 1);
    }
    NoneAdded(Facts(Values(s.queue)));
    assert [e][1..] == [];
  }

  lemma EnqueueFacts(c: Config, s: St, e: Event)
    ensures Facts(Values(Enqueue(c, s, e).queue)) == Facts(Values(s.queue)) + Facts([e])
  {
    EnqueueValues(c, s, e);
    FactsAppend(Values(s.queue), [e]);
  }

  /** A push that accepts nothing leaves the structural events alone. */
  lemma NothingAccepted(s: St, t: St, v: Verdict, e: Event)
    requires Values(t.queue) == Values(s.queue) && !Accepted(v)
    ensures Facts(Values(t.queue)) == Facts(Values(s.queue)) + Facts(AcceptedEvents(v, e))
  {
    NoneAdded(Facts(Values(s.queue)));
  }

  /** A push loses and reorders no structural event; an accepted one joins the end. */
  lemma PushFacts(c: Config, s: St, e: Event)
    requires Inv(c, s)
    ensures var (t, v) := Push(c, s, e);
            Facts(Values(t.queue)) == Facts(Values(s.queue)) + Facts(AcceptedEvents(v, e))
  {
    var (t, v) := Push(c, s, e);
    if s.done || (IsTerminal(c, e) && c.malformed(e)) || c.bytes(e) > c.maxBytes {
      TerminateFacts(s);
      if !Accepted(v) {
        NothingAccepted(s, t, v, e);
      } else {
        NoneAdded(Facts(Values(s.queue)));
      }
    } else if !Overflows(c, s, c.bytes(e)) {
      EnqueueFacts(c, s, e);
    } else {
      PushFullFacts(c, s, e);
      if KeyOf(e).Some? && KeyOf(e).value in s.pending {
        IndexedPosition(c, s, e);
        CoalesceFacts(c, s, Position(s.queue, s.pending[KeyOf(e).value]), e);
      }
    }
  }

  /** A structural event is queued, or the stream fails for everyone to see. */
  lemma StructuralQueuedOrFailed(c: Config, s: St, e: Event)
    requires Inv(c, s) && !s.done && !IsProgress(e)
    ensures var (t, v) := Push(c, s, e); v.Enqueued? || (v.Failed? && t.done)
  {
  }

  // ---------- Deltas ----------

  lemma {:induction false} MakeRoomDropsNothing(c: Config, s: St, size: nat)
    requires Open(c, s) && MakeRoom(c, s, size).st.dropped == s.dropped
    ensures MakeRoom(c, s, size).st == s
  {
    var i := Candidate(s.queue, None);
    if Overflows(c, s, size) && i < |s.queue| {
      CandidateIs(s.queue, None);
      CandidateRemovable(c, s, None, i);
      EvictKeeps(c, s, i);
      MakeRoomKeeps(c, Evict(s, i), size);
    }
  }

  lemma TrimDropsNothing(c: Config, s: St, uid: nat)
    requires Open(c, s) && Protecting(c, s, uid) && TrimBytes(c, s, uid).dropped == s.dropped
    ensures TrimBytes(c, s, uid) == s
  {
    TrimOthersKeeps(c, s, uid);
    var i := Candidate(s.queue, Some(uid));
    if s.bytes > c.maxBytes && s.count > 1 && i < |s.queue| {
      CandidateIs(s.queue, Some(uid));
      CandidateRemovable(c, s, Some(uid), i);
      EvictKeeps(c, s, i);
      EvictProtects(c, s, uid, i);
      TrimOthersKeeps(c, Evict(s, i), uid);
    }
  }

  lemma {:induction false} NoKeyNoText(q: seq<Item>, k: Key, c: Config)
    requires forall i :: 0 <= i < |q| ==> ItemOk(c, q[i]) && !HasKey(q[i], k)
    ensures Text(Values(q), k) == ""
  {
    if q != [] {
      NoKeyNoText(q[1..], k, c);
      assert ItemOk(c, q[0]);
      if q[0].Queued? {
        assert Values(q)[1..] == Values(q[1..]);
      } else {
        assert Values(q) == Values(q[1..]);
      }
    }
  }

  lemma TextSplit(q: seq<Item>, i: nat, k: Key)
    requires i < |q| && q[i].Queued?
    ensures Text(Values(q), k) == Text(Values(q[..i]), k) + (TextOf(q[i].value, k) + Text(Values(q[i + 1..]), k))
  {
    ValuesSplit(q, i);
    TextAppend(Values(q[..i]), [q[i].value] + Values(q[i + 1..]), k);
    TextAppend([q[i].value], Values(q[i + 1..]), k);
    Single(q[i], q[i].value, k);
  }

  /** Joining a delta into the newest item of its key joins it at the end of the text. */
  lemma MergeText(c: Config, s: St, i: nat, e: Event, k: Key)
    requires Shape(c, s) && i < |s.queue| && HasKeyOf(s.queue[i], e) && IsDelta(k.kind)
    requires forall j :: i < j < |s.queue| ==> !HasKey(s.queue[j], KeyOf(e).value)
    requires IsDelta(e.kind) ==> s.queue[i].value.delta.Some? && e.delta.Some?
    ensures var x := s.queue[i].(value := Merge(s.queue[i].value, e), size := c.bytes(Merge(s.queue[i].value, e)));
            Text(Values(s.queue[i := x]), k) == Text(Values(s.queue), k) + TextOf(e, k)
  {
    var q, merged := s.queue, Merge(s.queue[i].value, e);
    var x := q[i].(value := merged, size := c.bytes(merged));
    var r := q[i := x];
    assert ItemOk(c, q[i]);
    TextSplit(q, i, k);
    TextSplit(r, i, k);
    assert r[..i] == q[..i] && r[i + 1..] == q[i + 1..];
    if KeyOf(e) == Some(k) {
      NoKeyNoText(q[i + 1..], k, c);
      var (a, b, d) := (Text(Values(q[..i]), k), q[i].value.delta.value, e.delta.value);
      assert TextOf(merged, k) == b + d;
      assert b + "" == b && (b + d) + "" == b + d;
      Associative(a, b, d);
    } else {
      assert Text(Values(q), k) + "" == Text(Values(q), k);
    }
  }

  /** A push that drops nothing joins its delta to the text of its key. */
  ghost predicate Joined(s: St, t: St, v: Verdict, e: Event) {
    forall k: Key :: IsDelta(k.kind) ==>
      Text(Values(t.queue), k) == Text(Values(s.queue), k) + Text(AcceptedEvents(v, e), k)
  }

  lemma UnchangedJoined(s: St, t: St, v: Verdict, e: Event)
    requires Values(t.queue) == Values(s.queue) && !Accepted(v)
    ensures Joined(s, t, v, e)
  {
    forall k: Key ensures Text(Values(t.queue), k) == Text(Values(s.queue), k) + Text(AcceptedEvents(v, e), k) {
      assert Text(Values(s.queue), k) + "" == Text(Values(s.queue), k);
    }
  }

  lemma EnqueuedJoined(c: Config, s: St, e: Event)
    ensures Joined(s, Enqueue(c, s, e), Enqueued, e)
  {
    EnqueueValues(c, s, e);
    forall k: Key ensures Text(Values(Enqueue(c, s, e).queue), k) == Text(Values(s.queue), k) + Text([e], k) {
      TextAppend(Values(s.queue), [e], k);
    }
  }

  /** A coalescing push that drops nothing changes the one item and no other. */
  lemma CoalesceQueue(c: Config, s: St, i: nat, e: Event)
    requires Inv(c, s) && !s.done && i < |s.queue| && HasKeyOf(s.queue[i], e) && Newest(s, s.queue[i].uid)
    requires c.bytes(e) <= c.maxBytes && Coalesce(c, s, i, e).0.dropped == s.dropped
    requires Accepted(Coalesce(c, s, i, e).1)
    ensures var merged := Merge(s.queue[i].value, e);
            Coalesce(c, s, i, e).0.queue == s.queue[i := s.queue[i].(value := merged, size := c.bytes(merged))]
  {
    var merged := Merge(s.queue[i].value, e);
    MergeKeepsKey(s.queue[i].value, e);
    if c.bytes(merged) <= c.maxBytes {
      AbsorbKeeps(c, s, i, merged, 0);
      TrimDropsNothing(c, Absorb(s, i, merged, c.bytes(merged), 0), s.queue[i].uid);
    } else {
      AbsorbKeeps(c, s, i, e, 1);
      TrimBytesKeeps(c, Absorb(s, i, e, c.bytes(e), 1), s.queue[i].uid);
      assert false;
    }
  }

  lemma CoalesceJoined(c: Config, s: St, i: nat, e: Event)
    requires Inv(c, s) && !s.done && i < |s.queue| && HasKeyOf(s.queue[i], e) && Newest(s, s.queue[i].uid)
    requires c.bytes(e) <= c.maxBytes && Coalesce(c, s, i, e).0.dropped == s.dropped
    requires forall j :: i < j < |s.queue| ==> !HasKey(s.queue[j], KeyOf(e).value)
    requires Accepted(Coalesce(c, s, i, e).1) && IsDelta(e.kind) ==> s.queue[i].value.delta.Some? && e.delta.Some?
    ensures var (t, v) := Coalesce(c, s, i, e);
            && Joined(s, t, v, e)
            && (Accepted(v) ==> t.queue == s.queue[i := s.queue[i].(value := Merge(s.queue[i].value, e),
                                                                    size := c.bytes(Merge(s.queue[i].value, e)))])
  {
    var merged := Merge(s.queue[i].value, e);
    MergeKeepsKey(s.queue[i].value, e);
    if c.bytes(merged) <= c.maxBytes {
      var mid := Absorb(s, i, merged, c.bytes(merged), 0);
      AbsorbKeeps(c, s, i, merged, 0);
      TrimDropsNothing(c, mid, s.queue[i].uid);
      forall k: Key | IsDelta(k.kind) ensures Text(Values(mid.queue), k) == Text(Values(s.queue), k) + Text([e], k) {
        MergeText(c, s, i, e, k);
        Single(Entry(c, s, e), e, k);
      }
    } else if c.failWhenSlow {
      TerminateFacts(s);
      UnchangedJoined(s, Terminate(s), Failed, e);
    } else {
      AbsorbKeeps(c, s, i, e, 1);
      TrimBytesKeeps(c, Absorb(s, i, e, c.bytes(e), 1), s.queue[i].uid);
      assert false;
    }
  }

  /** Every queued delta carries text. */
  ghost predicate TextQueued(q: seq<Item>) {
    forall i :: 0 <= i < |q| && q[i].Queued? && IsDelta(q[i].value.kind) ==> q[i].value.delta.Some?
  }

  lemma AppendText(c: Config, s: St, e: Event)
    requires TextQueued(s.queue)
    ensures TextQueued(Terminate(s).queue)
    ensures (IsDelta(e.kind) ==> e.delta.Some?) ==> TextQueued(Enqueue(c, s, e).queue)
  {}

  lemma PushFullJoined(c: Config, s: St, e: Event)
    requires Inv(c, s) && !s.done && PushFull(c, s, e).0.dropped == s.dropped && TextQueued(s.queue)
    requires Accepted(PushFull(c, s, e).1) && IsDelta(e.kind) ==> e.delta.Some?
    ensures var (t, v) := PushFull(c, s, e); Joined(s, t, v, e) && TextQueued(t.queue)
  {
    var room := MakeRoom(c, s, c.bytes(e));
    MakeRoomKeeps(c, s, c.bytes(e));
    TerminateFacts(s);
    UnchangedJoined(s, Terminate(s), Failed, e);
    AppendText(c, s, e);
    if room.st.dropped == s.dropped {
      MakeRoomDropsNothing(c, s, c.bytes(e));
    }
    EnqueuedJoined(c, s, e);
  }

  lemma PushUpdateJoined(c: Config, s: St, e: Event, i: nat)
    requires Inv(c, s) && !s.done && KeyOf(e).Some? && KeyOf(e).value in s.pending && c.bytes(e) <= c.maxBytes
    requires i == Position(s.queue, s.pending[KeyOf(e).value]) < |s.queue|
    requires Coalesce(c, s, i, e).0.dropped == s.dropped
    requires TextQueued(s.queue) && (Accepted(Coalesce(c, s, i, e).1) && IsDelta(e.kind) ==> e.delta.Some?)
    ensures var (t, v) := Coalesce(c, s, i, e); Joined(s, t, v, e) && TextQueued(t.queue)
  {
    IndexedPosition(c, s, e);
    assert ItemOk(c, s.queue[i]);
    CoalesceJoined(c, s, i, e);
    AppendText(c, s, e);
    CoalesceKeeps(c, s, i, e);
  }

  lemma IgnoredJoined(s: St, e: Event)
    ensures Joined(s, s, Ignored, e)
  {
    UnchangedJoined(s, s, Ignored, e);
  }

  lemma PushJoined(c: Config, s: St, e: Event)
    requires Inv(c, s) && Push(c, s, e).0.dropped == s.dropped
    requires TextQueued(s.queue) && (Accepted(Push(c, s, e).1) && IsDelta(e.kind) ==> e.delta.Some?)
    ensures var (t, v) := Push(c, s, e); Joined(s, t, v, e) && TextQueued(t.queue)
  {
    if s.done {
      IgnoredJoined(s, e);
    } else if Squeezed(c, s, e) {
      PushSqueezedJoined(c, s, e);
    } else {
      PushEasyJoined(c, s, e);
    }
  }

  lemma PushSqueezedJoined(c: Config, s: St, e: Event)
    requires Inv(c, s) && Squeezed(c, s, e) && Push(c, s, e).0.dropped == s.dropped
    requires TextQueued(s.queue) && (Accepted(Push(c, s, e).1) && IsDelta(e.kind) ==> e.delta.Some?)
    ensures var (t, v) := Push(c, s, e); Joined(s, t, v, e) && TextQueued(t.queue)
  {
    if KeyOf(e).Some? && KeyOf(e).value in s.pending && !IsTerminal(c, e) {
      IndexedPosition(c, s, e);
      PushUpdateJoined(c, s, e, Position(s.queue, s.pending[KeyOf(e).value]));
    } else {
      PushFullJoined(c, s, e);
    }
  }

  lemma PushEasyJoined(c: Config, s: St, e: Event)
    requires !s.done && !Squeezed(c, s, e) && Push(c, s, e).0.dropped == s.dropped
    requires TextQueued(s.queue) && (Accepted(Push(c, s, e).1) && IsDelta(e.kind) ==> e.delta.Some?)
    ensures var (t, v) := Push(c, s, e); Joined(s, t, v, e) && TextQueued(t.queue)
  {
    TerminateFacts(s);
    UnchangedJoined(s, Terminate(s), Failed, e);
    EnqueuedJoined(c, s, e);
    AppendText(c, s, e);
  }

  /** The push meets a full buffer. */
  predicate Squeezed(c: Config, s: St, e: Event) {
    !s.done && c.bytes(e) <= c.maxBytes && Overflows(c, s, c.bytes(e)) && !(IsTerminal(c, e) && c.malformed(e))
  }

  // ---------- The newest state of a key ----------

  /** The last event of a key. */
  function Latest(es: seq<Event>, k: Key): Option<Event> {
    if es == [] then None
    else if KeyOf(es[|es| - 1]) == Some(k) then Some(es[|es| - 1])
    else Latest(es[..|es| - 1], k)
  }

  /** Both are as new as each other: the same payload, and the same event unless deltas of
      the key are joined. */
  ghost predicate SameState(a: Option<Event>, b: Option<Event>, k: Key) {
    if a.None? || b.None? then a == b
    else a.value.payload == b.value.payload && (!IsDelta(k.kind) ==> a == b)
  }

  lemma {:induction false} LatestAppend(a: seq<Event>, b: seq<Event>, k: Key)
    ensures Latest(a + b, k) == if Latest(b, k).Some? then Latest(b, k) else Latest(a, k)
    decreases |b|
  {
    if |b| == 0 {
      NoneAdded(a);
    } else {
      var rest := b[..|b| - 1];
      assert (a + b)[..|a + b| - 1] == a + rest;
      LatestAppend(a, rest, k);
    }
  }

  lemma LatestOne(e: Event, k: Key)
    ensures Latest([e], k) == if KeyOf(e) == Some(k) then Some(e) else None
  {
    assert [e][..0] == [];
  }

  lemma {:induction false} NoKeyNoLatest(q: seq<Item>, k: Key, c: Config)
    requires forall i :: 0 <= i < |q| ==> ItemOk(c, q[i]) && !HasKey(q[i], k)
    ensures Latest(Values(q), k) == None
  {
    if q != [] {
      NoKeyNoLatest(q[1..], k, c);
      assert ItemOk(c, q[0]);
      LatestAppend(if q[0].Queued? then [q[0].value] else [], Values(q[1..]), k);
      if q[0].Queued? { LatestOne(q[0].value, k); }
    }
  }

  lemma LatestSplit(q: seq<Item>, i: nat, k: Key)
    requires i < |q| && q[i].Queued?
    ensures var after := Latest(Values(q[i + 1..]), k);
            Latest(Values(q), k) ==
            if after.Some? then after else if KeyOf(q[i].value) == Some(k) then Some(q[i].value)
            else Latest(Values(q[..i]), k)
  {
    ValuesSplit(q, i);
    LatestAppend(Values(q[..i]), [q[i].value] + Values(q[i + 1..]), k);
    LatestAppend([q[i].value], Values(q[i + 1..]), k);
    LatestOne(q[i].value, k);
  }

  /** Merging an event into the newest item of its key makes that item as new as the event,
      and leaves every other key alone. */
  lemma MergeNewest(c: Config, s: St, i: nat, e: Event, k: Key)
    requires Shape(c, s) && i < |s.queue| && HasKeyOf(s.queue[i], e)
    requires forall j :: i < j < |s.queue| ==> !HasKey(s.queue[j], KeyOf(e).value)
    ensures var x := s.queue[i].(value := Merge(s.queue[i].value, e), size := c.bytes(Merge(s.queue[i].value, e)));
            SameState(Latest(Values(s.queue[i := x]), k), Latest(Values(s.queue) + [e], k), k)
  {
    var q, merged := s.queue, Merge(s.queue[i].value, e);
    var r := q[i := q[i].(value := merged, size := c.bytes(merged))];
    assert ItemOk(c, q[i]);
    MergeKeepsKey(q[i].value, e);
    LatestSplit(q, i, k);
    LatestSplit(r, i, k);
    assert r[..i] == q[..i] && r[i + 1..] == q[i + 1..];
    LatestAppend(Values(q), [e], k);
    LatestOne(e, k);
    if KeyOf(e) == Some(k) {
      NoKeyNoLatest(q[i + 1..], k, c);
    }
  }

  /** After a push every key is as new as if the event had been appended. */
  ghost predicate Renewed(s: St, t: St, v: Verdict, e: Event) {
    forall k: Key :: SameState(Latest(Values(t.queue), k), Latest(Values(s.queue) + AcceptedEvents(v, e), k), k)
  }

  lemma AppendedRenewed(s: St, t: St, v: Verdict, e: Event)
    requires Appended(s, t, v, e)
    ensures Renewed(s, t, v, e)
  {}

  /** A push that evicts nothing appends the event or nothing. */
  ghost predicate Appended(s: St, t: St, v: Verdict, e: Event) {
    Values(t.queue) == Values(s.queue) + AcceptedEvents(v, e)
  }

  lemma TerminateAppends(s: St, e: Event)
    ensures Appended(s, Terminate(s), Failed, e)
  {
    TerminateFacts(s);
    NoneAdded(Values(s.queue));
  }

  lemma PushFullAppends(c: Config, s: St, e: Event)
    requires Inv(c, s) && !s.done && PushFull(c, s, e).0.dropped == s.dropped
    ensures var (t, v) := PushFull(c, s, e); Appended(s, t, v, e)
  {
    var room := MakeRoom(c, s, c.bytes(e));
    TerminateAppends(s, e);
    MakeRoomKeeps(c, s, c.bytes(e));
    if room.st.dropped == s.dropped {
      MakeRoomDropsNothing(c, s, c.bytes(e));
      EnqueueValues(c, s, e);
    }
  }

  lemma CoalesceRenewed(c: Config, s: St, i: nat, e: Event)
    requires Inv(c, s) && !s.done && i < |s.queue| && HasKeyOf(s.queue[i], e) && Newest(s, s.queue[i].uid)
    requires forall j :: i < j < |s.queue| ==> !HasKey(s.queue[j], KeyOf(e).value)
    requires c.bytes(e) <= c.maxBytes && Coalesce(c, s, i, e).0.dropped == s.dropped
    ensures var (t, v) := Coalesce(c, s, i, e); Renewed(s, t, v, e)
  {
    var (t, v) := Coalesce(c, s, i, e);
    if Accepted(v) {
      CoalesceQueue(c, s, i, e);
      forall k: Key ensures SameState(Latest(Values(t.queue), k), Latest(Values(s.queue) + [e], k), k) {
        MergeNewest(c, s, i, e, k);
      }
    } else {
      TerminateFacts(s);
      NoneAdded(Values(s.queue));
    }
  }

  lemma PushRenewed(c: Config, s: St, e: Event)
    requires Inv(c, s) && Push(c, s, e).0.dropped == s.dropped
    ensures var (t, v) := Push(c, s, e); Renewed(s, t, v, e)
  {
    var (t, v) := Push(c, s, e);
    NoneAdded(Values(s.queue));
    if s.done {
    } else if !Squeezed(c, s, e) {
      TerminateFacts(s);
      EnqueueValues(c, s, e);
    } else if KeyOf(e).Some? && KeyOf(e).value in s.pending && !IsTerminal(c, e) {
      IndexedPosition(c, s, e);
      CoalesceRenewed(c, s, Position(s.queue, s.pending[KeyOf(e).value]), e);
    } else {
      PushFullAppends(c, s, e);
      AppendedRenewed(s, t, v, e);
    }
  }

  /** A push that neither drops nor coalesces keeps the events as they were pushed. */
  lemma PushAppends(c: Config, s: St, e: Event)
    requires Inv(c, s) && Push(c, s, e).0.dropped == s.dropped && Push(c, s, e).0.coalesced == s.coalesced
    ensures var (t, v) := Push(c, s, e); Appended(s, t, v, e)
  {
    if s.done {
      NoneAdded(Values(s.queue));
    } else if !Squeezed(c, s, e) {
      TerminateAppends(s, e);
      EnqueueValues(c, s, e);
    } else if KeyOf(e).Some? && KeyOf(e).value in s.pending && !IsTerminal(c, e) {
      IndexedPosition(c, s, e);
      CoalesceKeeps(c, s, Position(s.queue, s.pending[KeyOf(e).value]), e);
      TerminateAppends(s, e);
    } else {
      PushFullAppends(c, s, e);
    }
  }

  // ---------- Runs ----------

  datatype Op = Send(e: Event) | Receive | Close

  /** `accepted` logs the pushes that returned normally on an open stream, `delivered`
      what the consumer got, `replaced` the aggregates that grew too large. */
  datatype Trace = Trace(st: St, accepted: seq<Event>, delivered: seq<Event>, replaced: nat)

  function Step(c: Config, t: Trace, op: Op): Trace {
    match op
    case Send(e) =>
      var (s, v) := Push(c, t.st, e);
      Trace(s, t.accepted + AcceptedEvents(v, e), t.delivered, t.replaced + if v.Replaced? then 1 else 0)
    case Receive =>
      var head := if t.st.queue != [] && t.st.queue[0].Queued? then [t.st.queue[0].value] else [];
      t.(st := Pop(t.st), delivered := t.delivered + head)
    case Close => t.(st := End(t.st))
  }

  function After(c: Config, ops: seq<Op>): Trace {
    if ops == [] then Trace(Empty, [], [], 0) else Step(c, After(c, ops[..|ops| - 1]), ops[|ops| - 1])
  }

  /** Delivered and queued events together. */
  function Seen(t: Trace): seq<Event> {
    t.delivered + Values(t.st.queue)
  }

  ghost predicate DeltasKept(t: Trace) {
    t.st.dropped == 0 && AllText(t.accepted) ==>
      TextQueued(t.st.queue) && forall k: Key :: IsDelta(k.kind) ==> Text(Seen(t), k) == Text(t.accepted, k)
  }

  /** While nothing was dropped, the last state a consumer sees of a key is the last one
      accepted. */
  ghost predicate NewestKept(t: Trace) {
    t.st.dropped == 0 ==> forall k: Key :: SameState(Latest(Seen(t), k), Latest(t.accepted, k), k)
  }

  /** While nothing was dropped or coalesced either, a consumer sees exactly what was accepted. */
  ghost predicate AllKept(t: Trace) {
    t.st.dropped == 0 && t.st.coalesced == 0 ==> Seen(t) == t.accepted
  }

  /** Buffer limits and counters, structural events, conservation, delta text, and the
      newest state of every key. */
  ghost predicate TraceInv(c: Config, t: Trace) {
    && Inv(c, t.st) && Facts(Seen(t)) == Facts(t.accepted)
    && |t.accepted| + t.replaced == |t.delivered| + t.st.count + t.st.dropped + t.st.coalesced
    && DeltasKept(t) && NewestKept(t) && AllKept(t)
  }

  lemma SendAll(c: Config, t: Trace, e: Event)
    requires TraceInv(c, t)
    ensures AllKept(Step(c, t, Send(e)))
  {
    var (s, v) := Push(c, t.st, e);
    PushKeeps(c, t.st, e);
    PushCoalesced(c, t.st, e);
    if s.dropped == 0 && s.coalesced == 0 {
      PushAppends(c, t.st, e);
      Associative(t.delivered, Values(t.st.queue), AcceptedEvents(v, e));
    }
  }

  lemma PushCoalesced(c: Config, s: St, e: Event)
    requires Inv(c, s)
    ensures Push(c, s, e).0.coalesced >= s.coalesced
  {
    if Squeezed(c, s, e) {
      PushFullKeeps(c, s, e);
      if KeyOf(e).Some? && KeyOf(e).value in s.pending {
        IndexedPosition(c, s, e);
        CoalesceKeeps(c, s, Position(s.queue, s.pending[KeyOf(e).value]), e);
      }
    }
  }

  lemma SendNewest(c: Config, t: Trace, e: Event)
    requires TraceInv(c, t)
    ensures NewestKept(Step(c, t, Send(e)))
  {
    var (s, v) := Push(c, t.st, e);
    var u := Step(c, t, Send(e));
    PushKeeps(c, t.st, e);
    if s.dropped == 0 {
      PushRenewed(c, t.st, e);
      forall k: Key ensures SameState(Latest(Seen(u), k), Latest(u.accepted, k), k) {
        NewestAfter(t, u, v, e, k);
      }
    }
  }

  lemma NewestAfter(t: Trace, u: Trace, v: Verdict, e: Event, k: Key)
    requires Renewed(t.st, u.st, v, e) && SameState(Latest(Seen(t), k), Latest(t.accepted, k), k)
    requires u.delivered == t.delivered && u.accepted == t.accepted + AcceptedEvents(v, e)
    ensures SameState(Latest(Seen(u), k), Latest(u.accepted, k), k)
  {
    var more := AcceptedEvents(v, e);
    LatestAppend(t.delivered, Values(u.st.queue), k);
    LatestAppend(t.delivered, Values(t.st.queue), k);
    LatestAppend(Values(t.st.queue), more, k);
    LatestAppend(t.accepted, more, k);
    assert SameState(Latest(Values(u.st.queue), k), Latest(Values(t.st.queue) + more, k), k);
  }

  lemma SendDeltas(c: Config, t: Trace, e: Event)
    requires TraceInv(c, t)
    ensures DeltasKept(Step(c, t, Send(e)))
  {
    var (s, v) := Push(c, t.st, e);
    var u := Step(c, t, Send(e));
    PushKeeps(c, t.st, e);
    if s.dropped == 0 && AllText(u.accepted) {
      assert forall x :: x in t.accepted ==> x in u.accepted;
      assert Accepted(v) ==> e in u.accepted;
      PushJoined(c, t.st, e);
      forall k: Key | IsDelta(k.kind) ensures Text(Seen(u), k) == Text(u.accepted, k) {
        JoinedText(t, u, v, e, k);
      }
    }
  }

  lemma JoinedText(t: Trace, u: Trace, v: Verdict, e: Event, k: Key)
    requires IsDelta(k.kind) && Joined(t.st, u.st, v, e) && Text(Seen(t), k) == Text(t.accepted, k)
    requires u.delivered == t.delivered && u.accepted == t.accepted + AcceptedEvents(v, e)
    ensures Text(Seen(u), k) == Text(u.accepted, k)
  {
    TextAppend(t.delivered, Values(t.st.queue), k);
    TextAppend(t.delivered, Values(u.st.queue), k);
    TextAppend(t.accepted, AcceptedEvents(v, e), k);
    Associative(Text(t.delivered, k), Text(Values(t.st.queue), k), Text(AcceptedEvents(v, e), k));
  }

  lemma SendKeeps(c: Config, t: Trace, e: Event)
    requires TraceInv(c, t)
    ensures TraceInv(c, Step(c, t, Send(e)))
  {
    var (s, v) := Push(c, t.st, e);
    PushKeeps(c, t.st, e);
    PushFacts(c, t.st, e);
    SendDeltas(c, t, e);
    SendNewest(c, t, e);
    SendAll(c, t, e);
    FactsAppend(t.delivered, Values(t.st.queue));
    FactsAppend(t.delivered, Values(s.queue));
    FactsAppend(t.accepted, AcceptedEvents(v, e));
    Associative(Facts(t.delivered), Facts(Values(t.st.queue)), Facts(AcceptedEvents(v, e)));
  }

  lemma ReceiveSeen(c: Config, t: Trace)
    ensures Seen(Step(c, t, Receive)) == Seen(t)
  {
    if t.st.queue != [] {
      var x, rest := t.st.queue[0], t.st.queue[1..];
      assert RemoveAt(t.st.queue, 0) == rest;
      if x.Queued? {
        Associative(t.delivered, [x.value], Values(rest));
      } else {
        assert Values(t.st.queue) == Values(rest);
        NoneAdded(t.delivered);
      }
    } else {
      NoneAdded(t.delivered);
    }
  }

  lemma ReceiveKeeps(c: Config, t: Trace)
    requires TraceInv(c, t)
    ensures TraceInv(c, Step(c, t, Receive))
  {
    PopKeeps(c, t.st);
    ReceiveSeen(c, t);
    PopText(t.st);
  }

  /** A delivery leaves every queued delta its text. */
  lemma PopText(s: St)
    ensures TextQueued(s.queue) ==> TextQueued(Pop(s).queue)
    ensures Pop(s).dropped == s.dropped
  {
    if s.queue != [] {
      RemovedItems(s.queue, 0);
    }
  }

  lemma CloseKeeps(c: Config, t: Trace)
    requires TraceInv(c, t)
    ensures TraceInv(c, Step(c, t, Close))
  {
    EndKeeps(c, t.st);
    TerminateFacts(t.st);
  }

  /** Over any sequence of pushes, deliveries and closes. */
  lemma {:induction false} StreamOverRuns(c: Config, ops: seq<Op>)
    requires ValidConfig(c)
    ensures TraceInv(c, After(c, ops))
  {
    if ops == [] {
      assert Facts([]) == [] && Values([]) == [];
    } else {
      var rest, op := ops[..|ops| - 1], ops[|ops| - 1];
      StreamOverRuns(c, rest);
      match op
      case Send(e) => SendKeeps(c, After(c, rest), e);
      case Receive => ReceiveKeeps(c, After(c, rest));
      case Close => CloseKeeps(c, After(c, rest));
    }
  }
}
