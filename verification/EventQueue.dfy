/**
 The bounded buffer between a producer that cannot wait and a slow consumer.

 `Push` is the producer's step and `Pop` the consumer's. A queued event carries a number
 that stands for its object identity; numbers grow along the queue. `bytes` abstracts the
 size estimate of an event.
 */
module EventQueue {
  import opened Basics

  datatype Kind =
    | TextDelta
    | ThinkingDelta
    | ToolCallDelta
    | MessageUpdate
    | ToolExecutionUpdate
    | Structural(name: nat)

  /** `index` is the content index of a delta or the tool call of an update. */
  datatype Event = Event(kind: Kind, index: nat, delta: Option<string>, payload: nat)

  datatype Key = Key(kind: Kind, index: nat)

  datatype Config = Config(
    maxEvents: nat,
    maxBytes: nat,
    failWhenSlow: bool,
    bytes: Event -> nat,
    complete: nat -> bool,
    malformed: Event -> bool)

  ghost predicate ValidConfig(c: Config) {
    c.maxEvents >= 2 && c.maxBytes > 0
  }

  predicate IsDelta(k: Kind) {
    k.TextDelta? || k.ThinkingDelta? || k.ToolCallDelta?
  }

  function KeyOf(e: Event): Option<Key> {
    if IsDelta(e.kind) || e.kind.ToolExecutionUpdate? then Some(Key(e.kind, e.index))
    else if e.kind.MessageUpdate? then Some(Key(e.kind, 0))
    else None
  }

  predicate IsProgress(e: Event) {
    !e.kind.Structural?
  }

  predicate IsTerminal(c: Config, e: Event) {
    e.kind.Structural? && c.complete(e.kind.name)
  }

  /** Deltas are joined; everything else is replaced by its newest state. */
  function Merge(previous: Event, current: Event): Event {
    if previous.kind == current.kind && IsDelta(current.kind) && previous.delta.Some? && current.delta.Some? then
      current.(delta := Some(previous.delta.value + current.delta.value))
    else current
  }

  datatype Item = Marker | Queued(uid: nat, value: Event, size: nat, key: Option<Key>, droppable: bool)

  datatype St = St(
    queue: seq<Item>,
    pending: map<Key, nat>,
    next: nat,
    count: nat,
    bytes: nat,
    highEvents: nat,
    highBytes: nat,
    dropped: nat,
    coalesced: nat,
    done: bool)

  const Empty := St([], map[], 0, 0, 0, 0, 0, 0, 0, false)

  datatype Verdict = Ignored | Failed | Enqueued | Coalesced | Replaced | Dropped

  function SizeOf(x: Item): nat {
    if x.Queued? then x.size else 0
  }

  function Sum(q: seq<Item>): nat {
    if q == [] then 0 else SizeOf(q[0]) + Sum(q[1..])
  }

  predicate Evictable(x: Item, protected: Option<nat>) {
    x.Queued? && x.droppable && protected != Some(x.uid)
  }

  /** The oldest item that may be evicted, or the length of the queue. */
  function Candidate(q: seq<Item>, protected: Option<nat>): (i: nat)
    ensures i <= |q|
  {
    if q == [] || Evictable(q[0], protected) then 0 else 1 + Candidate(q[1..], protected)
  }

  function RemoveAt(q: seq<Item>, i: nat): seq<Item>
    requires i < |q|
  {
    q[..i] + q[i + 1..]
  }

  /** Saturating subtraction, as the counters are kept. */
  function Less(a: nat, b: nat): nat {
    if a < b then 0 else a - b
  }

  /** A key leaves the index only with the item it points to. */
  function Unindexed(pending: map<Key, nat>, x: Item): map<Key, nat> {
    if x.Queued? && x.key.Some? && x.key.value in pending && pending[x.key.value] == x.uid then pending - {x.key.value}
    else pending
  }

  /** The bookkeeping of an item that left the queue. */
  function Without(s: St, i: nat): St
    requires i < |s.queue|
  {
    var x := s.queue[i];
    s.(queue := RemoveAt(s.queue, i), count := Less(s.count, 1), bytes := Less(s.bytes, SizeOf(x)),
       pending := Unindexed(s.pending, x))
  }

  function Evict(s: St, i: nat): St
    requires i < |s.queue|
  {
    Without(s, i).(dropped := s.dropped + 1)
  }

  predicate Overflows(c: Config, s: St, size: nat) {
    s.count + 1 > c.maxEvents || s.bytes + size > c.maxBytes
  }

  datatype Room = Room(st: St, made: bool)

  function MakeRoom(c: Config, s: St, size: nat): Room
    decreases |s.queue|
  {
    if !Overflows(c, s, size) then Room(s, true)
    else
      var i := Candidate(s.queue, None);
      if i == |s.queue| then Room(s, false) else MakeRoom(c, Evict(s, i), size)
  }

  /** Evicts others until the bytes fit or only the protected item could go. */
  function TrimOthers(c: Config, s: St, uid: nat): St
    decreases |s.queue|
  {
    if s.bytes <= c.maxBytes || s.count <= 1 then s
    else
      var i := Candidate(s.queue, Some(uid));
      if i == |s.queue| then s else TrimOthers(c, Evict(s, i), uid)
  }

  function Position(q: seq<Item>, uid: nat): (i: nat)
    ensures i <= |q|
    ensures i < |q| ==> q[i].Queued? && q[i].uid == uid
  {
    if q == [] || (q[0].Queued? && q[0].uid == uid) then 0 else 1 + Position(q[1..], uid)
  }

  function TrimBytes(c: Config, s: St, uid: nat): St {
    var t := TrimOthers(c, s, uid);
    var i := Position(t.queue, uid);
    if t.bytes > c.maxBytes && i < |t.queue| && t.queue[i].droppable then Evict(t, i) else t
  }

  function Watermarks(s: St): St {
    s.(highEvents := Max(s.highEvents, s.count), highBytes := Max(s.highBytes, s.bytes))
  }

  /** The stream is over: the wake-up marker takes its reserved slot. */
  function Terminate(s: St): St {
    s.(done := true, queue := s.queue + [Marker])
  }

  /** The queued event of the same key takes the update in; `lost` events went with its
      old value. */
  function Absorb(s: St, i: nat, value: Event, size: nat, lost: nat): St
    requires i < |s.queue| && s.queue[i].Queued?
  {
    s.(queue := s.queue[i := s.queue[i].(value := value, size := size)],
       bytes := Less(s.bytes + size, s.queue[i].size), coalesced := s.coalesced + 1, dropped := s.dropped + lost)
  }

  /** Taking a value in and trimming the others. */
  function TakeIn(c: Config, s: St, i: nat, value: Event, lost: nat): St
    requires i < |s.queue| && s.queue[i].Queued?
  {
    Watermarks(TrimBytes(c, Absorb(s, i, value, c.bytes(value), lost), s.queue[i].uid))
  }

  function Coalesce(c: Config, s: St, i: nat, e: Event): (St, Verdict)
    requires i < |s.queue| && s.queue[i].Queued?
  {
    var merged := Merge(s.queue[i].value, e);
    if c.bytes(merged) <= c.maxBytes then (TakeIn(c, s, i, merged, 0), Coalesced)
    else if c.failWhenSlow then (Terminate(s), Failed)
    else (TakeIn(c, s, i, e, 1), Replaced)
  }

  function Enqueue(c: Config, s: St, e: Event): St {
    var terminal := IsTerminal(c, e);
    var t := Watermarks(s.(
      queue := s.queue + [Queued(s.next, e, c.bytes(e), KeyOf(e), IsProgress(e) && !terminal)],
      next := s.next + 1, count := s.count + 1, bytes := s.bytes + c.bytes(e),
      pending := if KeyOf(e).Some? then s.pending[KeyOf(e).value := s.next] else s.pending));
    if terminal then Terminate(t) else t
  }

  /** A full buffer: the policy decides whether anything is evicted. */
  function PushFull(c: Config, s: St, e: Event): (St, Verdict) {
    if c.failWhenSlow && !IsTerminal(c, e) then (Terminate(s), Failed)
    else
      var room := MakeRoom(c, s, c.bytes(e));
      if room.made then (Enqueue(c, room.st, e), Enqueued)
      else if IsProgress(e) && !IsTerminal(c, e) then (room.st.(dropped := room.st.dropped + 1), Dropped)
      else (Terminate(room.st), Failed)
  }

  function Push(c: Config, s: St, e: Event): (St, Verdict) {
    if s.done then (s, Ignored)
    else if IsTerminal(c, e) && c.malformed(e) then (Terminate(s), Failed)
    else if c.bytes(e) > c.maxBytes then
      if IsTerminal(c, e) || !IsProgress(e) || c.failWhenSlow then (Terminate(s), Failed)
      else (s.(dropped := s.dropped + 1), Dropped)
    else if !Overflows(c, s, c.bytes(e)) then (Enqueue(c, s, e), Enqueued)
    else
      var indexed := KeyOf(e).Some? && KeyOf(e).value in s.pending;
      var i := if indexed then Position(s.queue, s.pending[KeyOf(e).value]) else |s.queue|;
      if i < |s.queue| && !IsTerminal(c, e) then Coalesce(c, s, i, e) else PushFull(c, s, e)
  }

  /** The consumer takes the head; the marker ends its iteration. */
  function Pop(s: St): St {
    if s.queue == [] then s
    else if s.queue[0].Marker? then s.(queue := s.queue[1..])
    else Without(s, 0)
  }

  function End(s: St): St {
    if s.done then s else Terminate(s)
  }

  // ---------- The invariant ----------

  ghost predicate ItemOk(c: Config, x: Item) {
    x.Queued? ==>
      && x.size == c.bytes(x.value) <= c.maxBytes && x.key == KeyOf(x.value)
      && x.droppable == (IsProgress(x.value) && !IsTerminal(c, x.value))
  }

  ghost predicate Ordered(q: seq<Item>, next: nat) {
    && (forall i :: 0 <= i < |q| && q[i].Queued? ==> q[i].uid < next)
    && forall i, j :: 0 <= i < j < |q| && q[i].Queued? && q[j].Queued? ==> q[i].uid < q[j].uid
  }

  predicate HasKey(x: Item, k: Key) {
    x.Queued? && x.key == Some(k)
  }

  /** The index points to the newest queued item of every key. */
  ghost predicate Indexed(q: seq<Item>, pending: map<Key, nat>) {
    && (forall i, k :: 0 <= i < |q| && HasKey(q[i], k) ==> k in pending && q[i].uid <= pending[k])
    && forall k :: k in pending ==> Contains(q, pending[k], k)
  }

  ghost predicate Contains(q: seq<Item>, uid: nat, k: Key) {
    exists i :: 0 <= i < |q| && HasKey(q[i], k) && q[i].uid == uid
  }

  /** The marker is there at most once, last, and only when the stream is over. */
  ghost predicate MarkerLast(q: seq<Item>, done: bool) {
    forall i :: 0 <= i < |q| && q[i].Marker? ==> done && i == |q| - 1
  }

  function Marked(q: seq<Item>): nat {
    if q != [] && q[|q| - 1].Marker? then 1 else 0
  }

  ghost predicate Shape(c: Config, s: St) {
    && (forall i :: 0 <= i < |s.queue| ==> ItemOk(c, s.queue[i]))
    && Ordered(s.queue, s.next) && Indexed(s.queue, s.pending) && MarkerLast(s.queue, s.done)
  }

  ghost predicate Counted(s: St) {
    s.count == |s.queue| - Marked(s.queue) && s.bytes == Sum(s.queue)
  }

  ghost predicate Bounded(c: Config, s: St) {
    && s.count <= c.maxEvents && s.bytes <= c.maxBytes
    && s.highEvents <= c.maxEvents && s.highBytes <= c.maxBytes
  }

  /** Counters are exact, both limits hold, and the queue with its marker fits. */
  ghost predicate Inv(c: Config, s: St) {
    Shape(c, s) && Counted(s) && Bounded(c, s) && |s.queue| <= c.maxEvents + 1
  }

  // ---------- Sums and removals ----------

  lemma {:induction false} SumAppend(a: seq<Item>, b: seq<Item>)
    ensures Sum(a + b) == Sum(a) + Sum(b)
  {
    if a == [] {
      assert a + b == b;
    } else {
      assert (a + b)[1..] == a[1..] + b;
      SumAppend(a[1..], b);
    }
  }

  lemma SumOne(x: Item)
    ensures Sum([x]) == SizeOf(x)
  {
    assert [x][1..] == [];
  }

  lemma SumRemove(q: seq<Item>, i: nat)
    requires i < |q|
    ensures Sum(RemoveAt(q, i)) + SizeOf(q[i]) == Sum(q)
  {
    var a, x, b := q[..i], q[i], q[i + 1..];
    SplitAt(q, i);
    SumAppend(a, [x] + b);
    SumAppend([x], b);
    SumOne(x);
    SumAppend(a, b);
  }

  lemma SplitAt<T>(q: seq<T>, i: nat)
    requires i < |q|
    ensures q == q[..i] + ([q[i]] + q[i + 1..])
  {}

  lemma SumReplace(q: seq<Item>, i: nat, x: Item)
    requires i < |q|
    ensures Sum(q[i := x]) + SizeOf(q[i]) == Sum(q) + SizeOf(x)
  {
    assert RemoveAt(q[i := x], i) == RemoveAt(q, i);
    SumRemove(q, i);
    SumRemove(q[i := x], i);
  }

  lemma {:induction false} CandidateIs(q: seq<Item>, protected: Option<nat>)
    ensures var i := Candidate(q, protected);
            && (i < |q| ==> Evictable(q[i], protected))
            && forall j :: 0 <= j < i ==> !Evictable(q[j], protected)
  {
    if q != [] && !Evictable(q[0], protected) {
      CandidateIs(q[1..], protected);
      var i := Candidate(q[1..], protected);
      forall j | 0 <= j < i + 1 ensures !Evictable(q[j], protected) {
        if j > 0 { assert q[j] == q[1..][j - 1]; }
      }
    }
  }

  lemma {:induction false} PositionIs(q: seq<Item>, uid: nat)
    ensures Position(q, uid) == |q| ==> forall i :: 0 <= i < |q| && q[i].Queued? ==> q[i].uid != uid
  {
    if q != [] && !(q[0].Queued? && q[0].uid == uid) {
      PositionIs(q[1..], uid);
      if Position(q, uid) == |q| {
        forall i | 0 <= i < |q| && q[i].Queued? ensures q[i].uid != uid {
          if i > 0 { assert q[i] == q[1..][i - 1]; }
        }
      }
    }
  }

  /** The item that leaves is the newest of its key only if it is the last one of it. */
  ghost predicate Removable(q: seq<Item>, pending: map<Key, nat>, i: nat) {
    && i < |q| && q[i].Queued?
    && forall k, j :: 0 <= j < |q| && j != i && HasKey(q[i], k) && HasKey(q[j], k) && k in pending ==>
         pending[k] != q[i].uid
  }

  lemma RemovedItems(q: seq<Item>, i: nat)
    requires i < |q|
    ensures var r := RemoveAt(q, i);
            |r| == |q| - 1 && forall j :: 0 <= j < |r| ==> r[j] == q[if j < i then j else j + 1]
  {}

  lemma StaysContained(q: seq<Item>, i: nat, uid: nat, k: Key)
    requires i < |q| && Contains(q, uid, k) && !(HasKey(q[i], k) && q[i].uid == uid)
    ensures Contains(RemoveAt(q, i), uid, k)
  {
    var o :| 0 <= o < |q| && HasKey(q[o], k) && q[o].uid == uid;
    RemovedItems(q, i);
    assert RemoveAt(q, i)[if o < i then o else o - 1] == q[o];
  }

  lemma StaysIndexed(q: seq<Item>, pending: map<Key, nat>, i: nat, j: nat, k: Key)
    requires Indexed(q, pending) && Removable(q, pending, i) && j < |q| && j != i && HasKey(q[j], k)
    ensures k in Unindexed(pending, q[i]) && q[j].uid <= Unindexed(pending, q[i])[k]
  {
    assert k in pending && q[j].uid <= pending[k];
  }

  lemma RemoveIndexed(q: seq<Item>, pending: map<Key, nat>, next: nat, i: nat)
    requires Ordered(q, next) && Indexed(q, pending) && Removable(q, pending, i)
    ensures Indexed(RemoveAt(q, i), Unindexed(pending, q[i]))
  {
    var r, p := RemoveAt(q, i), Unindexed(pending, q[i]);
    RemovedItems(q, i);
    forall j: nat, k | j < |r| && HasKey(r[j], k) ensures k in p && r[j].uid <= p[k] {
      StaysIndexed(q, pending, i, if j < i then j else j + 1, k);
    }
    forall k | k in p ensures Contains(r, p[k], k) {
      assert Contains(q, pending[k], k);
      StaysContained(q, i, pending[k], k);
    }
  }

  lemma RemoveOrdered(q: seq<Item>, next: nat, done: bool, i: nat)
    requires Ordered(q, next) && MarkerLast(q, done) && i < |q| && q[i].Queued?
    ensures Ordered(RemoveAt(q, i), next) && MarkerLast(RemoveAt(q, i), done)
    ensures Marked(RemoveAt(q, i)) == Marked(q)
  {
    var r := RemoveAt(q, i);
    assert forall j :: 0 <= j < |r| ==> r[j] == q[if j < i then j else j + 1];
    if r != [] && i < |q| - 1 {
      assert r[|r| - 1] == q[|q| - 1];
    }
  }

  lemma WithoutShape(c: Config, s: St, i: nat)
    requires Shape(c, s) && Removable(s.queue, s.pending, i)
    ensures Shape(c, Without(s, i))
  {
    var q := s.queue;
    RemoveIndexed(q, s.pending, s.next, i);
    RemoveOrdered(q, s.next, s.done, i);
    RemovedOk(c, q, i);
  }

  lemma RemovedOk(c: Config, q: seq<Item>, i: nat)
    requires i < |q| && forall j :: 0 <= j < |q| ==> ItemOk(c, q[j])
    ensures forall j :: 0 <= j < |q| - 1 ==> ItemOk(c, RemoveAt(q, i)[j])
  {
    RemovedItems(q, i);
  }

  lemma WithoutCounted(c: Config, s: St, i: nat)
    requires Ordered(s.queue, s.next) && MarkerLast(s.queue, s.done) && Counted(s)
    requires i < |s.queue| && s.queue[i].Queued?
    ensures Counted(Without(s, i))
    ensures Without(s, i).count + 1 == s.count && Without(s, i).bytes + s.queue[i].size == s.bytes
  {
    RemoveOrdered(s.queue, s.next, s.done, i);
    SumRemove(s.queue, i);
  }

  /** The oldest evictable item may leave: older ones of its key would have been chosen. */
  lemma CandidateRemovable(c: Config, s: St, protected: Option<nat>, i: nat)
    requires Shape(c, s) && i == Candidate(s.queue, protected) < |s.queue|
    requires protected.Some? ==> Newest(s, protected.value)
    ensures Removable(s.queue, s.pending, i)
  {
    var q := s.queue;
    CandidateIs(q, protected);
    forall k, j | 0 <= j < |q| && j != i && HasKey(q[i], k) && HasKey(q[j], k) && k in s.pending
      ensures s.pending[k] != q[i].uid
    {
      assert ItemOk(c, q[j]);
      if j < i {
        assert !Evictable(q[j], protected);
      }
    }
  }

  /** `uid` is what the index holds for its key. */
  ghost predicate Newest(s: St, uid: nat) {
    forall i, k :: 0 <= i < |s.queue| && HasKey(s.queue[i], k) && s.queue[i].uid == uid ==>
      k in s.pending && s.pending[k] == uid
  }

  // ---------- Eviction keeps the books ----------

  /** What eviction keeps while the stream is open. */
  ghost predicate Open(c: Config, s: St) {
    Shape(c, s) && Counted(s) && !s.done
  }

  lemma OpenCount(c: Config, s: St)
    requires Open(c, s)
    ensures s.count == |s.queue| && Marked(s.queue) == 0
    ensures forall i :: 0 <= i < |s.queue| ==> s.queue[i].Queued?
  {}

  /** What left was counted as dropped; nothing else changed. */
  ghost predicate Shrunk(s: St, t: St) {
    && t.count + t.dropped == s.count + s.dropped && t.count <= s.count && t.bytes <= s.bytes
    && t.highEvents == s.highEvents && t.highBytes == s.highBytes && t.coalesced == s.coalesced
    && t.next == s.next && t.done == s.done
  }

  lemma EvictKeeps(c: Config, s: St, i: nat)
    requires Open(c, s) && Removable(s.queue, s.pending, i)
    ensures Open(c, Evict(s, i)) && Shrunk(s, Evict(s, i))
    ensures Evict(s, i).bytes + s.queue[i].size == s.bytes
  {
    WithoutShape(c, s, i);
    WithoutCounted(c, s, i);
  }

  lemma {:induction false} MakeRoomKeeps(c: Config, s: St, size: nat)
    requires Open(c, s)
    ensures var r := MakeRoom(c, s, size);
            && Open(c, r.st) && Shrunk(s, r.st) && (r.made <==> !Overflows(c, r.st, size))
    decreases |s.queue|
  {
    var i := Candidate(s.queue, None);
    if Overflows(c, s, size) && i < |s.queue| {
      CandidateIs(s.queue, None);
      CandidateRemovable(c, s, None, i);
      EvictKeeps(c, s, i);
      MakeRoomKeeps(c, Evict(s, i), size);
    }
  }

  /** The protected item is queued, indexed, and without it the bytes would fit. */
  ghost predicate Protecting(c: Config, s: St, uid: nat) {
    && Position(s.queue, uid) < |s.queue| && Newest(s, uid) && s.queue[Position(s.queue, uid)].key.Some?
    && s.bytes <= c.maxBytes + SizeOf(s.queue[Position(s.queue, uid)])
  }

  lemma PositionUnique(q: seq<Item>, next: nat, uid: nat, i: nat)
    requires Ordered(q, next) && i < |q| && q[i].Queued? && q[i].uid == uid
    ensures Position(q, uid) == i
  {
    PositionIs(q, uid);
  }

  lemma EvictPosition(s: St, uid: nat, i: nat)
    requires Position(s.queue, uid) < |s.queue| && i < |s.queue| && s.queue[i].Queued? && s.queue[i].uid != uid
    requires Ordered(s.queue, s.next) && Ordered(RemoveAt(s.queue, i), s.next)
    ensures var r := RemoveAt(s.queue, i);
            Position(r, uid) < |r| && r[Position(r, uid)] == s.queue[Position(s.queue, uid)]
  {
    var p := Position(s.queue, uid);
    assert p != i;
    PositionUnique(RemoveAt(s.queue, i), s.next, uid, if p < i then p else p - 1);
  }

  lemma EvictNewest(s: St, uid: nat, i: nat)
    requires Newest(s, uid) && i < |s.queue| && s.queue[i].Queued? && s.queue[i].uid != uid
    ensures Newest(Evict(s, i), uid)
  {
    var r := RemoveAt(s.queue, i);
    assert forall j :: 0 <= j < |r| ==> r[j] == s.queue[if j < i then j else j + 1];
  }

  lemma EvictProtects(c: Config, s: St, uid: nat, i: nat)
    requires Open(c, s) && Protecting(c, s, uid) && Removable(s.queue, s.pending, i) && s.queue[i].uid != uid
    ensures Protecting(c, Evict(s, i), uid)
  {
    EvictKeeps(c, s, i);
    EvictPosition(s, uid, i);
    EvictNewest(s, uid, i);
  }

  lemma {:induction false} TrimOthersKeeps(c: Config, s: St, uid: nat)
    requires Open(c, s) && Protecting(c, s, uid)
    ensures var t := TrimOthers(c, s, uid);
            && Open(c, t) && Shrunk(s, t) && Protecting(c, t, uid)
            && (t.bytes <= c.maxBytes || t.count <= 1 || Candidate(t.queue, Some(uid)) == |t.queue|)
    decreases |s.queue|
  {
    var i := Candidate(s.queue, Some(uid));
    if s.bytes > c.maxBytes && s.count > 1 && i < |s.queue| {
      CandidateIs(s.queue, Some(uid));
      CandidateRemovable(c, s, Some(uid), i);
      EvictKeeps(c, s, i);
      EvictProtects(c, s, uid, i);
      TrimOthersKeeps(c, Evict(s, i), uid);
    }
  }

  lemma LoneBytes(c: Config, s: St)
    requires Open(c, s) && s.count <= 1
    ensures s.bytes <= c.maxBytes
  {
    OpenCount(c, s);
    if s.count == 1 {
      assert s.queue == [s.queue[0]] && ItemOk(c, s.queue[0]);
      SumOne(s.queue[0]);
    }
  }

  /** When nothing else can go, the protected item can, and then the bytes fit. */
  lemma LastResort(c: Config, s: St, uid: nat)
    requires Open(c, s) && Protecting(c, s, uid) && Candidate(s.queue, Some(uid)) == |s.queue|
    ensures var i := Position(s.queue, uid);
            s.queue[i].droppable && Removable(s.queue, s.pending, i) && s.bytes <= c.maxBytes + s.queue[i].size
  {
    var q, i := s.queue, Position(s.queue, uid);
    CandidateIs(q, Some(uid));
    assert ItemOk(c, q[i]);
    forall j | 0 <= j < |q| && j != i ensures q[j].Queued? ==> !q[j].droppable && q[j].key.None? {
      assert ItemOk(c, q[j]) && !Evictable(q[j], Some(uid));
    }
  }

  lemma TrimBytesKeeps(c: Config, s: St, uid: nat)
    requires Open(c, s) && Protecting(c, s, uid)
    ensures var t := TrimBytes(c, s, uid);
            Open(c, t) && Shrunk(s, t) && t.bytes <= c.maxBytes
  {
    TrimOthersKeeps(c, s, uid);
    var t := TrimOthers(c, s, uid);
    if t.count <= 1 {
      LoneBytes(c, t);
    }
    if t.bytes > c.maxBytes {
      LastResort(c, t, uid);
      EvictKeeps(c, t, Position(t.queue, uid));
    }
  }

  // ---------- Every step keeps the invariant ----------

  lemma AbsorbShape(c: Config, s: St, i: nat, value: Event, lost: nat)
    requires Shape(c, s) && i < |s.queue| && HasKeyOf(s.queue[i], value) && c.bytes(value) <= c.maxBytes
    ensures Shape(c, Absorb(s, i, value, c.bytes(value), lost))
  {
    var t := Absorb(s, i, value, c.bytes(value), lost);
    assert ItemOk(c, s.queue[i]);
    assert forall j, k :: 0 <= j < |s.queue| ==> (HasKey(t.queue[j], k) <==> HasKey(s.queue[j], k));
    forall k | k in t.pending ensures Contains(t.queue, t.pending[k], k) {
      assert Contains(s.queue, s.pending[k], k);
      var j :| 0 <= j < |s.queue| && HasKey(s.queue[j], k) && s.queue[j].uid == s.pending[k];
      assert HasKey(t.queue[j], k);
    }
  }

  lemma AbsorbNewest(s: St, i: nat, value: Event, size: nat, lost: nat, uid: nat)
    requires i < |s.queue| && s.queue[i].Queued? && Newest(s, uid)
    ensures Newest(Absorb(s, i, value, size, lost), uid)
  {
    var t := Absorb(s, i, value, size, lost);
    assert forall j, k :: 0 <= j < |s.queue| ==> (HasKey(t.queue[j], k) <==> HasKey(s.queue[j], k));
  }

  lemma AbsorbKeeps(c: Config, s: St, i: nat, value: Event, lost: nat)
    requires Open(c, s) && s.bytes <= c.maxBytes && i < |s.queue| && HasKeyOf(s.queue[i], value)
    requires Newest(s, s.queue[i].uid) && c.bytes(value) <= c.maxBytes
    ensures var t := Absorb(s, i, value, c.bytes(value), lost);
            && Open(c, t) && Protecting(c, t, s.queue[i].uid) && t.count == s.count && t.dropped == s.dropped + lost
            && t.next == s.next && t.highEvents == s.highEvents && t.highBytes == s.highBytes
            && t.coalesced == s.coalesced + 1
  {
    var t := Absorb(s, i, value, c.bytes(value), lost);
    AbsorbShape(c, s, i, value, lost);
    AbsorbNewest(s, i, value, c.bytes(value), lost, s.queue[i].uid);
    SumReplace(s.queue, i, t.queue[i]);
    OpenCount(c, s);
    SumAtLeast(s.queue, i);
    PositionUnique(t.queue, t.next, s.queue[i].uid, i);
  }

  lemma SumAtLeast(q: seq<Item>, i: nat)
    requires i < |q|
    ensures SizeOf(q[i]) <= Sum(q)
  {
    SumRemove(q, i);
  }

  /** An update is taken in by an item of its own key. */
  predicate HasKeyOf(x: Item, e: Event) {
    x.Queued? && x.key.Some? && x.key == KeyOf(e)
  }

  lemma TakeInKeeps(c: Config, s: St, i: nat, value: Event, lost: nat)
    requires Inv(c, s) && !s.done && i < |s.queue| && HasKeyOf(s.queue[i], value)
    requires Newest(s, s.queue[i].uid) && c.bytes(value) <= c.maxBytes
    ensures var t := TakeIn(c, s, i, value, lost);
            && Inv(c, t) && t.count + t.dropped == s.count + s.dropped + lost
            && t.coalesced == s.coalesced + 1 && !t.done
            && t.dropped >= s.dropped + lost
  {
    AbsorbKeeps(c, s, i, value, lost);
    var mid := Absorb(s, i, value, c.bytes(value), lost);
    TrimBytesKeeps(c, mid, s.queue[i].uid);
    WatermarksKeep(c, TrimBytes(c, mid, s.queue[i].uid));
  }

  lemma WatermarksKeep(c: Config, s: St)
    requires Open(c, s) && Bounded(c, s)
    ensures Inv(c, Watermarks(s)) && !s.done
  {
    OpenCount(c, s);
  }

  lemma MergeKeepsKey(previous: Event, current: Event)
    ensures KeyOf(Merge(previous, current)) == KeyOf(current)
  {}

  lemma CoalesceKeeps(c: Config, s: St, i: nat, e: Event)
    requires Inv(c, s) && !s.done && i < |s.queue| && HasKeyOf(s.queue[i], e) && Newest(s, s.queue[i].uid)
    requires c.bytes(e) <= c.maxBytes
    ensures var (t, v) := Coalesce(c, s, i, e);
            && Inv(c, t) && (v.Failed? || v.Coalesced? || v.Replaced?)
            && t.count + t.dropped == s.count + s.dropped + (if v.Replaced? then 1 else 0)
            && t.dropped >= s.dropped && t.coalesced == s.coalesced + if v.Failed? then 0 else 1
  {
    var merged := Merge(s.queue[i].value, e);
    MergeKeepsKey(s.queue[i].value, e);
    if c.bytes(merged) <= c.maxBytes {
      TakeInKeeps(c, s, i, merged, 0);
    } else if c.failWhenSlow {
      TerminateKeeps(c, s);
    } else {
      TakeInKeeps(c, s, i, e, 1);
    }
  }

  lemma TerminateKeeps(c: Config, s: St)
    requires Open(c, s) && Bounded(c, s)
    ensures Inv(c, Terminate(s))
  {
    OpenCount(c, s);
    SumAppend(s.queue, [Marker]);
    SumOne(Marker);
    TerminateShape(c, s);
  }

  lemma TerminateShape(c: Config, s: St)
    requires Shape(c, s) && forall i :: 0 <= i < |s.queue| ==> s.queue[i].Queued?
    ensures Shape(c, Terminate(s))
  {
    var t := Terminate(s);
    forall k | k in t.pending ensures Contains(t.queue, t.pending[k], k) {
      ContainsMore(s.queue, [Marker], s.pending[k], k);
    }
  }

  /** The entry a push appends. */
  function Entry(c: Config, s: St, e: Event): Item {
    Queued(s.next, e, c.bytes(e), KeyOf(e), IsProgress(e) && !IsTerminal(c, e))
  }

  lemma AppendIndexed(c: Config, s: St, e: Event)
    requires Open(c, s)
    ensures Indexed(s.queue + [Entry(c, s, e)],
                    if KeyOf(e).Some? then s.pending[KeyOf(e).value := s.next] else s.pending)
  {
    AppendOne(s.queue, s.pending, s.next, Entry(c, s, e));
  }

  /** The newest item of its key joins the end of an indexed queue. */
  lemma AppendOne(q: seq<Item>, pending: map<Key, nat>, next: nat, x: Item)
    requires Ordered(q, next) && Indexed(q, pending) && x.Queued? && x.uid == next
    ensures Indexed(q + [x], if x.key.Some? then pending[x.key.value := next] else pending)
  {
    var p := if x.key.Some? then pending[x.key.value := next] else pending;
    var all := q + [x];
    assert all[|q|] == x;
    forall k | k in p ensures Contains(all, p[k], k) {
      if x.key == Some(k) {
        assert HasKey(all[|q|], k);
      } else {
        ContainsMore(q, [x], pending[k], k);
      }
    }
    forall i: nat, k | i < |all| && HasKey(all[i], k) ensures k in p && all[i].uid <= p[k] {
      if i < |q| {
        assert HasKey(q[i], k) && k in pending;
      }
    }
  }

  lemma ContainsMore(q: seq<Item>, more: seq<Item>, uid: nat, k: Key)
    requires Contains(q, uid, k)
    ensures Contains(q + more, uid, k)
  {
    var i :| 0 <= i < |q| && HasKey(q[i], k) && q[i].uid == uid;
    assert (q + more)[i] == q[i];
  }

  lemma EnqueueKeeps(c: Config, s: St, e: Event)
    requires Open(c, s) && Bounded(c, s) && c.bytes(e) <= c.maxBytes && !Overflows(c, s, c.bytes(e))
    ensures var t := Enqueue(c, s, e);
            && Inv(c, t) && t.count == s.count + 1 && t.dropped == s.dropped && t.coalesced == s.coalesced
            && t.done == IsTerminal(c, e)
  {
    var t := Watermarks(s.(queue := s.queue + [Entry(c, s, e)], next := s.next + 1, count := s.count + 1,
                           bytes := s.bytes + c.bytes(e),
                           pending := if KeyOf(e).Some? then s.pending[KeyOf(e).value := s.next] else s.pending));
    OpenCount(c, s);
    EnqueueShape(c, s, t, e);
    OpenCount(c, t);
    TerminateKeeps(c, t);
  }

  /** The state with the entry appended, before a terminal event closes it. */
  lemma EnqueueShape(c: Config, s: St, t: St, e: Event)
    requires Open(c, s) && c.bytes(e) <= c.maxBytes && !t.done
    requires t.queue == s.queue + [Entry(c, s, e)] && t.next == s.next + 1
    requires t.count == s.count + 1 && t.bytes == s.bytes + c.bytes(e)
    requires t.pending == if KeyOf(e).Some? then s.pending[KeyOf(e).value := s.next] else s.pending
    ensures Open(c, t)
  {
    OpenCount(c, s);
    AppendIndexed(c, s, e);
    SumAppend(s.queue, [Entry(c, s, e)]);
    SumOne(Entry(c, s, e));
  }

  lemma PushFullKeeps(c: Config, s: St, e: Event)
    requires Inv(c, s) && !s.done && c.bytes(e) <= c.maxBytes
    ensures var (t, v) := PushFull(c, s, e);
            && Inv(c, t) && t.coalesced == s.coalesced && t.dropped >= s.dropped
            && (v.Failed? || v.Enqueued? || v.Dropped?)
            && t.count + t.dropped == s.count + s.dropped + if v.Failed? then 0 else 1
  {
    TerminateKeeps(c, s);
    MakeRoomKeeps(c, s, c.bytes(e));
    var room := MakeRoom(c, s, c.bytes(e));
    OpenCount(c, room.st);
    TerminateKeeps(c, room.st);
    if room.made {
      EnqueueKeeps(c, room.st, e);
    }
  }

  /** The item the index names for a key is the last one of that key. */
  lemma LastOfKey(q: seq<Item>, pending: map<Key, nat>, next: nat, k: Key)
    requires Ordered(q, next) && Indexed(q, pending) && k in pending
    ensures var i := Position(q, pending[k]);
            && i < |q| && HasKey(q[i], k) && q[i].uid == pending[k]
            && forall j :: i < j < |q| ==> !HasKey(q[j], k)
  {
    assert Contains(q, pending[k], k);
    var i :| 0 <= i < |q| && HasKey(q[i], k) && q[i].uid == pending[k];
    PositionUnique(q, next, pending[k], i);
  }

  lemma OnlyNewest(s: St, i: nat, k: Key)
    requires Ordered(s.queue, s.next) && i < |s.queue| && HasKey(s.queue[i], k)
    requires k in s.pending && s.pending[k] == s.queue[i].uid
    ensures Newest(s, s.queue[i].uid)
  {
    forall j: nat, l | j < |s.queue| && HasKey(s.queue[j], l) && s.queue[j].uid == s.queue[i].uid
      ensures l in s.pending && s.pending[l] == s.queue[i].uid
    {
      assert j == i;
    }
  }

  /** The event whose update is taken in is the newest one queued for the key. */
  lemma IndexedPosition(c: Config, s: St, e: Event)
    requires Shape(c, s) && KeyOf(e).Some? && KeyOf(e).value in s.pending
    ensures var i := Position(s.queue, s.pending[KeyOf(e).value]);
            i < |s.queue| && HasKeyOf(s.queue[i], e) && Newest(s, s.queue[i].uid)
            && forall j :: i < j < |s.queue| ==> !HasKey(s.queue[j], KeyOf(e).value)
  {
    var k := KeyOf(e).value;
    LastOfKey(s.queue, s.pending, s.next, k);
    OnlyNewest(s, Position(s.queue, s.pending[k]), k);
  }

  /** The accounting of one push: an event that is accepted is queued, dropped or
      coalesced; one that replaces an aggregate is coalesced and drops the aggregate. */
  lemma PushKeeps(c: Config, s: St, e: Event)
    requires Inv(c, s)
    ensures var (t, v) := Push(c, s, e);
            && Inv(c, t) && (v.Ignored? ==> t == s) && (v.Ignored? <==> s.done)
            && (s.done ==> t.done) && t.dropped >= s.dropped
            && t.count + t.dropped + t.coalesced
               == s.count + s.dropped + s.coalesced
                  + (if v.Ignored? || v.Failed? then 0 else if v.Replaced? then 2 else 1)
  {
    if s.done {
    } else if (IsTerminal(c, e) && c.malformed(e)) || c.bytes(e) > c.maxBytes {
      TerminateKeeps(c, s);
    } else if !Overflows(c, s, c.bytes(e)) {
      EnqueueKeeps(c, s, e);
    } else if KeyOf(e).Some? && KeyOf(e).value in s.pending && !IsTerminal(c, e) {
      IndexedPosition(c, s, e);
      CoalesceKeeps(c, s, Position(s.queue, s.pending[KeyOf(e).value]), e);
    } else {
      PushFullKeeps(c, s, e);
    }
  }

  lemma PopKeeps(c: Config, s: St)
    requires Inv(c, s)
    ensures Inv(c, Pop(s)) && Pop(s).done == s.done && Pop(s).dropped == s.dropped && Pop(s).coalesced == s.coalesced
    ensures s.queue != [] && s.queue[0].Queued? ==> Pop(s).count + 1 == s.count
    ensures s.queue == [] || s.queue[0].Marker? ==> Pop(s).count == s.count == 0
  {
    if s.queue != [] {
      if s.queue[0].Marker? {
        assert s.queue == [Marker];
        SumOne(Marker);
        assert forall uid, k :: !Contains(s.queue, uid, k);
      } else {
        assert Removable(s.queue, s.pending, 0);
        WithoutShape(c, s, 0);
        WithoutCounted(c, s, 0);
      }
    }
  }

  lemma EndKeeps(c: Config, s: St)
    requires Inv(c, s)
    ensures Inv(c, End(s)) && End(s).done && End(s).count == s.count && End(s).dropped == s.dropped
    ensures End(s).coalesced == s.coalesced
  {
    if !s.done {
      TerminateKeeps(c, s);
    }
  }
}
