/**
 The stream object itself. Its queue has one slot more than the event limit, which only
 the wake-up marker may take: `Put` shows that no put ever meets a full queue.
 */
module EventBuffer {
  import opened Basics
  import opened EventQueue

  /** When the consumer meets the marker, nothing is behind it. */
  lemma MarkerAlone(c: Config, s: St)
    requires Shape(c, s) && s.queue != [] && s.queue[0].Marker?
    ensures s.done && s.queue[1..] == []
  {}

  /** What the first `n` items leave behind without the one at `skip`. */
  function Restored(items: seq<Item>, n: nat, skip: nat): seq<Item>
    requires n <= |items|
  {
    if skip < n then RemoveAt(items[..n], skip) else items[..n]
  }

  lemma RestoreNext(items: seq<Item>, n: nat, skip: nat)
    requires n < |items|
    ensures Restored(items, n + 1, skip) == if n == skip then Restored(items, n, skip)
                                            else Restored(items, n, skip) + [items[n]]
  {
    NextOf(items, n);
    var before := items[..n];
    assert (before + [items[n]])[..n] == before;
    if skip < n {
      assert (before + [items[n]])[skip + 1..] == before[skip + 1..] + [items[n]];
      Associative(before[..skip], before[skip + 1..], [items[n]]);
    } else if skip == n {
      NoneAdded(before);
    }
  }

  class BoundedEventStream {
    const c: Config
    var queue: seq<Item>
    var pending: map<Key, nat>
    var next: nat
    var count: nat
    var bytes: nat
    var highEvents: nat
    var highBytes: nat
    var dropped: nat
    var coalesced: nat
    var done: bool

    function State(): St
      reads this
    {
      St(queue, pending, next, count, bytes, highEvents, highBytes, dropped, coalesced, done)
    }

    constructor (config: Config)
      requires ValidConfig(config)
      ensures c == config && State() == Empty && Inv(c, State())
    {
      c := config;
      queue, pending, next, count, bytes := [], map[], 0, 0, 0;
      highEvents, highBytes, dropped, coalesced, done := 0, 0, 0, 0, false;
    }

    method Put(x: Item)
      requires |queue| < c.maxEvents + 1
      modifies this`queue
      ensures queue == old(queue) + [x]
    {
      queue := queue + [x];
    }

    method Drain() returns (items: seq<Item>)
      modifies this`queue
      ensures items == old(queue) && queue == []
    {
      items := [];
      while queue != []
        invariant items + queue == old(queue)
        decreases |queue|
      {
        items, queue := items + [queue[0]], queue[1..];
      }
    }

    /** Everything but the item at `skip` goes back in the same order. */
    method Restore(items: seq<Item>, skip: nat)
      requires queue == [] && |items| <= c.maxEvents + 1
      modifies this`queue
      ensures queue == if skip < |items| then RemoveAt(items, skip) else items
    {
      for j := 0 to |items|
        invariant queue == Restored(items, j, skip) && |queue| <= j
      {
        RestoreNext(items, j, skip);
        if j != skip {
          Put(items[j]);
        }
      }
      assert items[..|items|] == items;
    }

    method Discard(x: Item)
      requires x.Queued?
      modifies this`count, this`bytes, this`pending, this`dropped
      ensures count == Less(old(count), 1) && bytes == Less(old(bytes), x.size)
      ensures pending == Unindexed(old(pending), x) && dropped == old(dropped) + 1
    {
      count, bytes := Less(count, 1), Less(bytes, x.size);
      if x.key.Some? && x.key.value in pending && pending[x.key.value] == x.uid {
        pending := pending - {x.key.value};
      }
      dropped := dropped + 1;
    }

    method DropOldest(protected: Option<nat>) returns (ok: bool)
      requires |queue| <= c.maxEvents + 1
      modifies this
      ensures var (s, i) := (old(State()), Candidate(old(queue), protected));
              if i < |s.queue| then ok && State() == Evict(s, i) else !ok && State() == s
    {
      var items := Drain();
      var candidate := 0;
      assert items[0..] == items;
      while candidate < |items| && !Evictable(items[candidate], protected)
        invariant candidate <= |items|
        invariant candidate + Candidate(items[candidate..], protected) == Candidate(items, protected)
      {
        assert items[candidate..][0] == items[candidate] && items[candidate..][1..] == items[candidate + 1..];
        candidate := candidate + 1;
      }
      Restore(items, candidate);
      ok := candidate < |items|;
      if ok {
        Discard(items[candidate]);
      }
    }

    method RemoveQueued(uid: nat)
      requires |queue| <= c.maxEvents + 1
      modifies this
      ensures var (s, i) := (old(State()), Position(old(queue), uid));
              State() == if i < |s.queue| then Evict(s, i) else s
    {
      var items := Drain();
      var target := Position(items, uid);
      Restore(items, target);
      if target < |items| {
        Discard(items[target]);
      }
    }

    method MakeSpace(size: nat) returns (made: bool)
      requires |queue| <= c.maxEvents + 1
      modifies this
      ensures Room(State(), made) == MakeRoom(c, old(State()), size)
      ensures |queue| <= |old(queue)| && (old(count == |queue|) ==> count == |queue|)
      ensures made ==> !Overflows(c, State(), size)
    {
      made := true;
      while Overflows(c, State(), size)
        invariant |queue| <= |old(queue)| && (old(count == |queue|) ==> count == |queue|)
        invariant MakeRoom(c, State(), size) == MakeRoom(c, old(State()), size)
        decreases |queue|
      {
        made := DropOldest(None);
        if !made {
          return;
        }
      }
    }

    method Trim(uid: nat)
      requires |queue| <= c.maxEvents + 1
      modifies this
      ensures State() == TrimBytes(c, old(State()), uid)
    {
      while bytes > c.maxBytes && count > 1
        invariant |queue| <= |old(queue)| && TrimOthers(c, State(), uid) == TrimOthers(c, old(State()), uid)
        decreases |queue|
      {
        var ok := DropOldest(Some(uid));
        if !ok {
          break;
        }
      }
      assert State() == TrimOthers(c, old(State()), uid);
      var i := Position(queue, uid);
      if bytes > c.maxBytes && i < |queue| && queue[i].droppable {
        RemoveQueued(uid);
      }
    }

    method UpdateWatermarks()
      modifies this`highEvents, this`highBytes
      ensures State() == Watermarks(old(State()))
    {
      highEvents, highBytes := Max(highEvents, count), Max(highBytes, bytes);
    }

    method TerminateStream()
      requires |queue| < c.maxEvents + 1
      modifies this
      ensures State() == Terminate(old(State()))
    {
      done := true;
      Put(Marker);
    }

    /** The queued event `i` takes the update in. */
    method CoalesceInto(i: nat, e: Event) returns (v: Verdict)
      requires i < |queue| <= c.maxEvents && queue[i].Queued?
      modifies this
      ensures (State(), v) == Coalesce(c, old(State()), i, e)
    {
      var existing := queue[i];
      var merged := Merge(existing.value, e);
      var value := merged;
      v := Coalesced;
      if c.bytes(merged) > c.maxBytes {
        if c.failWhenSlow {
          TerminateStream();
          return Failed;
        }
        value, v := e, Replaced;
        dropped := dropped + 1;
      }
      bytes := Less(bytes + c.bytes(value), existing.size);
      queue := queue[i := existing.(value := value, size := c.bytes(value))];
      coalesced := coalesced + 1;
      assert State() == Absorb(old(State()), i, value, c.bytes(value), if v.Replaced? then 1 else 0);
      Trim(existing.uid);
      UpdateWatermarks();
    }

    method Append(e: Event)
      requires |queue| < c.maxEvents
      modifies this
      ensures State() == Enqueue(c, old(State()), e)
    {
      Put(Queued(next, e, c.bytes(e), KeyOf(e), IsProgress(e) && !IsTerminal(c, e)));
      count, bytes := count + 1, bytes + c.bytes(e);
      if KeyOf(e).Some? {
        pending := pending[KeyOf(e).value := next];
      }
      next := next + 1;
      UpdateWatermarks();
      if IsTerminal(c, e) {
        TerminateStream();
      }
    }

    method PushUnderPressure(e: Event) returns (v: Verdict)
      requires count == |queue| <= c.maxEvents
      modifies this
      ensures (State(), v) == PushFull(c, old(State()), e)
    {
      if c.failWhenSlow && !IsTerminal(c, e) {
        TerminateStream();
        return Failed;
      }
      var made := MakeSpace(c.bytes(e));
      if made {
        Append(e);
        return Enqueued;
      }
      if IsProgress(e) && !IsTerminal(c, e) {
        dropped := dropped + 1;
        return Dropped;
      }
      TerminateStream();
      return Failed;
    }

    method PushEvent(e: Event) returns (v: Verdict)
      requires Inv(c, State())
      modifies this
      ensures (State(), v) == Push(c, old(State()), e) && Inv(c, State())
    {
      PushKeeps(c, State(), e);
      if done {
        return Ignored;
      }
      OpenCount(c, State());
      v := PushOpen(e);
    }

    /** A push while the stream is open. */
    method PushOpen(e: Event) returns (v: Verdict)
      requires !done && count == |queue| <= c.maxEvents
      modifies this
      ensures (State(), v) == Push(c, old(State()), e)
    {
      if IsTerminal(c, e) && c.malformed(e) {
        TerminateStream();
        return Failed;
      }
      var existing := |queue|;
      if KeyOf(e).Some? && KeyOf(e).value in pending {
        existing := Position(queue, pending[KeyOf(e).value]);
      }
      var pressure := Overflows(c, State(), c.bytes(e));
      if c.bytes(e) > c.maxBytes {
        if IsTerminal(c, e) || !IsProgress(e) || c.failWhenSlow {
          TerminateStream();
          return Failed;
        }
        dropped := dropped + 1;
        return Dropped;
      }
      if !pressure {
        Append(e);
        return Enqueued;
      }
      if existing < |queue| && !IsTerminal(c, e) {
        v := CoalesceInto(existing, e);
      } else {
        v := PushUnderPressure(e);
      }
    }

    method EndStream()
      requires Inv(c, State())
      modifies this
      ensures State() == End(old(State())) && Inv(c, State()) && done
    {
      EndKeeps(c, State());
      if !done {
        OpenCount(c, State());
        TerminateStream();
      }
    }

    method Take() returns (r: Option<Event>)
      requires queue != []
      modifies this
      ensures State() == Pop(old(State()))
      ensures r == if old(queue)[0].Queued? then Some(old(queue)[0].value) else None
    {
      var item := queue[0];
      assert RemoveAt(queue, 0) == queue[1..];
      queue := queue[1..];
      if item.Marker? {
        return None;
      }
      count, bytes := Less(count, 1), Less(bytes, item.size);
      pending := Unindexed(pending, item);
      return Some(item.value);
    }

    /** The consumer's step: the next event, or none at the end of the stream. */
    method Next() returns (r: Option<Event>)
      requires Inv(c, State()) && queue != []
      modifies this
      ensures State() == Pop(old(State())) && Inv(c, State())
      ensures r == (if old(queue)[0].Queued? then Some(old(queue)[0].value) else None)
      ensures r == None ==> done && queue == []
    {
      PopKeeps(c, State());
      r := Take();
      if r.None? {
        MarkerAlone(c, old(State()));
      }
    }
  }
}
