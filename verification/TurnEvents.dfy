/**
 The loop's events are events the recovery can deal with: a turn of the loop, with its
 tools ending in any order, is a legal run of the agent, so cutting it anywhere is safe.
 */
module TurnEvents {
  import opened Basics
  import opened Transcript
  import opened RunRecovery
  import opened CallIds
  import opened AgentTurn
  import opened LoopClosure

  /** The tools end in completion order. */
  function Ends(results: seq<Message>, order: seq<nat>): seq<Event>
    requires forall k :: 0 <= k < |order| ==> order[k] < |results|
  {
    seq(|order|, k requires 0 <= k < |order| => ToolExecutionEnd(results[order[k]]))
  }

  /** The messages end in model order. */
  function MessageEnds(ms: seq<Message>): seq<Event> {
    seq(|ms|, k requires 0 <= k < |ms| => MessageEnd(ms[k]))
  }

  /** A batch that runs nothing ends each call together with its message. */
  function EndsTogether(results: seq<Message>): seq<Event> {
    if results == [] then []
    else [ToolExecutionEnd(results[0]), MessageEnd(results[0])] + EndsTogether(results[1..])
  }

  // ---------- Runs one after another ----------

  lemma {:induction false} RunAppend(r: Run, a: seq<Event>, b: seq<Event>)
    ensures Play(r, a + b) == Play(Play(r, a), b)
    ensures LegalRun(r, a + b) <==> LegalRun(r, a) && LegalRun(Play(r, a), b)
    decreases |a|
  {
    if a == [] {
      assert a + b == b;
    } else {
      assert (a + b)[1..] == a[1..] + b;
      RunAppend(Settle(Update(r, a[0]), a[0]), a[1..], b);
    }
  }

  lemma OneEvent(r: Run, e: Event)
    ensures Play(r, [e]) == Settle(Update(r, e), e) && (LegalRun(r, [e]) <==> Legal(r, e))
  {
    assert [e][1..] == [];
  }

  lemma HeadEvent(r: Run, e: Event, rest: seq<Event>)
    ensures Play(r, [e] + rest) == Play(Settle(Update(r, e), e), rest)
    ensures LegalRun(r, [e] + rest) <==> Legal(r, e) && LegalRun(Settle(Update(r, e), e), rest)
  {
    OneEvent(r, e);
    RunAppend(r, [e], rest);
  }

  // ---------- Tools end, in any order ----------

  ghost predicate EndsReady(r: Run, results: seq<Message>, order: seq<nat>) {
    && (forall k :: 0 <= k < |order| ==> order[k] < |results| && EndReady(r, results[order[k]]))
    && forall j, k :: 0 <= j < k < |order| && order[j] < |results| && order[k] < |results| ==>
         CallIdOf(results[order[j]]) != CallIdOf(results[order[k]])
  }

  ghost predicate EndReady(r: Run, m: Message) {
    m.ToolResult? && m.callId !in r.staged && Awaits(r.messages, Call(m.callId, m.toolName))
  }

  function CallIdOf(m: Message): string {
    if m.ToolResult? then m.callId else ""
  }

  /** `staged` plus the results at the positions of `order`. */
  ghost predicate StagedWith(after: map<string, Message>, staged: map<string, Message>, results: seq<Message>,
                             order: seq<nat>) {
    && (forall k :: 0 <= k < |order| ==> order[k] < |results| && CallIdOf(results[order[k]]) in after)
    && (forall k :: 0 <= k < |order| && order[k] < |results| ==>
         after[CallIdOf(results[order[k]])] == results[order[k]])
    && (forall id :: id in staged ==> id in after && after[id] == staged[id])
    && forall id :: id in after ==>
         id in staged || exists k :: 0 <= k < |order| && order[k] < |results| && CallIdOf(results[order[k]]) == id
  }

  /** A tool's end leaves the others ready to end. */
  lemma StillReady(r: Run, results: seq<Message>, order: seq<nat>)
    requires order != [] && EndsReady(r, results, order)
    ensures var m := results[order[0]]; EndsReady(r.(staged := r.staged[m.callId := m]), results, order[1..])
  {
    var m, rest := results[order[0]], order[1..];
    var next := r.(staged := r.staged[m.callId := m]);
    forall k | 0 <= k < |rest| ensures EndReady(next, results[rest[k]]) {
      assert rest[k] == order[k + 1] && EndReady(r, results[order[k + 1]]);
      assert CallIdOf(results[order[0]]) != CallIdOf(results[order[k + 1]]);
    }
    assert forall k :: 0 <= k < |rest| ==> rest[k] == order[k + 1];
  }

  lemma EndsOne(r: Run, results: seq<Message>, order: seq<nat>)
    requires order != [] && EndsReady(r, results, order)
    ensures var (m, rest) := (results[order[0]], Ends(results, order[1..]));
            var next := r.(staged := r.staged[m.callId := m]);
            && Play(r, Ends(results, order)) == Play(next, rest)
            && (LegalRun(r, Ends(results, order)) <==> LegalRun(next, rest))
  {
    var m, rest := results[order[0]], order[1..];
    assert EndReady(r, m);
    PendingNamed(r.messages, Call(m.callId, m.toolName));
    assert Ends(results, order) == [ToolExecutionEnd(m)] + Ends(results, rest);
    HeadEvent(r, ToolExecutionEnd(m), Ends(results, rest));
  }

  lemma {:induction false} EndsLegal(r: Run, results: seq<Message>, order: seq<nat>)
    requires EndsReady(r, results, order)
    ensures LegalRun(r, Ends(results, order))
    ensures Play(r, Ends(results, order)).messages == r.messages
    ensures StagedWith(Play(r, Ends(results, order)).staged, r.staged, results, order)
    decreases |order|
  {
    if order != [] {
      var m, rest := results[order[0]], order[1..];
      assert EndReady(r, m);
      var next := r.(staged := r.staged[m.callId := m]);
      EndsOne(r, results, order);
      StillReady(r, results, order);
      EndsLegal(next, results, rest);
      StagedOneMore(Play(r, Ends(results, order)).staged, r.staged, results, order);
    }
  }

  lemma StagedOneMore(after: map<string, Message>, staged: map<string, Message>, results: seq<Message>, order: seq<nat>)
    requires order != [] && order[0] < |results| && results[order[0]].ToolResult?
    requires results[order[0]].callId !in staged
    requires StagedWith(after, staged[results[order[0]].callId := results[order[0]]], results, order[1..])
    ensures StagedWith(after, staged, results, order)
  {
    var m, rest := results[order[0]], order[1..];
    assert CallIdOf(m) == m.callId && after[m.callId] == m;
    forall k | 0 < k < |order| ensures order[k] < |results| && CallIdOf(results[order[k]]) in after {
      assert rest[k - 1] == order[k];
    }
    forall k | 0 < k < |order| && order[k] < |results| ensures after[CallIdOf(results[order[k]])] == results[order[k]] {
      assert rest[k - 1] == order[k];
    }
    forall id | id in after && id !in staged
      ensures exists k :: 0 <= k < |order| && order[k] < |results| && CallIdOf(results[order[k]]) == id
    {
      if id != m.callId {
        var k :| 0 <= k < |rest| && rest[k] < |results| && CallIdOf(results[rest[k]]) == id;
        assert order[k + 1] == rest[k];
      } else {
        assert CallIdOf(results[order[0]]) == id;
      }
    }
  }

  // ---------- Messages end, in model order ----------

  ghost predicate Committed(r: Run, results: seq<Message>) {
    && (forall k :: 0 <= k < |results| ==>
         results[k].ToolResult? && results[k].callId in r.staged && r.staged[results[k].callId] == results[k])
    && forall j, k :: 0 <= j < k < |results| ==> CallIdOf(results[j]) != CallIdOf(results[k])
  }

  lemma {:induction false} MessagesLegal(r: Run, results: seq<Message>)
    requires Committed(r, results)
    ensures LegalRun(r, MessageEnds(results))
    ensures Play(r, MessageEnds(results)) == Run(r.messages + results, r.staged - ResultIds(results))
    decreases |results|
  {
    if results == [] {
      assert r.messages + results == r.messages && r.staged - {} == r.staged;
    } else {
      var m, rest := results[0], results[1..];
      var next := Run(r.messages + [m], r.staged - {m.callId});
      assert MessageEnds(results) == [MessageEnd(m)] + MessageEnds(rest);
      HeadEvent(r, MessageEnd(m), MessageEnds(rest));
      forall k | 0 <= k < |rest|
        ensures rest[k].ToolResult? && rest[k].callId in next.staged && next.staged[rest[k].callId] == rest[k]
      {
        assert rest[k] == results[k + 1] && CallIdOf(results[0]) != CallIdOf(results[k + 1]);
      }
      assert forall k :: 0 <= k < |rest| ==> rest[k] == results[k + 1];
      MessagesLegal(next, rest);
      assert results == [m] + rest;
      Associative(r.messages, [m], rest);
      ResultIdsAppend([m], rest);
      assert ResultIds([m]) == {m.callId};
    }
  }

  // ---------- A batch ----------

  /** `order` names every result once. */
  ghost predicate Completion(order: seq<nat>, n: nat) {
    && (forall k :: 0 <= k < |order| ==> order[k] < n)
    && (forall j, k :: 0 <= j < k < |order| ==> order[j] != order[k])
    && forall i: nat :: i < n ==> i in order
  }

  lemma DifferentIds(results: seq<Message>, calls: seq<Call>, i: nat, j: nat)
    requires OneEach(results, calls) && DistinctIds(calls) && i < |results| && j < |results| && i != j
    ensures CallIdOf(results[i]) != CallIdOf(results[j])
  {
    assert calls[i].id != calls[j].id;
  }

  lemma CompletionReady(r: Run, calls: seq<Call>, results: seq<Message>, order: seq<nat>)
    requires r.staged == map[] && ScanOf(r.messages).Ok? && ScanOf(r.messages).value.pending == calls
    requires DistinctIds(calls) && OneEach(results, calls) && Completion(order, |results|)
    ensures EndsReady(r, results, order)
  {
    forall k | 0 <= k < |order| ensures EndReady(r, results[order[k]]) {
      assert calls[order[k]] in calls;
    }
    forall j, k | 0 <= j < k < |order| ensures CallIdOf(results[order[j]]) != CallIdOf(results[order[k]]) {
      DifferentIds(results, calls, order[j], order[k]);
    }
  }

  /** Once all tools ended, all results are staged and nothing else. */
  lemma AllCommitted(r: Run, calls: seq<Call>, results: seq<Message>, order: seq<nat>, after: map<string, Message>)
    requires r.staged == map[] && DistinctIds(calls) && OneEach(results, calls) && Completion(order, |results|)
    requires StagedWith(after, r.staged, results, order)
    ensures Committed(r.(staged := after), results) && after.Keys <= ResultIds(results)
  {
    forall i: nat | i < |results| ensures results[i].callId in after && after[results[i].callId] == results[i] {
      assert i in order;
      var k :| 0 <= k < |order| && order[k] == i;
      assert CallIdOf(results[order[k]]) == results[i].callId;
    }
    forall j: nat, k: nat | j < k < |results| ensures CallIdOf(results[j]) != CallIdOf(results[k]) {
      DifferentIds(results, calls, j, k);
    }
    forall id | id in after ensures id in ResultIds(results) {
      var k :| 0 <= k < |order| && order[k] < |results| && CallIdOf(results[order[k]]) == id;
      assert results[order[k]] in results;
    }
  }

  function BatchEvents(results: seq<Message>, order: seq<nat>): seq<Event>
    requires forall k :: 0 <= k < |order| ==> order[k] < |results|
  {
    Ends(results, order) + MessageEnds(results)
  }

  /** A dispatched batch, in whatever order its tools complete. */
  lemma BatchLegal(r: Run, calls: seq<Call>, results: seq<Message>, order: seq<nat>)
    requires r.staged == map[] && ScanOf(r.messages).Ok? && ScanOf(r.messages).value.pending == calls
    requires DistinctIds(calls) && OneEach(results, calls) && Completion(order, |results|)
    ensures LegalRun(r, BatchEvents(results, order))
    ensures Play(r, BatchEvents(results, order)) == Run(r.messages + results, map[])
  {
    CompletionReady(r, calls, results, order);
    EndsLegal(r, results, order);
    var mid := Play(r, Ends(results, order));
    AllCommitted(r, calls, results, order, mid.staged);
    MessagesLegal(mid, results);
    RunAppend(r, Ends(results, order), MessageEnds(results));
    assert mid.staged - ResultIds(results) == map[];
  }

  /** A batch that was denied, truncated or rejected. */
  lemma {:induction false} TogetherLegal(r: Run, results: seq<Message>, calls: seq<Call>)
    requires r.staged == map[] && ScanOf(r.messages).Ok? && OneEach(results, calls) && DistinctIds(calls)
    requires forall c :: c in calls ==> Awaits(r.messages, c)
    ensures LegalRun(r, EndsTogether(results))
    ensures Play(r, EndsTogether(results)) == Run(r.messages + results, map[])
    decreases |results|
  {
    if results == [] {
      assert r.messages + results == r.messages;
    } else {
      var m, rest := results[0], results[1..];
      var next := Run(r.messages + [m], map[]);
      assert calls[0] in calls && calls == [calls[0]] + calls[1..];
      TogetherOne(r, m, EndsTogether(rest));
      AnswerKeepsAwaiting(r.messages, m);
      IdsTail(calls);
      forall c | c in calls[1..] ensures Awaits(next.messages, c) {
        assert c in calls && c.id in Ids(calls[1..]);
      }
      assert OneEach(rest, calls[1..]);
      TogetherLegal(next, rest, calls[1..]);
      assert results == [m] + rest;
      Associative(r.messages, [m], rest);
    }
  }

  lemma TogetherOne(r: Run, m: Message, rest: seq<Event>)
    requires r.staged == map[] && EndReady(r, m)
    ensures var events := [ToolExecutionEnd(m), MessageEnd(m)] + rest;
            var next := Run(r.messages + [m], map[]);
            Play(r, events) == Play(next, rest) && (LegalRun(r, events) <==> LegalRun(next, rest))
  {
    PendingNamed(r.messages, Call(m.callId, m.toolName));
    var mid := r.(staged := r.staged[m.callId := m]);
    var events := [ToolExecutionEnd(m), MessageEnd(m)] + rest;
    assert events == [ToolExecutionEnd(m)] + ([MessageEnd(m)] + rest);
    HeadEvent(r, ToolExecutionEnd(m), [MessageEnd(m)] + rest);
    HeadEvent(mid, MessageEnd(m), rest);
    assert mid.staged - {m.callId} == map[];
  }

  // ---------- A turn ----------

  lemma MessageEndsHead(m: Message, rest: seq<Message>)
    ensures MessageEnds([m] + rest) == [MessageEnd(m)] + MessageEnds(rest)
  {
  }

  lemma PlainIsLegal(r: Run, m: Message)
    requires r.staged == map[] && Closed(r.messages) && m.Plain?
    ensures Legal(r, MessageEnd(m)) && Closed(r.messages + [m])
  {
    PlainSnoc(r.messages, m);
  }

  lemma PlainOne(r: Run, m: Message, rest: seq<Message>)
    requires r.staged == map[] && Closed(r.messages) && m.Plain?
    ensures var next := Run(r.messages + [m], map[]);
            && Closed(next.messages)
            && Play(r, MessageEnds([m] + rest)) == Play(next, MessageEnds(rest))
            && (LegalRun(r, MessageEnds([m] + rest)) <==> LegalRun(next, MessageEnds(rest)))
  {
    MessageEndsHead(m, rest);
    HeadEvent(r, MessageEnd(m), MessageEnds(rest));
    PlainIsLegal(r, m);
  }

  lemma {:induction false} PlainLegal(r: Run, plain: seq<Message>)
    requires r.staged == map[] && Closed(r.messages) && AllPlain(plain)
    ensures LegalRun(r, MessageEnds(plain)) && Play(r, MessageEnds(plain)) == Run(r.messages + plain, map[])
    decreases |plain|
  {
    if plain == [] {
      NoneAdded(r.messages);
    } else {
      var m, rest := plain[0], plain[1..];
      assert plain == [m] + rest;
      PlainOne(r, m, rest);
      PlainLegal(Run(r.messages + [m], map[]), rest);
      Associative(r.messages, [m], rest);
    }
  }

  function TurnEventsOf(plain: seq<Message>, reply: Message, batch: seq<Event>): seq<Event> {
    MessageEnds(plain) + ([MessageEnd(reply)] + batch)
  }

  lemma ReplyLegal(ms: seq<Message>, plain: seq<Message>, reply: Message, batch: seq<Event>)
    requires Closed(ms) && AllPlain(plain) && !reply.ToolResult? && ScanOf(ms + plain + [reply]).Ok?
    ensures var (r, next) := (Run(ms, map[]), Run(ms + plain + [reply], map[]));
            && Play(r, TurnEventsOf(plain, reply, batch)) == Play(next, batch)
            && (LegalRun(r, TurnEventsOf(plain, reply, batch)) <==> LegalRun(next, batch))
  {
    var r := Run(ms, map[]);
    PlainLegal(r, plain);
    RunAppend(r, MessageEnds(plain), [MessageEnd(reply)] + batch);
    HeadEvent(Run(ms + plain, map[]), MessageEnd(reply), batch);
  }

  /** A turn of an honest run is a legal run of the agent and leaves it with the loop's
      history and nothing staged, in whatever order the tools complete. */
  lemma TurnLegal(w: World, history: seq<Message>, s: St, plain: seq<Message>, results: seq<Message>, order: seq<nat>)
    requires Honest(w, history) && Tidy(w, history, s) && AllPlain(plain)
    requires OneEach(results, CallsOf(Reply(w, s.turns, s.context + plain))) && Completion(order, |results|)
    ensures var reply := Reply(w, s.turns, s.context + plain);
            var after := Run(s.context + plain + [reply] + results, map[]);
            var (dispatched, refused) := (TurnEventsOf(plain, reply, BatchEvents(results, order)),
                                          TurnEventsOf(plain, reply, EndsTogether(results)));
            && LegalRun(Run(s.context, map[]), dispatched) && Play(Run(s.context, map[]), dispatched) == after
            && LegalRun(Run(s.context, map[]), refused) && Play(Run(s.context, map[]), refused) == after
  {
    var context := s.context + plain;
    var reply := Reply(w, s.turns, context);
    InjectTidy(w, history, s, plain);
    assert HonestReply(w, s.turns);
    ReplyAccepted(w, s.turns, context);
    ReplyPending(context, reply);
    ReplyLegal(s.context, plain, reply, BatchEvents(results, order));
    ReplyLegal(s.context, plain, reply, EndsTogether(results));
    BatchLegal(Run(context + [reply], map[]), CallsOf(reply), results, order);
    TogetherLegal(Run(context + [reply], map[]), results, CallsOf(reply));
  }
}
