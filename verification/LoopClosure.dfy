/**
 The loop keeps the conversation closed on its own: with named calls, plain injected
 messages and new invented ids, no later model request needs a repair.
 */
module LoopClosure {
  import opened Basics
  import opened Transcript
  import opened TranscriptRepair
  import opened RunRecovery
  import opened CallIds
  import opened AgentTurn

  // ---------- A whole turn on the transcript ----------

  /** One result for each call, with its id and its name. */
  ghost predicate OneEach(results: seq<Message>, calls: seq<Call>) {
    |results| == |calls| && forall k :: 0 <= k < |calls| ==>
      results[k].ToolResult? && results[k].callId == calls[k].id && results[k].toolName == calls[k].name
  }

  lemma {:induction false} ResultsOneEach(calls: seq<Call>, synthetic: bool, text: nat -> string, k: nat)
    ensures OneEach(ResultsFrom(calls, synthetic, text, k), calls)
    decreases |calls|
  {
    if calls != [] {
      ResultsOneEach(calls[1..], synthetic, text, k + 1);
      var rest := ResultsFrom(calls[1..], synthetic, text, k + 1);
      forall i | 0 < i < |calls|
        ensures rest[i - 1].ToolResult? && rest[i - 1].callId == calls[i].id && rest[i - 1].toolName == calls[i].name
      {
        assert calls[1..][i - 1] == calls[i];
      }
    }
  }

  lemma OneEachAnswers(results: seq<Message>, calls: seq<Call>)
    requires OneEach(results, calls) && DistinctIds(calls)
    ensures Answers(results, calls)
  {
    forall k | 0 <= k < |results| ensures AnswersOne(results[k], calls) {
      assert calls[k] in calls;
    }
  }

  lemma {:induction false} UnansweredNone(calls: seq<Call>, answered: set<string>)
    ensures Unanswered(calls, answered) == [] <==> Ids(calls) <= answered
  {
    if calls != [] {
      UnansweredNone(calls[1..], answered);
      IdsTail(calls);
    }
  }

  /** A history the analyser accepts is closed exactly when every call has a result. */
  lemma ClosedIff(ms: seq<Message>)
    requires ScanOf(ms).Ok?
    ensures Closed(ms) <==> Ids(AllCalls(ms)) <= ResultIds(ms)
  {
    AnalyserExact(ms);
    UnansweredNone(AllCalls(ms), ResultIds(ms));
  }

  lemma ClosedNothingPending(ms: seq<Message>)
    requires Closed(ms)
    ensures ScanOf(ms).Ok? && ScanOf(ms).value.pending == [] && ScanOf(ms).value.unresolved == []
  {
    var s := ScanOf(ms).value;
    assert |s.unresolved + s.pending| == 0;
  }

  lemma ReplyPending(ms: seq<Message>, reply: Message)
    requires ScanOf(ms).Ok? && !reply.ToolResult? && ScanOf(ms + [reply]).Ok?
    ensures ScanOf(ms + [reply]).value.pending == CallsOf(reply) && DistinctIds(CallsOf(reply))
  {
    ScanSnoc(ms, reply);
    ReadOther(ms, ScanOf(ms).value, reply);
  }

  lemma ResultIdsAppend(a: seq<Message>, b: seq<Message>)
    ensures ResultIds(a + b) == ResultIds(a) + ResultIds(b)
  {}

  lemma OneEachIds(results: seq<Message>, calls: seq<Call>)
    requires OneEach(results, calls)
    ensures ResultIds(results) == Ids(calls)
  {
    forall c | c in calls ensures c.id in ResultIds(results) {
      var k :| 0 <= k < |calls| && calls[k] == c;
      assert results[k] in results;
    }
    forall m | m in results && m.ToolResult? ensures m.callId in Ids(calls) {
      var k :| 0 <= k < |results| && results[k] == m;
      assert calls[k] in calls;
    }
  }

  /** An accepted reply followed by one result for each of its calls closes the turn. */
  lemma TurnCloses(ms: seq<Message>, reply: Message, results: seq<Message>)
    requires Closed(ms) && !reply.ToolResult? && ScanOf(ms + [reply]).Ok? && OneEach(results, CallsOf(reply))
    ensures Closed(ms + [reply] + results)
    ensures AllCalls(ms + [reply] + results) == AllCalls(ms) + CallsOf(reply)
  {
    ReplyPending(ms, reply);
    OneEachAnswers(results, CallsOf(reply));
    AnswersAccepted(ms + [reply], results);
    TurnTables(ms, reply, results);
    ClosedIff(ms);
    ClosedIff(ms + [reply] + results);
  }

  lemma TurnTables(ms: seq<Message>, reply: Message, results: seq<Message>)
    requires !reply.ToolResult? && OneEach(results, CallsOf(reply))
    ensures AllCalls(ms + [reply] + results) == AllCalls(ms) + CallsOf(reply)
    ensures ResultIds(ms + [reply] + results) == ResultIds(ms) + Ids(CallsOf(reply))
    ensures Ids(AllCalls(ms) + CallsOf(reply)) == Ids(AllCalls(ms)) + Ids(CallsOf(reply))
  {
    TurnCalls(ms, reply, results);
    ResultIdsSnoc(ms, reply);
    ResultIdsAppend(ms + [reply], results);
    OneEachIds(results, CallsOf(reply));
    IdsAppend(AllCalls(ms), CallsOf(reply));
  }

  lemma TurnCalls(ms: seq<Message>, reply: Message, results: seq<Message>)
    requires forall k :: 0 <= k < |results| ==> results[k].ToolResult?
    ensures AllCalls(ms + [reply] + results) == AllCalls(ms) + CallsOf(reply)
  {
    AllCallsSnoc(ms, reply);
    AllCallsAppend(ms + [reply], results);
    ResultsAddNoCalls(results);
    assert AllCalls(ms + [reply]) + [] == AllCalls(ms + [reply]);
  }

  ghost predicate AllPlain(ms: seq<Message>) {
    forall k :: 0 <= k < |ms| ==> ms[k].Plain?
  }

  lemma PlainSnoc(ms: seq<Message>, m: Message)
    requires Closed(ms) && m.Plain?
    ensures Closed(ms + [m]) && AllCalls(ms + [m]) == AllCalls(ms)
  {
    ClosedNothingPending(ms);
    ScanSnoc(ms, m);
    ReadOther(ms, ScanOf(ms).value, m);
    AllCallsSnoc(ms, m);
    assert AllCalls(ms) + [] == AllCalls(ms);
    var none: seq<Call> := [];
    assert none + none == none;
  }

  /** Plain messages keep a closed history closed. */
  lemma {:induction false} PlainKeepsClosed(ms: seq<Message>, plain: seq<Message>)
    requires Closed(ms) && AllPlain(plain)
    ensures Closed(ms + plain) && AllCalls(ms + plain) == AllCalls(ms)
    decreases |plain|
  {
    if |plain| == 0 {
      assert ms + plain == ms;
    } else {
      var last := |plain| - 1;
      assert ms + plain == (ms + plain[..last]) + [plain[last]] by {
        assert plain[..last] + [plain[last]] == plain;
        Associative(ms, plain[..last], [plain[last]]);
      }
      PlainKeepsClosed(ms, plain[..last]);
      PlainSnoc(ms + plain[..last], plain[last]);
    }
  }

  // ---------- Honest worlds ----------

  /** No id of `ids` will be invented from turn `turn` on. */
  ghost predicate NotYetInvented(w: World, ids: set<string>, turn: nat) {
    forall t: nat, i: nat :: turn <= t ==> w.invent(t, i) !in ids
  }

  ghost predicate HonestIds(w: World) {
    && (forall s :: w.trim(w.trim(s)) == w.trim(s))
    && (forall t: nat, i: nat :: w.invent(t, i) != "" && w.trim(w.invent(t, i)) == w.invent(t, i))
    && forall t: nat, i: nat, t2: nat, i2: nat :: (t, i) != (t2, i2) ==> w.invent(t, i) != w.invent(t2, i2)
  }

  lemma DifferentReplacements(a: string, b: string)
    requires a != b
    ensures REPLACEMENT + a != REPLACEMENT + b
  {
    assert (REPLACEMENT + a)[|REPLACEMENT|..] == a && (REPLACEMENT + b)[|REPLACEMENT|..] == b;
  }

  /** The program's own ids are honest as soon as their random parts do not repeat. */
  lemma ProgramIdsHonest(w: World, random: (nat, nat) -> string)
    requires forall s :: w.trim(s) == Strip(s)
    requires forall t: nat, i: nat :: w.invent(t, i) == REPLACEMENT + random(t, i)
    requires forall t: nat, i: nat :: random(t, i) != "" && !IsSpace(random(t, i)[|random(t, i)| - 1])
    requires forall t: nat, i: nat, t2: nat, i2: nat :: (t, i) != (t2, i2) ==> random(t, i) != random(t2, i2)
    ensures HonestIds(w)
  {
    forall s ensures w.trim(w.trim(s)) == w.trim(s) {
      StripTwice(s);
    }
    forall t: nat, i: nat ensures w.invent(t, i) != "" && w.trim(w.invent(t, i)) == w.invent(t, i) {
      ReplacementTrimmed(random(t, i));
    }
    forall t: nat, i: nat, t2: nat, i2: nat | (t, i) != (t2, i2) ensures w.invent(t, i) != w.invent(t2, i2) {
      DifferentReplacements(random(t, i), random(t2, i2));
    }
  }

  /** A reply may repeat any id of its history, ids invented in earlier turns included. */
  ghost predicate HonestReply(w: World, turn: nat) {
    && NamesGiven(CallsOf(RawReply(w, turn)))
    && NotYetInvented(w, TrimmedIds(RulesAt(w, turn), CallsOf(RawReply(w, turn))), turn)
  }

  /** The run starts closed, models name their calls, only plain messages are injected,
      and an invented id is new: no other one equals it, and neither the initial history
      nor a reply up to its turn contains it. */
  ghost predicate Honest(w: World, history: seq<Message>) {
    && Closed(history) && HonestIds(w) && NotYetInvented(w, PriorIds(RulesAt(w, 0), history), 0)
    && (forall t: nat :: HonestReply(w, t))
    && forall k: nat :: AllPlain(w.steering(k)) && AllPlain(w.followUp(k))
  }

  /** The state between two steps of an honest run. */
  ghost predicate Tidy(w: World, history: seq<Message>, s: St) {
    && s.context == history + Messages(s.entries) && Closed(s.context)
    && (forall k :: 0 <= k < |s.requests| ==> Closed(s.requests[k]) && s.requests[k] <= s.context)
    && NotYetInvented(w, PriorIds(RulesAt(w, 0), s.context), s.turns)
  }

  lemma SamePrior(w: World, turn: nat, ms: seq<Message>)
    ensures PriorIds(RulesAt(w, turn), ms) == PriorIds(RulesAt(w, 0), ms)
  {
    assert TrimmedIds(RulesAt(w, turn), AllCalls(ms)) == TrimmedIds(RulesAt(w, 0), AllCalls(ms));
  }

  lemma RulesUsable(w: World, turn: nat, context: seq<Message>)
    requires HonestIds(w) && HonestReply(w, turn) && NotYetInvented(w, PriorIds(RulesAt(w, 0), context), turn)
    ensures var g := RulesAt(w, turn); Usable(g, PriorIds(g, context) + TrimmedIds(g, CallsOf(RawReply(w, turn))))
  {
    var g := RulesAt(w, turn);
    SamePrior(w, turn, context);
    forall i: nat
      ensures Fine(g, g.invent(i)) && g.invent(i) !in PriorIds(g, context) + TrimmedIds(g, CallsOf(RawReply(w, turn)))
    {
      assert g.invent(i) == w.invent(turn, i);
    }
    forall i: nat, j: nat | i != j ensures g.invent(i) != g.invent(j) {
      assert g.invent(i) == w.invent(turn, i) && g.invent(j) == w.invent(turn, j);
    }
  }

  lemma InjectTidy(w: World, history: seq<Message>, s: St, pending: seq<Message>)
    requires Tidy(w, history, s) && AllPlain(pending)
    ensures Tidy(w, history, Inject(s, pending).(turns := s.turns))
  {
    PlainKeepsClosed(s.context, pending);
    MessagesAppend(s.entries, InjectedAll(pending));
    MessagesOfAll(pending);
    Associative(history, Messages(s.entries), pending);
    assert PriorIds(RulesAt(w, 0), s.context + pending) == PriorIds(RulesAt(w, 0), s.context);
    forall k | 0 <= k < |s.requests| ensures s.requests[k] <= s.context + pending {
      assert s.requests[k] <= s.context;
    }
  }

  /** The committed reply of a turn. */
  function Reply(w: World, turn: nat, context: seq<Message>): Message {
    Preflight(RulesAt(w, turn), context, RawReply(w, turn))
  }

  lemma ReplyAccepted(w: World, turn: nat, context: seq<Message>)
    requires HonestIds(w) && HonestReply(w, turn) && Closed(context)
    requires NotYetInvented(w, PriorIds(RulesAt(w, 0), context), turn)
    ensures ScanOf(context + [Reply(w, turn, context)]).Ok? && Reply(w, turn, context).Assistant?
  {
    RulesUsable(w, turn, context);
    PreflightAccepted(RulesAt(w, turn), context, RawReply(w, turn));
  }

  /** The ids of the turn will not be invented later. */
  lemma ReplyIdsSpent(w: World, turn: nat, context: seq<Message>)
    requires HonestIds(w) && HonestReply(w, turn) && NotYetInvented(w, PriorIds(RulesAt(w, 0), context), turn)
    ensures NotYetInvented(w, TrimmedIds(RulesAt(w, 0), CallsOf(Reply(w, turn, context))), turn + 1)
  {
    var g := RulesAt(w, turn);
    var raw := CallsOf(RawReply(w, turn));
    var r := Check(g, raw, PriorIds(g, context)).calls;
    RulesUsable(w, turn, context);
    PreflightCalls(g, context, RawReply(w, turn));
    CheckNew(g, raw, PriorIds(g, context));
    forall t: nat, i: nat | turn + 1 <= t ensures w.invent(t, i) !in TrimmedIds(RulesAt(w, 0), r) {
      forall c | c in r ensures w.trim(c.id) != w.invent(t, i) {
        var k :| 0 <= k < |r| && r[k] == c;
        CheckExact(g, raw, PriorIds(g, context), k);
        assert Fine(g, r[k].id) && raw[k] in raw;
        assert g.invent(k) == w.invent(turn, k);
        assert g.trim(raw[k].id) in TrimmedIds(g, raw);
      }
    }
  }

  /** The model sees the history as it is, and the turn ends closed again. */
  lemma TurnTidy(w: World, history: seq<Message>, s: St, results: seq<Message>)
    requires Honest(w, history) && Tidy(w, history, s) && OneEach(results, CallsOf(Reply(w, s.turns, s.context)))
    ensures var reply := Reply(w, s.turns, s.context);
            var done := s.(context := s.context + [reply] + results, turns := s.turns + 1,
                           requests := s.requests + [s.context],
                           entries := s.entries + [Replied(reply)] + AnsweredAll(results));
            Tidy(w, history, done)
  {
    var reply := Reply(w, s.turns, s.context);
    assert HonestReply(w, s.turns);
    ReplyAccepted(w, s.turns, s.context);
    ReplyIdsSpent(w, s.turns, s.context);
    TurnCloses(s.context, reply, results);
    TurnEntries(history, s, reply, results);
    TurnIds(w, s.context, reply, s.context + [reply] + results, s.turns);
    TurnRequests(s, s.context + [reply] + results);
  }

  lemma TurnEntries(history: seq<Message>, s: St, reply: Message, results: seq<Message>)
    requires s.context == history + Messages(s.entries)
    ensures s.context + [reply] + results == history + Messages(s.entries + [Replied(reply)] + AnsweredAll(results))
  {
    MessagesAppend(s.entries, [Replied(reply)]);
    MessagesAppend(s.entries + [Replied(reply)], AnsweredAll(results));
    MessagesOfAll(results);
    assert Messages([Replied(reply)]) == [reply];
    Associative(history, Messages(s.entries), [reply]);
    Associative(history, Messages(s.entries) + [reply], results);
  }

  lemma TurnIds(w: World, context: seq<Message>, reply: Message, after: seq<Message>, turn: nat)
    requires AllCalls(after) == AllCalls(context) + CallsOf(reply)
    requires NotYetInvented(w, PriorIds(RulesAt(w, 0), context), turn)
    requires NotYetInvented(w, TrimmedIds(RulesAt(w, 0), CallsOf(reply)), turn + 1)
    ensures NotYetInvented(w, PriorIds(RulesAt(w, 0), after), turn + 1)
  {
    var g := RulesAt(w, 0);
    assert TrimmedIds(g, AllCalls(context) + CallsOf(reply))
        == TrimmedIds(g, AllCalls(context)) + TrimmedIds(g, CallsOf(reply));
  }

  lemma TurnRequests(s: St, after: seq<Message>)
    requires s.context <= after && Closed(s.context)
    requires forall k :: 0 <= k < |s.requests| ==> Closed(s.requests[k]) && s.requests[k] <= s.context
    ensures var requests := s.requests + [s.context];
            forall k :: 0 <= k < |requests| ==> Closed(requests[k]) && requests[k] <= after
  {
    forall k | 0 <= k < |s.requests| ensures s.requests[k] <= after {
      assert s.requests[k] <= s.context;
    }
  }
}
