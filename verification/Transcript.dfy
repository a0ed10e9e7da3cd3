/**
 The pairing of tool calls and tool results in a conversation.

 The analyser and the repair are loops over the messages; the functions here give
 their state after every prefix, and the methods at the end compute those functions.
 A dictionary keyed by call id is a sequence of calls in insertion order.
 */
module Transcript {
  import opened Basics

  datatype Call = Call(id: string, name: string)

  datatype Block = ToolCall(call: Call) | Text(text: string)

  /** `Plain` is every message that is neither an assistant message nor a tool result. */
  datatype Message =
    | Assistant(content: seq<Block>, stopReason: string)
    | ToolResult(callId: string, toolName: string, synthetic: bool, body: string)
    | Plain(role: string, text: string)

  datatype ErrorCode = InvalidToolCall | DuplicateToolCallId | DuplicateToolResult | OrphanToolResult | ToolNameMismatch

  datatype Result<+T> = Ok(value: T) | Err(error: ErrorCode)

  function CallsIn(content: seq<Block>): seq<Call> {
    if content == [] then []
    else (if content[0].ToolCall? then [content[0].call] else []) + CallsIn(content[1..])
  }

  function CallsOf(m: Message): seq<Call> {
    if m.Assistant? then CallsIn(m.content) else []
  }

  function Ids(calls: seq<Call>): set<string> {
    set c | c in calls :: c.id
  }

  // ---------- The analyser ----------

  datatype Scan = Scan(pending: seq<Call>, seenCalls: set<string>, seenResults: set<string>, unresolved: seq<Call>)

  const Start := Scan([], {}, {}, [])

  function Without(calls: seq<Call>, id: string): seq<Call> {
    if calls == [] then []
    else if calls[0].id == id then calls[1..]
    else [calls[0]] + Without(calls[1..], id)
  }

  function Lookup(calls: seq<Call>, id: string): seq<Call> {
    if calls == [] then []
    else if calls[0].id == id then [calls[0]]
    else Lookup(calls[1..], id)
  }

  function AddCall(s: Scan, c: Call): Result<Scan> {
    if c.id == "" || c.name == "" then Err(InvalidToolCall)
    else if c.id in s.seenCalls then Err(DuplicateToolCallId)
    else Ok(s.(pending := s.pending + [c], seenCalls := s.seenCalls + {c.id}))
  }

  function AddCalls(s: Scan, calls: seq<Call>): Result<Scan> {
    if calls == [] then Ok(s)
    else
      match AddCalls(s, calls[..|calls| - 1])
      case Err(e) => Err(e)
      case Ok(t) => AddCall(t, calls[|calls| - 1])
  }

  function TakeResult(s: Scan, m: Message): Result<Scan>
    requires m.ToolResult?
  {
    var expected := Lookup(s.pending, m.callId);
    if m.callId in s.seenResults then Err(DuplicateToolResult)
    else if expected == [] then Err(OrphanToolResult)
    else if m.toolName != expected[0].name then Err(ToolNameMismatch)
    else Ok(s.(seenResults := s.seenResults + {m.callId}, pending := Without(s.pending, m.callId)))
  }

  /** A message that is not a tool result gives up on the calls still pending. */
  function Flush(s: Scan): Scan {
    s.(unresolved := s.unresolved + s.pending, pending := [])
  }

  function Read(s: Scan, m: Message): Result<Scan> {
    if m.ToolResult? then TakeResult(s, m) else AddCalls(Flush(s), CallsOf(m))
  }

  function ScanOf(ms: seq<Message>): Result<Scan> {
    if ms == [] then Ok(Start)
    else
      match ScanOf(ms[..|ms| - 1])
      case Err(e) => Err(e)
      case Ok(s) => Read(s, ms[|ms| - 1])
  }

  /** The calls without a result, in the order the model made them. */
  function Analysis(ms: seq<Message>): Result<seq<Call>> {
    match ScanOf(ms)
    case Err(e) => Err(e)
    case Ok(s) => Ok(s.unresolved + s.pending)
  }

  predicate Closed(ms: seq<Message>) {
    Analysis(ms) == Ok([])
  }

  // ---------- What the analyser accepts, said without it ----------

  function AllCalls(ms: seq<Message>): seq<Call> {
    if ms == [] then [] else AllCalls(ms[..|ms| - 1]) + CallsOf(ms[|ms| - 1])
  }

  function ResultIds(ms: seq<Message>): set<string> {
    set m | m in ms && m.ToolResult? :: m.callId
  }

  ghost predicate DistinctIds(calls: seq<Call>) {
    forall i, j :: 0 <= i < j < |calls| ==> calls[i].id != calls[j].id
  }

  /** Call `c` was made at `i` and is still unanswered after the results that follow. */
  ghost predicate OpenSince(ms: seq<Message>, i: nat, c: Call) {
    && i < |ms| && c in CallsOf(ms[i])
    && forall k :: i < k < |ms| ==> ms[k].ToolResult? && ms[k].callId != c.id
  }

  ghost predicate Open(ms: seq<Message>, c: Call) {
    exists i: nat :: OpenSince(ms, i, c)
  }

  /** Calls are named and never share an id, and every result directly answers, first
      and by its name, a call of the assistant message before it. */
  ghost predicate WellPaired(ms: seq<Message>) {
    && (forall c :: c in AllCalls(ms) ==> c.id != "" && c.name != "")
    && DistinctIds(AllCalls(ms))
    && ResultsDirect(ms)
  }

  ghost predicate ResultsDirect(ms: seq<Message>) {
    forall j :: 0 <= j < |ms| && ms[j].ToolResult? ==> Open(ms[..j], Call(ms[j].callId, ms[j].toolName))
  }

  function Unanswered(calls: seq<Call>, answered: set<string>): seq<Call> {
    if calls == [] then []
    else (if calls[0].id in answered then [] else [calls[0]]) + Unanswered(calls[1..], answered)
  }

  // ---------- Facts about the dictionary ----------

  /** The first of distinct calls differs from all others. */
  lemma FirstDistinct(first: Call, rest: seq<Call>)
    ensures DistinctIds([first] + rest) <==> DistinctIds(rest) && forall c :: c in rest ==> c.id != first.id
  {
    var all := [first] + rest;
    assert forall i :: 0 <= i < |rest| ==> all[i + 1] == rest[i];
    if DistinctIds(all) {
      forall i, j | 0 <= i < j < |rest| ensures rest[i].id != rest[j].id {
        assert all[i + 1].id != all[j + 1].id;
      }
      forall c | c in rest ensures c.id != first.id {
        var i :| 0 <= i < |rest| && rest[i] == c;
        assert all[0].id != all[i + 1].id;
      }
    }
  }

  lemma {:induction false} WithoutIs(calls: seq<Call>, id: string)
    requires DistinctIds(calls)
    ensures forall c :: c in Without(calls, id) <==> c in calls && c.id != id
    ensures DistinctIds(Without(calls, id))
  {
    if calls != [] {
      var first, rest := calls[0], calls[1..];
      assert calls == [first] + rest;
      FirstDistinct(first, rest);
      WithoutIs(rest, id);
      FirstDistinct(first, Without(rest, id));
    }
  }

  lemma LookupIs(calls: seq<Call>, id: string)
    requires DistinctIds(calls)
    ensures |Lookup(calls, id)| <= 1
    ensures forall c :: c in calls && c.id == id <==> Lookup(calls, id) == [c]
    ensures Lookup(calls, id) == [] <==> id !in Ids(calls)
  {
    if calls != [] {
      LookupIs(calls[1..], id);
      assert calls == [calls[0]] + calls[1..];
      forall c | c in calls[1..] ensures c.id != calls[0].id {
        var i :| 0 <= i < |calls[1..]| && calls[1..][i] == c;
        assert calls[i + 1] == c;
      }
    }
  }

  lemma AppendDistinct(a: seq<Call>, b: seq<Call>)
    ensures DistinctIds(a + b) <==> DistinctIds(a) && DistinctIds(b) && Ids(a) !! Ids(b)
  {
    if DistinctIds(a + b) {
      assert forall i :: 0 <= i < |a| ==> (a + b)[i] == a[i];
      assert forall i :: 0 <= i < |b| ==> (a + b)[|a| + i] == b[i];
      forall c, d | c in a && d in b ensures c.id != d.id {
        var i :| 0 <= i < |a| && a[i] == c;
        var j :| 0 <= j < |b| && b[j] == d;
        assert (a + b)[i].id != (a + b)[|a| + j].id;
      }
    } else if DistinctIds(a) && DistinctIds(b) && Ids(a) !! Ids(b) {
      forall i, j | 0 <= i < j < |a + b| ensures (a + b)[i].id != (a + b)[j].id {
        if i < |a| <= j {
          assert a[i] in a && b[j - |a|] in b;
          assert a[i].id in Ids(a) && b[j - |a|].id in Ids(b);
        }
      }
    }
  }

  // ---------- One message at a time ----------

  /** The declarative meaning of an analyser state. */
  ghost predicate Means(ms: seq<Message>, s: Scan) {
    && s.seenCalls == Ids(AllCalls(ms)) && s.seenResults == ResultIds(ms)
    && (forall c :: c in s.pending <==> Open(ms, c))
    && DistinctIds(s.unresolved + s.pending)
    && (forall c :: c in s.unresolved + s.pending ==> c.id in s.seenCalls && c.id !in s.seenResults)
    && s.seenResults <= s.seenCalls
    && s.unresolved + s.pending == Unanswered(AllCalls(ms), ResultIds(ms))
  }

  lemma OpenAfterResult(ms: seq<Message>, m: Message, c: Call)
    requires m.ToolResult?
    ensures Open(ms + [m], c) <==> Open(ms, c) && c.id != m.callId
  {
    var all := ms + [m];
    if Open(all, c) {
      var i: nat :| OpenSince(all, i, c);
      assert i < |ms| && all[|ms|] == m;
      assert forall k :: 0 <= k < |ms| ==> all[k] == ms[k];
      assert OpenSince(ms, i, c);
    }
    if Open(ms, c) && c.id != m.callId {
      var i: nat :| OpenSince(ms, i, c);
      assert OpenSince(all, i, c);
    }
  }

  lemma OpenAfterOther(ms: seq<Message>, m: Message, c: Call)
    requires !m.ToolResult?
    ensures Open(ms + [m], c) <==> c in CallsOf(m)
  {
    var all := ms + [m];
    assert all[|ms|] == m;
    if Open(all, c) {
      var i: nat :| OpenSince(all, i, c);
      assert i == |ms|;
    }
    if c in CallsOf(m) {
      assert OpenSince(all, |ms|, c);
    }
  }

  lemma ResultIdsSnoc(ms: seq<Message>, m: Message)
    ensures ResultIds(ms + [m]) == ResultIds(ms) + if m.ToolResult? then {m.callId} else {}
  {}

  lemma AllCallsSnoc(ms: seq<Message>, m: Message)
    ensures AllCalls(ms + [m]) == AllCalls(ms) + CallsOf(m)
  {
    assert (ms + [m])[..|ms|] == ms;
  }

  lemma ScanSnoc(ms: seq<Message>, m: Message)
    ensures ScanOf(ms + [m]) == match ScanOf(ms) case Err(e) => Err(e) case Ok(s) => Read(s, m)
  {
    assert (ms + [m])[..|ms|] == ms;
  }

  lemma {:induction false} UnansweredAppend(a: seq<Call>, b: seq<Call>, answered: set<string>)
    ensures Unanswered(a + b, answered) == Unanswered(a, answered) + Unanswered(b, answered)
    decreases |a|
  {
    if |a| == 0 {
      NoneAdded(b);
      NoneAdded(Unanswered(b, answered));
    } else {
      TailOfSum(a, b);
      UnansweredAppend(a[1..], b, answered);
      Associative(if a[0].id in answered then [] else [a[0]], Unanswered(a[1..], answered), Unanswered(b, answered));
    }
  }

  lemma AllUnanswered(calls: seq<Call>, answered: set<string>)
    requires Ids(calls) !! answered
    ensures Unanswered(calls, answered) == calls
  {
    if calls != [] {
      assert calls[0].id in Ids(calls);
      assert Ids(calls[1..]) <= Ids(calls);
      AllUnanswered(calls[1..], answered);
    }
  }

  /** Answering one more id drops its call and keeps the order of the others. */
  lemma UnansweredMore(calls: seq<Call>, answered: set<string>, id: string)
    ensures Unanswered(calls, answered + {id}) == Unanswered(Unanswered(calls, answered), {id})
  {
    if calls != [] {
      UnansweredMore(calls[1..], answered, id);
      var head := if calls[0].id in answered then [] else [calls[0]];
      UnansweredAppend(head, Unanswered(calls[1..], answered), {id});
      assert Unanswered([calls[0]], {id}) == if calls[0].id == id then [] else [calls[0]];
    }
  }

  lemma WithoutIsUnanswered(calls: seq<Call>, id: string)
    requires DistinctIds(calls)
    ensures Without(calls, id) == Unanswered(calls, {id})
  {
    if calls != [] {
      if calls[0].id == id {
        assert forall i :: 0 <= i < |calls[1..]| ==> calls[1..][i] == calls[i + 1];
        AllUnanswered(calls[1..], {id});
      } else {
        WithoutIsUnanswered(calls[1..], id);
      }
    }
  }

  lemma {:induction false} AddCallsIs(s: Scan, calls: seq<Call>)
    ensures AddCalls(s, calls).Ok? <==>
      && (forall c :: c in calls ==> c.id != "" && c.name != "")
      && DistinctIds(calls) && Ids(calls) !! s.seenCalls
    ensures AddCalls(s, calls).Ok? ==>
      AddCalls(s, calls).value == s.(pending := s.pending + calls, seenCalls := s.seenCalls + Ids(calls))
  {
    if calls != [] {
      var rest, c := calls[..|calls| - 1], calls[|calls| - 1];
      assert calls == rest + [c];
      AddCallsIs(s, rest);
      AppendDistinct(rest, [c]);
      assert Ids(calls) == Ids(rest) + {c.id};
    }
  }

  lemma ReadResult(ms: seq<Message>, s: Scan, m: Message)
    requires Means(ms, s) && m.ToolResult?
    ensures Read(s, m).Ok? <==> Open(ms, Call(m.callId, m.toolName))
    ensures Read(s, m).Ok? ==>
      Read(s, m).value == s.(seenResults := s.seenResults + {m.callId}, pending := Without(s.pending, m.callId))
  {
    AppendDistinct(s.unresolved, s.pending);
    LookupIs(s.pending, m.callId);
    var c := Call(m.callId, m.toolName);
    assert c in s.pending ==> c in s.unresolved + s.pending;
  }

  lemma ResultKeepsTables(ms: seq<Message>, s: Scan, id: string)
    requires DistinctIds(s.unresolved + s.pending) && id in Ids(s.pending)
    requires forall c :: c in s.unresolved + s.pending ==> c.id in s.seenCalls && c.id !in s.seenResults
    ensures var pending := Without(s.pending, id);
            && DistinctIds(s.unresolved + pending) && id !in Ids(s.unresolved)
            && (forall c :: c in pending <==> c in s.pending && c.id != id)
            && forall c :: c in s.unresolved + pending ==> c.id in s.seenCalls && c.id !in s.seenResults + {id}
  {
    AppendDistinct(s.unresolved, s.pending);
    WithoutIs(s.pending, id);
    AppendDistinct(s.unresolved, Without(s.pending, id));
  }

  lemma ResultKeepsOrder(ms: seq<Message>, s: Scan, id: string)
    requires DistinctIds(s.pending) && id !in Ids(s.unresolved)
    requires s.unresolved + s.pending == Unanswered(AllCalls(ms), ResultIds(ms))
    ensures s.unresolved + Without(s.pending, id) == Unanswered(AllCalls(ms), ResultIds(ms) + {id})
  {
    UnansweredMore(AllCalls(ms), ResultIds(ms), id);
    UnansweredAppend(s.unresolved, s.pending, {id});
    AllUnanswered(s.unresolved, {id});
    WithoutIsUnanswered(s.pending, id);
  }

  lemma ResultKeepsOpen(ms: seq<Message>, pending: seq<Call>, m: Message)
    requires m.ToolResult? && DistinctIds(pending) && forall c :: c in pending <==> Open(ms, c)
    ensures forall c :: c in Without(pending, m.callId) <==> Open(ms + [m], c)
  {
    WithoutIs(pending, m.callId);
    forall c ensures c in Without(pending, m.callId) <==> Open(ms + [m], c) {
      OpenAfterResult(ms, m, c);
    }
  }

  lemma PendingAnswer(ms: seq<Message>, s: Scan, m: Message)
    requires Means(ms, s) && m.ToolResult? && Open(ms, Call(m.callId, m.toolName))
    ensures m.callId in Ids(s.pending) && m.callId in s.seenCalls && DistinctIds(s.pending)
  {
    var c := Call(m.callId, m.toolName);
    assert c in s.pending && c in s.unresolved + s.pending;
    AppendDistinct(s.unresolved, s.pending);
  }

  lemma ResultTables(ms: seq<Message>, m: Message)
    requires m.ToolResult?
    ensures AllCalls(ms + [m]) == AllCalls(ms) && ResultIds(ms + [m]) == ResultIds(ms) + {m.callId}
  {
    ResultIdsSnoc(ms, m);
    AllCallsSnoc(ms, m);
  }

  lemma ResultMeans(ms: seq<Message>, s: Scan, m: Message)
    requires Means(ms, s) && m.ToolResult? && Open(ms, Call(m.callId, m.toolName))
    ensures Means(ms + [m], s.(seenResults := s.seenResults + {m.callId}, pending := Without(s.pending, m.callId)))
  {
    PendingAnswer(ms, s, m);
    ResultKeepsTables(ms, s, m.callId);
    ResultKeepsOrder(ms, s, m.callId);
    ResultKeepsOpen(ms, s.pending, m);
    ResultTables(ms, m);
  }

  lemma ReadOther(ms: seq<Message>, s: Scan, m: Message)
    requires !m.ToolResult?
    ensures Read(s, m).Ok? <==>
      && (forall c :: c in CallsOf(m) ==> c.id != "" && c.name != "")
      && DistinctIds(CallsOf(m)) && Ids(CallsOf(m)) !! s.seenCalls
    ensures Read(s, m).Ok? ==>
      Read(s, m).value ==
      Scan(CallsOf(m), s.seenCalls + Ids(CallsOf(m)), s.seenResults, s.unresolved + s.pending)
  {
    AddCallsIs(Flush(s), CallsOf(m));
  }

  lemma OtherMeans(ms: seq<Message>, s: Scan, m: Message)
    requires Means(ms, s) && !m.ToolResult?
    requires DistinctIds(CallsOf(m)) && Ids(CallsOf(m)) !! Ids(AllCalls(ms))
    ensures Means(ms + [m], Scan(CallsOf(m), s.seenCalls + Ids(CallsOf(m)), s.seenResults, s.unresolved + s.pending))
  {
    var calls := CallsOf(m);
    forall c ensures c in calls <==> Open(ms + [m], c) {
      OpenAfterOther(ms, m, c);
    }
    ResultIdsSnoc(ms, m);
    AllCallsSnoc(ms, m);
    AppendDistinct(s.unresolved + s.pending, calls);
    UnansweredAppend(AllCalls(ms), calls, ResultIds(ms));
    AllUnanswered(calls, ResultIds(ms));
  }

  lemma ResultsDirectSnoc(ms: seq<Message>, m: Message)
    ensures ResultsDirect(ms + [m]) <==>
      ResultsDirect(ms) && (m.ToolResult? ==> Open(ms, Call(m.callId, m.toolName)))
  {
    var all := ms + [m];
    assert forall j :: 0 <= j < |ms| ==> all[j] == ms[j] && all[..j] == ms[..j];
    assert all[|ms|] == m && all[..|ms|] == ms;
  }

  lemma WellPairedSnoc(ms: seq<Message>, m: Message)
    ensures WellPaired(ms + [m]) <==>
      && WellPaired(ms)
      && (forall c :: c in CallsOf(m) ==> c.id != "" && c.name != "")
      && DistinctIds(CallsOf(m)) && Ids(AllCalls(ms)) !! Ids(CallsOf(m))
      && (m.ToolResult? ==> Open(ms, Call(m.callId, m.toolName)))
  {
    AllCallsSnoc(ms, m);
    AppendDistinct(AllCalls(ms), CallsOf(m));
    ResultsDirectSnoc(ms, m);
  }

  /** The analyser accepts exactly the well-paired transcripts, and reports exactly the
      calls no result answers, in model order. */
  lemma {:induction false} AnalyserExact(ms: seq<Message>)
    ensures ScanOf(ms).Ok? <==> WellPaired(ms)
    ensures ScanOf(ms).Ok? ==> Means(ms, ScanOf(ms).value)
    ensures Analysis(ms).Ok? ==> Analysis(ms).value == Unanswered(AllCalls(ms), ResultIds(ms))
  {
    if ms != [] {
      var rest, m := ms[..|ms| - 1], ms[|ms| - 1];
      assert ms == rest + [m];
      AnalyserExact(rest);
      WellPairedSnoc(rest, m);
      if ScanOf(rest).Ok? {
        ReadMeans(rest, ScanOf(rest).value, m);
      }
    }
  }

  lemma ReadMeans(ms: seq<Message>, s: Scan, m: Message)
    requires Means(ms, s)
    ensures Read(s, m).Ok? <==>
      && (forall c :: c in CallsOf(m) ==> c.id != "" && c.name != "")
      && DistinctIds(CallsOf(m)) && Ids(AllCalls(ms)) !! Ids(CallsOf(m))
      && (m.ToolResult? ==> Open(ms, Call(m.callId, m.toolName)))
    ensures Read(s, m).Ok? ==> Means(ms + [m], Read(s, m).value)
  {
    if m.ToolResult? {
      ReadResult(ms, s, m);
      if Read(s, m).Ok? { ResultMeans(ms, s, m); }
    } else {
      ReadOther(ms, s, m);
      if Read(s, m).Ok? { OtherMeans(ms, s, m); }
    }
  }

  // ---------- Terminal messages ----------

  function TextOnly(content: seq<Block>): seq<Block> {
    if content == [] then []
    else (if content[0].ToolCall? then [] else [content[0]]) + TextOnly(content[1..])
  }

  /** A failed or aborted assistant message must not leave calls behind. */
  function Sanitize(m: Message): Message {
    if m.Assistant? && m.stopReason in {"error", "aborted"} then m.(content := TextOnly(m.content)) else m
  }

  lemma {:induction false} TextOnlySnoc(rest: seq<Block>, b: Block)
    ensures TextOnly(rest + [b]) == TextOnly(rest) + if b.ToolCall? then [] else [b]
  {
    var all := rest + [b];
    if |rest| == 0 {
      assert all[1..] == rest;
    } else {
      assert all[1..] == rest[1..] + [b];
      TextOnlySnoc(rest[1..], b);
    }
  }

  lemma {:induction false} CallsInText(content: seq<Block>, b: Block)
    requires CallsIn(content) == [] && !b.ToolCall?
    ensures CallsIn(content + [b]) == []
    decreases |content|
  {
    if content == [] {
      assert content + [b] == [b] && [b][1..] == [];
    } else {
      assert (content + [b])[1..] == content[1..] + [b];
      CallsInText(content[1..], b);
    }
  }

  /** `kept` has all blocks of `content` that are not calls, in order; `at` says where. */
  ghost predicate Keeps(content: seq<Block>, at: seq<nat>, kept: seq<Block>) {
    && |kept| == |at|
    && (forall k :: 0 <= k < |at| ==> at[k] < |content| && kept[k] == content[at[k]] && !kept[k].ToolCall?)
    && (forall j, k :: 0 <= j < k < |at| ==> at[j] < at[k])
    && forall i: nat :: i < |content| && !content[i].ToolCall? ==> i in at
  }

  lemma KeepsSnoc(rest: seq<Block>, b: Block, at: seq<nat>, kept: seq<Block>)
    requires Keeps(rest, at, kept)
    ensures b.ToolCall? ==> Keeps(rest + [b], at, kept)
    ensures !b.ToolCall? ==> Keeps(rest + [b], at + [|rest|], kept + [b])
  {
    var all, more := rest + [b], at + [|rest|];
    if !b.ToolCall? {
      forall i: nat | i < |all| && !all[i].ToolCall? ensures i in more {
        if i < |rest| {
          assert all[i] == rest[i];
        } else {
          assert more[|at|] == i;
        }
      }
    }
  }

  /** All calls are gone, and every other block is still there, once and in its order. */
  lemma {:induction false} TextOnlyHasNoCalls(content: seq<Block>) returns (at: seq<nat>)
    ensures CallsIn(TextOnly(content)) == [] && Keeps(content, at, TextOnly(content))
  {
    at := [];
    if content != [] {
      var rest, b := content[..|content| - 1], content[|content| - 1];
      at := TextOnlyHasNoCalls(rest);
      assert content == rest + [b];
      TextOnlySnoc(rest, b);
      KeepsSnoc(rest, b, at, TextOnly(rest));
      if b.ToolCall? {
        assert TextOnly(rest) + [] == TextOnly(rest);
      } else {
        CallsInText(TextOnly(rest), b);
        at := at + [|rest|];
      }
    }
  }

  /** Sanitizing takes the calls out of a failed or aborted reply, and nothing else: every
      other message stays as it is. */
  lemma SanitizedExactly(m: Message) returns (at: seq<nat>)
    ensures m.Assistant? && (m.stopReason == "error" || m.stopReason == "aborted") ==>
      && Sanitize(m).Assistant? && Sanitize(m).stopReason == m.stopReason
      && CallsOf(Sanitize(m)) == [] && Keeps(m.content, at, Sanitize(m).content)
    ensures !(m.Assistant? && (m.stopReason == "error" || m.stopReason == "aborted")) ==> Sanitize(m) == m
  {
    at := [];
    if m.Assistant? {
      at := TextOnlyHasNoCalls(m.content);
    }
  }

  /** Appending a sanitized terminal message never opens a call. */
  lemma SanitizedKeepsClosed(ms: seq<Message>, m: Message)
    requires Closed(ms) && m.Assistant? && m.stopReason in {"error", "aborted"}
    ensures Closed(ms + [Sanitize(m)])
  {
    var _ := TextOnlyHasNoCalls(m.content);
    ScanSnoc(ms, Sanitize(m));
  }

  // ---------- The loops ----------

  method Analyze(messages: seq<Message>) returns (r: Result<seq<Call>>)
    ensures r == Analysis(messages)
  {
    var s := Start;
    for i := 0 to |messages|
      invariant ScanOf(messages[..i]) == Ok(s)
    {
      NextOf(messages, i);
      ScanSnoc(messages[..i], messages[i]);
      var next := ReadMessage(s, messages[i]);
      if next.Err? {
        FailsForGood(messages[..i + 1], messages[i + 1..]);
        Halves(messages, i + 1);
        return Err(next.error);
      }
      s := next.value;
    }
    Halves(messages, |messages|);
    return Ok(s.unresolved + s.pending);
  }

  /** The body of the analyser's loop. */
  method ReadMessage(s: Scan, m: Message) returns (r: Result<Scan>)
    ensures r == Read(s, m)
  {
    var pending, seenCalls, seenResults, unresolved := s.pending, s.seenCalls, s.seenResults, s.unresolved;
    if !m.ToolResult? && pending != [] {
      unresolved, pending := unresolved + pending, [];
    }
    if m.ToolResult? {
      if m.callId in seenResults {
        return Err(DuplicateToolResult);
      }
      var expected := Lookup(pending, m.callId);
      if expected == [] {
        return Err(OrphanToolResult);
      }
      if m.toolName != expected[0].name {
        return Err(ToolNameMismatch);
      }
      seenResults := seenResults + {m.callId};
      pending := Without(pending, m.callId);
    } else {
      assert s.unresolved + [] == s.unresolved;
      r := RegisterCalls(Scan(pending, seenCalls, seenResults, unresolved), CallsOf(m));
      return;
    }
    return Ok(Scan(pending, seenCalls, seenResults, unresolved));
  }

  /** The loop over the tool-call blocks of one assistant message. */
  method RegisterCalls(s: Scan, calls: seq<Call>) returns (r: Result<Scan>)
    ensures r == AddCalls(s, calls)
  {
    var pending, seenCalls := s.pending, s.seenCalls;
    for k := 0 to |calls|
      invariant AddCalls(s, calls[..k]) == Ok(s.(pending := pending, seenCalls := seenCalls))
    {
      var c := calls[k];
      assert calls[..k + 1][..k] == calls[..k];
      if c.id == "" || c.name == "" || c.id in seenCalls {
        AddFailsForGood(s, calls[..k + 1], calls[k + 1..]);
        assert calls == calls[..k + 1] + calls[k + 1..];
        return Err(if c.id == "" || c.name == "" then InvalidToolCall else DuplicateToolCallId);
      }
      seenCalls := seenCalls + {c.id};
      pending := pending + [c];
    }
    assert calls[..|calls|] == calls;
    return Ok(s.(pending := pending, seenCalls := seenCalls));
  }

  lemma FailsForGood(a: seq<Message>, b: seq<Message>)
    requires ScanOf(a).Err?
    ensures ScanOf(a + b) == ScanOf(a)
  {
    if b == [] {
      assert a + b == a;
    } else {
      assert a + b == (a + b[..|b| - 1]) + [b[|b| - 1]];
      FailsForGood(a, b[..|b| - 1]);
      ScanSnoc(a + b[..|b| - 1], b[|b| - 1]);
    }
  }

  lemma AddFailsForGood(s: Scan, a: seq<Call>, b: seq<Call>)
    requires AddCalls(s, a).Err?
    ensures AddCalls(s, a + b) == AddCalls(s, a)
  {
    if b == [] {
      assert a + b == a;
    } else {
      assert (a + b)[..|a + b| - 1] == a + b[..|b| - 1];
      AddFailsForGood(s, a, b[..|b| - 1]);
    }
  }
}
