/**
 Recovering the conversation when a run fails between any two statements.

 A tool's real result is staged when the tool ends and moves into the history only when
 its own message ends. A failure in between must neither lose it nor write it twice.
 */
module RunRecovery {
  import opened Basics
  import opened Transcript
  import opened TranscriptRepair

  /** The two fields of the agent the recovery works from. */
  datatype Run = Run(messages: seq<Message>, staged: map<string, Message>)

  datatype Event =
    | MessageEnd(message: Message)
    | ToolExecutionEnd(committed: Message)
    | TranscriptRepaired(context: seq<Message>, text: string)

  /** What an event does before the listeners see it. */
  function Update(r: Run, e: Event): Run {
    match e
    case MessageEnd(m) => r.(messages := r.messages + [m])
    case ToolExecutionEnd(m) =>
      if m.ToolResult? && m.callId != "" then r.(staged := r.staged[m.callId := m]) else r
    case TranscriptRepaired(context, _) => r.(messages := context)
  }

  /** What it does once every listener returned. */
  function Settle(r: Run, e: Event): Run {
    if e.MessageEnd? && e.message.ToolResult? then r.(staged := r.staged - {e.message.callId}) else r
  }

  function Play(r: Run, events: seq<Event>): Run
    decreases |events|
  {
    if events == [] then r else Play(Settle(Update(r, events[0]), events[0]), events[1..])
  }

  /** The agent at the moment of the failure: `events` are over and, when `cut` is an
      event, that one updated the state but its listeners did not all return. */
  datatype Cut = Between | During(event: Event)

  function Stopped(r: Run, events: seq<Event>, cut: Cut): Run {
    match cut
    case Between => Play(r, events)
    case During(e) => Update(Play(r, events), e)
  }

  // ---------- Which events the loop emits ----------

  ghost predicate Awaits(ms: seq<Message>, c: Call) {
    ScanOf(ms).Ok? && c in ScanOf(ms).value.pending
  }

  /** A tool ends once, for a pending call; a result message is the one that was staged;
      any other message comes when nothing is staged, with fresh, named calls. */
  ghost predicate Legal(r: Run, e: Event) {
    match e
    case MessageEnd(m) =>
      if m.ToolResult? then m.callId in r.staged && r.staged[m.callId] == m
      else r.staged == map[] && ScanOf(r.messages + [m]).Ok?
    case ToolExecutionEnd(m) =>
      m.ToolResult? && m.callId !in r.staged && Awaits(r.messages, Call(m.callId, m.toolName))
    case TranscriptRepaired(context, text) =>
      && r.staged == map[] && Repair(r.messages, text).Ok?
      && context == Repair(r.messages, text).value.0
  }

  ghost predicate LegalRun(r: Run, events: seq<Event>)
    decreases |events|
  {
    events == [] || (Legal(r, events[0]) && LegalRun(Settle(Update(r, events[0]), events[0]), events[1..]))
  }

  ghost predicate LegalCut(r: Run, events: seq<Event>, cut: Cut) {
    LegalRun(r, events) && (cut.During? ==> Legal(Play(r, events), cut.event))
  }

  // ---------- The recovery ----------

  /** The staged results of the pending calls, in model order. */
  function Commits(pending: seq<Call>, staged: map<string, Message>): seq<Message> {
    if pending == [] then []
    else
      var c := pending[0];
      (if c.id in staged && staged[c.id].ToolResult? && staged[c.id].toolName == c.name then [staged[c.id]] else [])
      + Commits(pending[1..], staged)
  }

  datatype Placing = Placing(output: seq<Message>, pending: seq<Call>)

  function PlaceStep(p: Placing, m: Message, staged: map<string, Message>): Placing {
    if m.ToolResult? then Placing(p.output + [m], Without(p.pending, m.callId))
    else Placing(p.output + Commits(p.pending, staged) + [m], PutAll([], CallsOf(m)))
  }

  function PlaceScan(ms: seq<Message>, staged: map<string, Message>): Placing {
    if ms == [] then Placing([], [])
    else PlaceStep(PlaceScan(ms[..|ms| - 1], staged), ms[|ms| - 1], staged)
  }

  /** The history with the staged results put where they belong. */
  function Materialized(r: Run): seq<Message> {
    var p := PlaceScan(r.messages, r.staged);
    p.output + Commits(p.pending, r.staged)
  }

  /** The history after a failed run; a history that cannot be repaired is left alone. */
  function Recovered(r: Run, text: string): seq<Message> {
    match Repair(Materialized(r), text)
    case Ok((output, _)) => output
    case Err(_) => r.messages
  }

  // ---------- What every reachable state looks like ----------

  ghost predicate Placed(ms: seq<Message>, id: string, m: Message) {
    && m.ToolResult? && m.callId == id
    && (Awaits(ms, Call(id, m.toolName)) || m in ms)
  }

  /** Every staged result answers a pending call or is already in the history. */
  ghost predicate Recoverable(r: Run) {
    && ScanOf(r.messages).Ok?
    && forall id :: id in r.staged ==> Placed(r.messages, id, r.staged[id])
  }

  /** Between two events, a staged result still waits for its message. */
  ghost predicate Waiting(r: Run) {
    && ScanOf(r.messages).Ok?
    && forall id :: id in r.staged ==>
         && r.staged[id].ToolResult? && r.staged[id].callId == id
         && Awaits(r.messages, Call(id, r.staged[id].toolName))
  }

  lemma AwaitsOpen(ms: seq<Message>, c: Call)
    requires ScanOf(ms).Ok?
    ensures Awaits(ms, c) <==> Open(ms, c)
  {
    AnalyserExact(ms);
  }

  /** Answering one call leaves the others pending. */
  lemma AnswerKeepsAwaiting(ms: seq<Message>, m: Message)
    requires m.ToolResult? && Awaits(ms, Call(m.callId, m.toolName))
    ensures ScanOf(ms + [m]).Ok?
    ensures forall c: Call :: c.id != m.callId && Awaits(ms, c) ==> Awaits(ms + [m], c)
  {
    AnalyserExact(ms);
    ScanSnoc(ms, m);
    ReadResult(ms, ScanOf(ms).value, m);
    forall c: Call | c.id != m.callId && Awaits(ms, c) ensures Awaits(ms + [m], c) {
      OpenAfterResult(ms, m, c);
      AwaitsOpen(ms + [m], c);
    }
  }

  lemma UpdateRecoverable(r: Run, e: Event)
    requires Waiting(r) && Legal(r, e)
    ensures Recoverable(Update(r, e))
  {
    match e
    case MessageEnd(m) =>
      if m.ToolResult? {
        AnswerKeepsAwaiting(r.messages, m);
        forall id | id in r.staged ensures Placed(r.messages + [m], id, r.staged[id]) {
          if id == m.callId { assert (r.messages + [m])[|r.messages|] == m; }
        }
      }
    case ToolExecutionEnd(m) =>
    case TranscriptRepaired(context, text) =>
      RepairSpec(r.messages, text);
  }

  lemma StepWaiting(r: Run, e: Event)
    requires Waiting(r) && Legal(r, e)
    ensures Waiting(Settle(Update(r, e), e))
  {
    match e
    case MessageEnd(m) =>
      if m.ToolResult? { AnswerKeepsAwaiting(r.messages, m); }
    case ToolExecutionEnd(m) =>
    case TranscriptRepaired(context, text) =>
      RepairSpec(r.messages, text);
  }

  lemma {:induction false} RunWaiting(r: Run, events: seq<Event>)
    requires Waiting(r) && LegalRun(r, events)
    ensures Waiting(Play(r, events))
    decreases |events|
  {
    if events != [] {
      StepWaiting(r, events[0]);
      RunWaiting(Settle(Update(r, events[0]), events[0]), events[1..]);
    }
  }

  // ---------- A committed result is never lost ----------

  ghost predicate Kept(r: Run, m: Message) {
    m.ToolResult? && (m in r.messages || (m.callId in r.staged && r.staged[m.callId] == m))
  }

  lemma ErasedFrom(ms: seq<Message>, ids: set<string>, m: Message)
    requires m in Erase(ms, ids)
    ensures m in ms
  {
    if ms[0] != m {
      ErasedFrom(ms[1..], ids, m);
    }
  }

  /** The repair keeps every message. */
  lemma RepairKeeps(ms: seq<Message>, text: string, m: Message)
    requires Repair(ms, text).Ok? && m in ms
    ensures m in Repair(ms, text).value.0
  {
    RepairSpec(ms, text);
    ErasedFrom(Repair(ms, text).value.0, Ids(Analysis(ms).value), m);
  }

  lemma UpdateKeeps(r: Run, e: Event, m: Message)
    requires Legal(r, e)
    requires Kept(r, m) || (e.ToolExecutionEnd? && e.committed == m && m.callId != "")
    ensures Kept(Update(r, e), m) && Kept(Settle(Update(r, e), e), m)
  {
    match e
    case MessageEnd(n) =>
      assert n in r.messages + [n];
      assert m in r.messages ==> m in r.messages + [n];
    case ToolExecutionEnd(n) =>
    case TranscriptRepaired(context, text) =>
      if m in r.messages { RepairKeeps(r.messages, text, m); }
  }

  lemma {:induction false} KeptForever(r: Run, events: seq<Event>, m: Message)
    requires LegalRun(r, events) && Kept(r, m)
    ensures Kept(Play(r, events), m)
    decreases |events|
  {
    if events != [] {
      UpdateKeeps(r, events[0], m);
      KeptForever(Settle(Update(r, events[0]), events[0]), events[1..], m);
    }
  }

  lemma {:induction false} CommittedKept(r: Run, events: seq<Event>, m: Message)
    requires Waiting(r) && LegalRun(r, events) && ToolExecutionEnd(m) in events
    ensures Kept(Play(r, events), m)
    decreases |events|
  {
    var next := Settle(Update(r, events[0]), events[0]);
    StepWaiting(r, events[0]);
    if events[0] == ToolExecutionEnd(m) {
      PendingNamed(r.messages, Call(m.callId, m.toolName));
      UpdateKeeps(r, events[0], m);
      KeptForever(next, events[1..], m);
    } else {
      CommittedKept(next, events[1..], m);
    }
  }

  lemma PendingNamed(ms: seq<Message>, c: Call)
    requires Awaits(ms, c)
    ensures c.id != "" && c in AllCalls(ms)
  {
    AnalyserExact(ms);
    var s := ScanOf(ms).value;
    assert c in s.unresolved + s.pending;
    UnansweredSubset(AllCalls(ms), ResultIds(ms), c);
  }

  lemma UnansweredSubset(calls: seq<Call>, answered: set<string>, c: Call)
    ensures c in Unanswered(calls, answered) <==> c in calls && c.id !in answered
  {
    if calls != [] {
      assert calls == [calls[0]] + calls[1..];
      UnansweredSubset(calls[1..], answered, c);
    }
  }

  // ---------- The staged results fit where they are put ----------

  lemma NoCommits(calls: seq<Call>, staged: map<string, Message>)
    requires Ids(calls) !! staged.Keys
    ensures Commits(calls, staged) == []
  {
    if calls != [] {
      assert calls[0].id in Ids(calls) && Ids(calls[1..]) <= Ids(calls);
      NoCommits(calls[1..], staged);
    }
  }

  lemma PlaceNext(rest: seq<Message>, s: Scan, m: Message, staged: map<string, Message>)
    requires Read(s, m).Ok? && Ids(Read(s, m).value.unresolved) !! staged.Keys
    ensures PlaceStep(Placing(rest, s.pending), m, staged) == Placing(rest + [m], Read(s, m).value.pending)
    ensures Ids(s.unresolved) !! staged.Keys
  {
    UnresolvedGrows(s, m);
    if !m.ToolResult? {
      NoCommits(s.pending, staged);
      ReadSettledOther(s, m);
      NoneAdded(rest);
    }
  }

  /** No staged result belongs to a call that was given up, so all of them go to the end. */
  lemma {:induction false} PlacedAtTheEnd(ms: seq<Message>, staged: map<string, Message>)
    requires ScanOf(ms).Ok? && Ids(ScanOf(ms).value.unresolved) !! staged.Keys
    ensures PlaceScan(ms, staged) == Placing(ms, ScanOf(ms).value.pending)
  {
    if ms != [] {
      var rest, m := ms[..|ms| - 1], ms[|ms| - 1];
      var s := ScanOf(rest).value;
      assert ms == rest + [m];
      PlaceNext(rest, s, m, staged);
      PlacedAtTheEnd(rest, staged);
    }
  }

  lemma GivenUpNotStaged(r: Run)
    requires Recoverable(r)
    ensures Ids(ScanOf(r.messages).value.unresolved) !! r.staged.Keys
  {
    AnalyserExact(r.messages);
    var s := ScanOf(r.messages).value;
    AppendDistinct(s.unresolved, s.pending);
    forall id | id in r.staged ensures id !in Ids(s.unresolved) {
      var m := r.staged[id];
      assert Placed(r.messages, id, m);
      if Awaits(r.messages, Call(id, m.toolName)) {
        assert Call(id, m.toolName).id in Ids(s.pending);
      } else {
        assert id in ResultIds(r.messages);
      }
    }
  }

  lemma MaterializedIs(r: Run)
    requires Recoverable(r)
    ensures Materialized(r) == r.messages + Commits(ScanOf(r.messages).value.pending, r.staged)
  {
    GivenUpNotStaged(r);
    PlacedAtTheEnd(r.messages, r.staged);
  }

  /** The messages are results, each for its own call of the list. */
  ghost predicate Answers(results: seq<Message>, calls: seq<Call>) {
    && (forall k :: 0 <= k < |results| ==> AnswersOne(results[k], calls))
    && forall j, k :: 0 <= j < k < |results| && results[j].ToolResult? && results[k].ToolResult? ==>
         results[j].callId != results[k].callId
  }

  ghost predicate AnswersOne(m: Message, calls: seq<Call>) {
    m.ToolResult? && Call(m.callId, m.toolName) in calls
  }

  lemma CommitsIs(pending: seq<Call>, staged: map<string, Message>, m: Message)
    requires forall id :: id in staged ==> staged[id].ToolResult? && staged[id].callId == id
    ensures m in Commits(pending, staged) <==>
      m.ToolResult? && m.callId in staged && staged[m.callId] == m && Call(m.callId, m.toolName) in pending
  {
    if pending != [] {
      assert pending == [pending[0]] + pending[1..];
      CommitsIs(pending[1..], staged, m);
    }
  }

  lemma CommitsAnswer(pending: seq<Call>, staged: map<string, Message>)
    requires DistinctIds(pending)
    requires forall id :: id in staged ==> staged[id].ToolResult? && staged[id].callId == id
    ensures Answers(Commits(pending, staged), pending)
  {
    if pending != [] {
      var c, rest := pending[0], pending[1..];
      assert pending == [c] + rest;
      AppendDistinct([c], rest);
      CommitsAnswer(rest, staged);
      var tail := Commits(rest, staged);
      forall k | 0 <= k < |tail| ensures tail[k].callId != c.id {
        var d := Call(tail[k].callId, tail[k].toolName);
        assert d in rest && d.id in Ids(rest) && c in [c] && c.id in Ids([c]);
      }
    }
  }

  ghost predicate Mentions(results: seq<Message>, id: string) {
    exists m :: m in results && m.ToolResult? && m.callId == id
  }

  /** Results of distinct pending calls are accepted one after another. */
  lemma {:induction false} AnswersAccepted(ms: seq<Message>, results: seq<Message>)
    requires ScanOf(ms).Ok? && Answers(results, ScanOf(ms).value.pending)
    ensures ScanOf(ms + results).Ok?
    ensures forall c :: Awaits(ms, c) && !Mentions(results, c.id) ==> Awaits(ms + results, c)
    decreases |results|
  {
    if results == [] {
      assert ms + results == ms;
    } else {
      var rest, m := results[..|results| - 1], results[|results| - 1];
      assert results == rest + [m];
      AnswersAccepted(ms, rest);
      AnswersLast(ms, rest, m);
      AnswerKeepsAwaiting(ms + rest, m);
      Associative(ms, rest, [m]);
      MentionsSnoc(rest, m);
    }
  }

  lemma MentionsSnoc(rest: seq<Message>, m: Message)
    requires m.ToolResult?
    ensures forall id :: Mentions(rest + [m], id) <==> Mentions(rest, id) || id == m.callId
  {
    forall id ensures Mentions(rest + [m], id) <==> Mentions(rest, id) || id == m.callId {
      assert m in rest + [m];
    }
  }

  lemma AnswersLast(ms: seq<Message>, rest: seq<Message>, m: Message)
    requires ScanOf(ms).Ok? && Answers(rest + [m], ScanOf(ms).value.pending)
    ensures m.ToolResult? && Awaits(ms, Call(m.callId, m.toolName)) && !Mentions(rest, m.callId)
  {
    var all := rest + [m];
    assert all[|rest|] == m && AnswersOne(m, ScanOf(ms).value.pending);
    assert forall k :: 0 <= k < |rest| ==> rest[k] == all[k];
  }

  lemma MaterializedAccepted(r: Run)
    requires Recoverable(r)
    ensures ScanOf(Materialized(r)).Ok?
  {
    MaterializedIs(r);
    AnalyserExact(r.messages);
    var s := ScanOf(r.messages).value;
    AppendDistinct(s.unresolved, s.pending);
    CommitsAnswer(s.pending, r.staged);
    AnswersAccepted(r.messages, Commits(s.pending, r.staged));
  }

  lemma {:induction false} AllCallsAppend(a: seq<Message>, b: seq<Message>)
    ensures AllCalls(a + b) == AllCalls(a) + AllCalls(b)
    decreases |b|
  {
    if |b| == 0 {
      NoneAdded(a);
      NoneAdded(AllCalls(a));
    } else {
      var rest, m := b[..|b| - 1], b[|b| - 1];
      AllCallsAppend(a, rest);
      AllCallsSnoc(a + rest, m);
      Associative(AllCalls(a), AllCalls(rest), CallsOf(m));
      assert rest + [m] == b;
      Associative(a, rest, [m]);
    }
  }

  lemma ResultsAddNoCalls(results: seq<Message>)
    requires forall k :: 0 <= k < |results| ==> results[k].ToolResult?
    ensures AllCalls(results) == []
  {
    if results != [] {
      ResultsAddNoCalls(results[..|results| - 1]);
      assert CallsOf(results[|results| - 1]) == [];
    }
  }

  lemma MaterializedTables(r: Run)
    requires Recoverable(r)
    ensures AllCalls(Materialized(r)) == AllCalls(r.messages)
    ensures ResultIds(Materialized(r)) == ResultIds(r.messages) + r.staged.Keys
  {
    MaterializedIs(r);
    var pending := ScanOf(r.messages).value.pending;
    var added := Commits(pending, r.staged);
    forall m ensures m in added <==>
      m.ToolResult? && m.callId in r.staged && r.staged[m.callId] == m && Call(m.callId, m.toolName) in pending
    {
      CommitsIs(pending, r.staged, m);
    }
    AllCallsAppend(r.messages, added);
    ResultsAddNoCalls(added);
    forall id | id in r.staged ensures id in ResultIds(Materialized(r)) {
      var m := r.staged[id];
      assert Placed(r.messages, id, m);
      assert m in r.messages || m in added;
      assert m in Materialized(r);
    }
  }

  // ---------- The main results ----------

  /** No call has two results. */
  ghost predicate OneResultEach(ms: seq<Message>) {
    forall i, j :: 0 <= i < j < |ms| && ms[i].ToolResult? && ms[j].ToolResult? ==> ms[i].callId != ms[j].callId
  }

  lemma OneResultMore(ms: seq<Message>, m: Message)
    requires OneResultEach(ms) && (m.ToolResult? ==> m.callId !in ResultIds(ms))
    ensures OneResultEach(ms + [m])
  {
    forall i | 0 <= i < |ms| && ms[i].ToolResult? && m.ToolResult? ensures ms[i].callId != m.callId {
      assert ms[i].callId in ResultIds(ms);
    }
  }

  lemma NewResult(ms: seq<Message>, m: Message)
    requires ScanOf(ms + [m]).Ok?
    ensures ScanOf(ms).Ok? && (m.ToolResult? ==> m.callId !in ResultIds(ms))
  {
    ScanSnoc(ms, m);
    AnalyserExact(ms);
  }

  lemma AcceptedMore(ms: seq<Message>, m: Message)
    requires ScanOf(ms + [m]).Ok? && OneResultEach(ms)
    ensures OneResultEach(ms + [m])
  {
    NewResult(ms, m);
    OneResultMore(ms, m);
  }

  lemma {:induction false} AcceptedOneResultEach(ms: seq<Message>)
    requires ScanOf(ms).Ok?
    ensures OneResultEach(ms)
  {
    if ms != [] {
      var rest, m := ms[..|ms| - 1], ms[|ms| - 1];
      assert ms == rest + [m];
      ScanSnoc(rest, m);
      AcceptedOneResultEach(rest);
      AcceptedMore(rest, m);
    }
  }

  /** From any recoverable state: the history becomes closed, its old messages stay in
      order, each staged result is in it, and exactly the calls with neither a result
      nor a staged one get a synthetic result. */
  lemma RecoverySpec(r: Run, text: string)
    requires Recoverable(r)
    ensures var missing := Unanswered(AllCalls(r.messages), ResultIds(r.messages) + r.staged.Keys);
            && Closed(Recovered(r, text)) && OneResultEach(Recovered(r, text))
            && Repair(Materialized(r), text) == Ok((Recovered(r, text), Synthetics(missing, text)))
            && Erase(Recovered(r, text), Ids(missing)) == Materialized(r)
            && r.messages <= Materialized(r)
            && forall m :: Kept(r, m) ==> m in Recovered(r, text)
  {
    MaterializedAccepted(r);
    MaterializedTables(r);
    MaterializedIs(r);
    AnalyserExact(Materialized(r));
    RepairSpec(Materialized(r), text);
    AcceptedOneResultEach(Recovered(r, text));
    forall m | Kept(r, m) ensures m in Recovered(r, text) {
      KeptMaterialized(r, m);
      RepairKeeps(Materialized(r), text, m);
    }
  }

  lemma KeptMaterialized(r: Run, m: Message)
    requires Recoverable(r) && Kept(r, m)
    ensures m in Materialized(r)
  {
    MaterializedIs(r);
    if m !in r.messages {
      assert Placed(r.messages, m.callId, m);
      CommitsIs(ScanOf(r.messages).value.pending, r.staged, m);
    }
  }

  lemma StoppedRecoverable(r: Run, events: seq<Event>, cut: Cut)
    requires Waiting(r) && LegalCut(r, events, cut)
    ensures Recoverable(Stopped(r, events, cut))
  {
    RunWaiting(r, events);
    if cut.During? {
      UpdateRecoverable(Play(r, events), cut.event);
    }
  }

  ghost predicate Ended(events: seq<Event>, cut: Cut, m: Message) {
    ToolExecutionEnd(m) in events || cut == During(ToolExecutionEnd(m))
  }

  lemma EndedKept(r: Run, events: seq<Event>, cut: Cut, m: Message)
    requires Waiting(r) && LegalCut(r, events, cut) && Ended(events, cut, m)
    ensures Kept(Stopped(r, events, cut), m)
  {
    RunWaiting(r, events);
    if ToolExecutionEnd(m) in events {
      CommittedKept(r, events, m);
    } else {
      PendingNamed(Play(r, events).messages, Call(m.callId, m.toolName));
    }
    if cut.During? {
      UpdateKeeps(Play(r, events), cut.event, m);
    }
  }

  /** The failure message closes what the recovery leaves. */
  lemma RecoveredCloses(stopped: Run, text: string, failure: Message)
    requires Recoverable(stopped) && failure.Assistant? && CallsOf(failure) == []
    ensures var final := Recovered(stopped, text) + [failure];
            && Closed(final) && OneResultEach(final)
            && forall m :: Kept(stopped, m) ==> m in final
  {
    RecoverySpec(stopped, text);
    ScanSnoc(Recovered(stopped, text), failure);
  }

  /** Fail anywhere: a run that starts from any accepted history and stops after any of
      its events, or in the middle of one, leaves a closed conversation, also after the
      failure message, in which every tool that ended has its real result exactly once. */
  lemma FailAnywhere(history: seq<Message>, events: seq<Event>, cut: Cut, text: string, failure: Message)
    requires ScanOf(history).Ok? && LegalCut(Run(history, map[]), events, cut)
    requires failure.Assistant? && CallsOf(failure) == []
    ensures var final := Recovered(Stopped(Run(history, map[]), events, cut), text) + [failure];
            && Closed(final) && OneResultEach(final)
            && forall m :: Ended(events, cut, m) ==> m in final
  {
    var start := Run(history, map[]);
    var stopped := Stopped(start, events, cut);
    StoppedRecoverable(start, events, cut);
    RecoveredCloses(stopped, text, failure);
    forall m | Ended(events, cut, m) ensures m in Recovered(stopped, text) + [failure] {
      EndedKept(start, events, cut, m);
    }
  }

  // ---------- The loops and the agent's fields ----------

  lemma NoneStaged(calls: seq<Call>, staged: map<string, Message>)
    requires forall id :: id !in staged
    ensures Commits(calls, staged) == []
  {}

  lemma NothingPlaced(p: Placing, m: Message, staged: map<string, Message>)
    requires forall id :: id !in staged
    ensures PlaceStep(p, m, staged).output == p.output + [m]
  {
    NoneStaged(p.pending, staged);
    NoneAdded(p.output);
  }

  lemma {:induction false} NothingStaged(ms: seq<Message>, staged: map<string, Message>)
    requires forall id :: id !in staged
    ensures PlaceScan(ms, staged).output == ms
  {
    if ms != [] {
      var rest, m := ms[..|ms| - 1], ms[|ms| - 1];
      assert ms == rest + [m];
      NothingStaged(rest, staged);
      NothingPlaced(PlaceScan(rest, staged), m, staged);
    }
  }

  method ClosePendingFrom(output: seq<Message>, pending: seq<Call>, staged: map<string, Message>)
    returns (out: seq<Message>)
    ensures out == output + Commits(pending, staged)
  {
    out := output;
    for i := 0 to |pending|
      invariant out + Commits(pending[i..], staged) == output + Commits(pending, staged)
    {
      var c := pending[i];
      assert pending[i..][0] == c && pending[i..][1..] == pending[i + 1..];
      if c.id in staged && staged[c.id].ToolResult? && staged[c.id].toolName == c.name {
        out := out + [staged[c.id]];
      }
    }
    assert out + [] == out;
  }

  method MaterializeStagedToolResults(messages: seq<Message>, staged: map<string, Message>)
    returns (out: seq<Message>)
    ensures out == Materialized(Run(messages, staged))
  {
    if staged == map[] {
      NothingStaged(messages, staged);
      NoneStaged(PlaceScan(messages, staged).pending, staged);
      assert messages + [] == messages;
      return messages;
    }
    out := [];
    var pending: seq<Call> := [];
    for i := 0 to |messages|
      invariant PlaceScan(messages[..i], staged) == Placing(out, pending)
    {
      var m := messages[i];
      assert messages[..i + 1][..i] == messages[..i];
      if m.ToolResult? {
        out, pending := out + [m], Without(pending, m.callId);
      } else {
        out := ClosePendingFrom(out, pending, staged);
        out, pending := out + [m], PutAll([], CallsOf(m));
      }
    }
    assert messages[..|messages|] == messages;
    out := ClosePendingFrom(out, pending, staged);
  }

  class Agent {
    var messages: seq<Message>
    var staged: map<string, Message>

    ghost function State(): Run
      reads this
    {
      Run(messages, staged)
    }

    constructor (history: seq<Message>)
      ensures State() == Run(history, map[])
    {
      messages, staged := history, map[];
    }

    method BeforeListeners(e: Event)
      modifies this
      ensures State() == Update(old(State()), e)
    {
      if e.MessageEnd? {
        messages := messages + [e.message];
      } else if e.ToolExecutionEnd? {
        if e.committed.ToolResult? && e.committed.callId != "" {
          staged := staged[e.committed.callId := e.committed];
        }
      } else {
        messages := e.context;
      }
    }

    method AfterListeners(e: Event)
      modifies this
      ensures State() == Settle(old(State()), e)
    {
      if e.MessageEnd? && e.message.ToolResult? {
        staged := staged - {e.message.callId};
      }
    }

    /** A failed run is closed before its failure message is appended. */
    method HandleRunFailure(text: string, failure: Message)
      modifies this
      ensures messages == Recovered(old(State()), text) + [failure]
      ensures Repair(Materialized(old(State())), text).Err? ==>
        messages == old(messages) + [failure] && staged == old(staged)
      ensures staged == if Repair(Materialized(old(State())), text).Ok? then map[] else old(staged)
    {
      var materialized := MaterializeStagedToolResults(messages, staged);
      var repaired := RepairUnresolved(materialized, text);
      if repaired.Ok? {
        messages := repaired.value.0;
        staged := map[];
      }
      BeforeListeners(MessageEnd(failure));
    }
  }
}
