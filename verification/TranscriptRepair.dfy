/**
 Closing a transcript: every unresolved tool call gets a synthetic error result, right
 before the next message that is not a result.
 */
module TranscriptRepair {
  import opened Basics
  import opened Transcript

  function Synthetic(c: Call, text: string): Message {
    ToolResult(c.id, c.name, true, text)
  }

  function Synthetics(calls: seq<Call>, text: string): (r: seq<Message>)
    ensures |r| == |calls|
  {
    if calls == [] then [] else [Synthetic(calls[0], text)] + Synthetics(calls[1..], text)
  }

  /** Dictionary assignment: a new key goes to the end, a known one keeps its place. */
  function Put(pending: seq<Call>, c: Call): seq<Call> {
    if pending == [] then [c]
    else if pending[0].id == c.id then [c] + pending[1..]
    else [pending[0]] + Put(pending[1..], c)
  }

  function PutAll(pending: seq<Call>, calls: seq<Call>): seq<Call> {
    if calls == [] then pending else Put(PutAll(pending, calls[..|calls| - 1]), calls[|calls| - 1])
  }

  datatype Repairing = Repairing(output: seq<Message>, inserted: seq<Message>, pending: seq<Call>)

  function ClosePending(r: Repairing, text: string): Repairing {
    var added := Synthetics(r.pending, text);
    Repairing(r.output + added, r.inserted + added, [])
  }

  function RepairStep(r: Repairing, m: Message, text: string): Repairing {
    if m.ToolResult? then r.(output := r.output + [m], pending := Without(r.pending, m.callId))
    else
      var s := ClosePending(r, text);
      s.(output := s.output + [m], pending := PutAll([], CallsOf(m)))
  }

  function RepairScan(ms: seq<Message>, text: string): Repairing {
    if ms == [] then Repairing([], [], [])
    else RepairStep(RepairScan(ms[..|ms| - 1], text), ms[|ms| - 1], text)
  }

  /** The repaired transcript and the inserted results; damage that cannot be repaired
      safely is reported instead. */
  function Repair(ms: seq<Message>, text: string): Result<(seq<Message>, seq<Message>)> {
    match Analysis(ms)
    case Err(e) => Err(e)
    case Ok(_) => var r := ClosePending(RepairScan(ms, text), text); Ok((r.output, r.inserted))
  }

  /** The transcript without the results of the given ids. */
  function Erase(ms: seq<Message>, ids: set<string>): seq<Message> {
    if ms == [] then []
    else
      var m := ms[0];
      (if m.ToolResult? && m.callId in ids then [] else [m]) + Erase(ms[1..], ids)
  }

  // ---------- Lists ----------

  lemma SyntheticsAppend(a: seq<Call>, b: seq<Call>, text: string)
    ensures Synthetics(a + b, text) == Synthetics(a, text) + Synthetics(b, text)
  {
    if a == [] {
      assert a + b == b;
    } else {
      assert (a + b)[1..] == a[1..] + b;
      SyntheticsAppend(a[1..], b, text);
    }
  }

  lemma PutNew(pending: seq<Call>, c: Call)
    requires c.id !in Ids(pending)
    ensures Put(pending, c) == pending + [c]
  {
    if pending != [] {
      assert pending == [pending[0]] + pending[1..];
      PutNew(pending[1..], c);
    }
  }

  lemma PutAllNew(pending: seq<Call>, calls: seq<Call>)
    requires DistinctIds(pending + calls)
    ensures PutAll(pending, calls) == pending + calls
  {
    if calls != [] {
      var rest, c := calls[..|calls| - 1], calls[|calls| - 1];
      assert pending + calls == (pending + rest) + [c];
      AppendDistinct(pending + rest, [c]);
      PutAllNew(pending, rest);
      assert c in [c];
      PutNew(pending + rest, c);
    } else {
      assert pending + calls == pending;
    }
  }

  lemma EraseAppend(a: seq<Message>, b: seq<Message>, ids: set<string>)
    ensures Erase(a + b, ids) == Erase(a, ids) + Erase(b, ids)
  {
    if a == [] {
      assert a + b == b;
    } else {
      assert (a + b)[1..] == a[1..] + b;
      EraseAppend(a[1..], b, ids);
    }
  }

  lemma EraseOne(m: Message, ids: set<string>)
    ensures Erase([m], ids) == if m.ToolResult? && m.callId in ids then [] else [m]
  {}

  lemma EraseSynthetics(calls: seq<Call>, text: string, ids: set<string>)
    requires Ids(calls) <= ids
    ensures Erase(Synthetics(calls, text), ids) == []
  {
    if calls != [] {
      assert calls[0].id in Ids(calls) && Ids(calls[1..]) <= Ids(calls);
      EraseSynthetics(calls[1..], text, ids);
    }
  }

  lemma EraseNothing(ms: seq<Message>)
    ensures Erase(ms, {}) == ms
  {
    if ms != [] {
      EraseNothing(ms[1..]);
    }
  }

  lemma IdsAppend(a: seq<Call>, b: seq<Call>)
    ensures Ids(a + b) == Ids(a) + Ids(b)
  {}

  // ---------- Scanning what was written ----------

  /** No call in play has a result yet, and no two share an id. */
  ghost predicate Unsettled(s: Scan) {
    DistinctIds(s.unresolved + s.pending) && Ids(s.unresolved + s.pending) !! s.seenResults
  }

  lemma MeansUnsettled(ms: seq<Message>, s: Scan)
    requires Means(ms, s)
    ensures Unsettled(s)
  {}

  /** The first pending call can be answered. */
  lemma AnswerFirst(out: seq<Message>, s: Scan, text: string)
    requires ScanOf(out) == Ok(s) && s.pending != []
    requires DistinctIds(s.pending) && Ids(s.pending) !! s.seenResults
    ensures var t := s.(pending := s.pending[1..], seenResults := s.seenResults + {s.pending[0].id});
            && ScanOf(out + [Synthetic(s.pending[0], text)]) == Ok(t)
            && DistinctIds(t.pending) && Ids(t.pending) !! t.seenResults
  {
    var c, rest := s.pending[0], s.pending[1..];
    assert s.pending == [c] + rest && c in [c];
    AppendDistinct([c], rest);
    IdsAppend([c], rest);
    ScanSnoc(out, Synthetic(c, text));
    assert c.id in Ids(s.pending);
  }

  /** The state after all pending calls of `s` were answered. */
  function Answered(s: Scan): Scan {
    s.(pending := [], seenResults := s.seenResults + Ids(s.pending))
  }

  lemma AnsweredRest(s: Scan)
    requires s.pending != []
    ensures Answered(s.(pending := s.pending[1..], seenResults := s.seenResults + {s.pending[0].id})) == Answered(s)
  {
    assert s.pending == [s.pending[0]] + s.pending[1..];
    IdsAppend([s.pending[0]], s.pending[1..]);
    assert Ids([s.pending[0]]) == {s.pending[0].id};
  }

  /** Answering the pending calls one after another closes them all. */
  lemma FeedSynthetics(out: seq<Message>, s: Scan, text: string)
    requires ScanOf(out) == Ok(s) && DistinctIds(s.pending) && Ids(s.pending) !! s.seenResults
    ensures ScanOf(out + Synthetics(s.pending, text)) == Ok(Answered(s))
    decreases |s.pending|
  {
    if s.pending == [] {
      assert out + Synthetics(s.pending, text) == out;
      assert s == Answered(s);
    } else {
      var c, rest := s.pending[0], s.pending[1..];
      AnswerFirst(out, s, text);
      AnsweredRest(s);
      FeedSynthetics(out + [Synthetic(c, text)], s.(pending := rest, seenResults := s.seenResults + {c.id}), text);
      Associative(out, [Synthetic(c, text)], Synthetics(rest, text));
    }
  }

  /** What the repair has written scans like the input, with the given-up calls answered. */
  ghost predicate Tracks(s: Scan, r: Repairing, text: string) {
    && r.pending == s.pending && r.inserted == Synthetics(s.unresolved, text)
    && ScanOf(r.output) == Ok(Settled(s))
  }

  function Settled(s: Scan): Scan {
    s.(seenResults := s.seenResults + Ids(s.unresolved), unresolved := [])
  }

  lemma ReadSettled(s: Scan, m: Message)
    requires Unsettled(s) && Read(s, m).Ok? && m.ToolResult?
    ensures Read(Settled(s), m) == Ok(Settled(Read(s, m).value))
  {
    AppendDistinct(s.unresolved, s.pending);
    LookupIs(s.pending, m.callId);
    assert m.callId !in Ids(s.unresolved);
    assert s.seenResults + {m.callId} + Ids(s.unresolved) == s.seenResults + Ids(s.unresolved) + {m.callId};
  }

  lemma RepairResult(s: Scan, r: Repairing, m: Message, text: string)
    requires Unsettled(s) && m.ToolResult? && Read(s, m).Ok? && Tracks(s, r, text)
    ensures Tracks(Read(s, m).value, RepairStep(r, m, text), text)
  {
    ReadSettled(s, m);
    ScanSnoc(r.output, m);
  }

  /** Once the pending calls are closed, everything given up is answered. */
  lemma ClosedScan(s: Scan, r: Repairing, text: string)
    requires Unsettled(s) && Tracks(s, r, text)
    ensures ClosePending(r, text).inserted == Synthetics(s.unresolved + s.pending, text)
    ensures ScanOf(ClosePending(r, text).output) == Ok(Settled(Flush(s)))
  {
    AppendDistinct(s.unresolved, s.pending);
    IdsAppend(s.unresolved, s.pending);
    FeedSynthetics(r.output, Settled(s), text);
    SyntheticsAppend(s.unresolved, s.pending, text);
    assert Settled(Flush(s)) == Answered(Settled(s));
  }

  lemma ReadSettledOther(s: Scan, m: Message)
    requires !m.ToolResult? && Read(s, m).Ok?
    ensures Read(Settled(Flush(s)), m) == Ok(Settled(Read(s, m).value))
    ensures Read(s, m).value.pending == CallsOf(m) == PutAll([], CallsOf(m))
    ensures Read(s, m).value.unresolved == s.unresolved + s.pending
  {
    var calls, given := CallsOf(m), s.unresolved + s.pending;
    var start := Settled(Flush(s));
    assert Flush(start) == start;
    AddCallsIs(Flush(s), calls);
    AddCallsIs(start, calls);
    assert [] + calls == calls;
    PutAllNew([], calls);
    assert Read(s, m).value == Scan(calls, s.seenCalls + Ids(calls), s.seenResults, given);
    assert Read(start, m).value == Scan(calls, s.seenCalls + Ids(calls), s.seenResults + Ids(given), []);
  }

  lemma RepairOther(s: Scan, r: Repairing, m: Message, text: string)
    requires Unsettled(s) && !m.ToolResult? && Read(s, m).Ok? && Tracks(s, r, text)
    ensures Tracks(Read(s, m).value, RepairStep(r, m, text), text)
  {
    ClosedScan(s, r, text);
    ScanSnoc(ClosePending(r, text).output, m);
    ReadSettledOther(s, m);
  }

  lemma {:induction false} RepairTracks(ms: seq<Message>, text: string)
    requires ScanOf(ms).Ok?
    ensures Tracks(ScanOf(ms).value, RepairScan(ms, text), text)
  {
    if ms == [] {
      assert Settled(Start) == Start;
    } else {
      var rest, m := ms[..|ms| - 1], ms[|ms| - 1];
      RepairTracks(rest, text);
      AnalyserExact(rest);
      MeansUnsettled(rest, ScanOf(rest).value);
      if m.ToolResult? {
        RepairResult(ScanOf(rest).value, RepairScan(rest, text), m, text);
      } else {
        RepairOther(ScanOf(rest).value, RepairScan(rest, text), m, text);
      }
    }
  }

  // ---------- The repair specification ----------

  lemma ClosingOnlyAdds(r: Repairing, text: string, ids: set<string>)
    requires Ids(r.pending) <= ids
    ensures Erase(ClosePending(r, text).output, ids) == Erase(r.output, ids)
  {
    EraseSynthetics(r.pending, text, ids);
    EraseAppend(r.output, Synthetics(r.pending, text), ids);
  }

  lemma StepOnlyAdds(r: Repairing, m: Message, text: string, ids: set<string>)
    requires m.ToolResult? ==> m.callId !in ids
    requires !m.ToolResult? ==> Ids(r.pending) <= ids
    ensures Erase(RepairStep(r, m, text).output, ids) == Erase(r.output, ids) + [m]
  {
    EraseOne(m, ids);
    if m.ToolResult? {
      EraseAppend(r.output, [m], ids);
    } else {
      ClosingOnlyAdds(r, text, ids);
      EraseAppend(ClosePending(r, text).output, [m], ids);
    }
  }

  /** The calls given up so far stay given up. */
  lemma UnresolvedGrows(s: Scan, m: Message)
    requires Read(s, m).Ok?
    ensures Ids(s.unresolved) <= Ids(Read(s, m).value.unresolved)
    ensures !m.ToolResult? ==> Ids(s.pending) <= Ids(Read(s, m).value.unresolved)
  {
    IdsAppend(s.unresolved, s.pending);
    if !m.ToolResult? {
      AddCallsIs(Flush(s), CallsOf(m));
    }
  }

  lemma OnlyAddsFits(s: Scan, m: Message, ids: set<string>)
    requires Read(s, m).Ok? && Ids(Read(s, m).value.unresolved) <= ids
    ensures Ids(s.unresolved) <= ids && (!m.ToolResult? ==> Ids(s.pending) <= ids)
  {
    UnresolvedGrows(s, m);
  }

  /** Only results of given-up calls are added. */
  lemma OnlyAddsMore(ms: seq<Message>, m: Message, text: string, ids: set<string>)
    requires ScanOf(ms + [m]).Ok? && Ids(ScanOf(ms + [m]).value.unresolved) <= ids && ResultIds(ms + [m]) !! ids
    ensures ScanOf(ms).Ok? && Ids(ScanOf(ms).value.unresolved) <= ids && ResultIds(ms) !! ids
    ensures Erase(RepairStep(RepairScan(ms, text), m, text).output, ids)
            == Erase(RepairScan(ms, text).output, ids) + [m]
  {
    ResultIdsSnoc(ms, m);
    ScanSnoc(ms, m);
    OnlyAddsFits(ScanOf(ms).value, m, ids);
    RepairTracks(ms, text);
    StepOnlyAdds(RepairScan(ms, text), m, text, ids);
  }

  lemma {:induction false} RepairOnlyAdds(ms: seq<Message>, text: string, ids: set<string>)
    requires ScanOf(ms).Ok? && Ids(ScanOf(ms).value.unresolved) <= ids && ResultIds(ms) !! ids
    ensures Erase(RepairScan(ms, text).output, ids) == ms
  {
    if ms != [] {
      var rest, m := ms[..|ms| - 1], ms[|ms| - 1];
      assert ms == rest + [m];
      OnlyAddsMore(rest, m, text, ids);
      RepairOnlyAdds(rest, text, ids);
    }
  }

  lemma RepairCloses(ms: seq<Message>, text: string)
    requires ScanOf(ms).Ok?
    ensures var (s, r) := (ScanOf(ms).value, ClosePending(RepairScan(ms, text), text));
            ScanOf(r.output) == Ok(Settled(Flush(s))) && r.inserted == Synthetics(s.unresolved + s.pending, text)
  {
    AnalyserExact(ms);
    MeansUnsettled(ms, ScanOf(ms).value);
    RepairTracks(ms, text);
    ClosedScan(ScanOf(ms).value, RepairScan(ms, text), text);
  }

  lemma RepairErases(ms: seq<Message>, text: string)
    requires ScanOf(ms).Ok?
    ensures var s := ScanOf(ms).value;
            Erase(ClosePending(RepairScan(ms, text), text).output, Ids(s.unresolved + s.pending)) == ms
  {
    var s := ScanOf(ms).value;
    AnalyserExact(ms);
    MeansUnsettled(ms, s);
    RepairTracks(ms, text);
    IdsAppend(s.unresolved, s.pending);
    RepairOnlyAdds(ms, text, Ids(s.unresolved + s.pending));
    ClosingOnlyAdds(RepairScan(ms, text), text, Ids(s.unresolved + s.pending));
  }

  lemma {:induction false} SyntheticsAre(calls: seq<Call>, text: string, k: nat)
    requires k < |calls|
    ensures Synthetics(calls, text)[k] == ToolResult(calls[k].id, calls[k].name, true, text)
    decreases |calls|
  {
    if k > 0 {
      SyntheticsAre(calls[1..], text, k - 1);
    }
  }

  /** The repair specification: on every transcript the analyser accepts, the repaired
      one is closed, the inserted results answer exactly the unresolved calls in order,
      each marked as synthetic and with the given text, and erasing them gives back the
      input. */
  lemma RepairSpec(ms: seq<Message>, text: string)
    requires Analysis(ms).Ok?
    ensures var (output, inserted) := Repair(ms, text).value;
            && Closed(output)
            && inserted == Synthetics(Analysis(ms).value, text)
            && (forall k :: 0 <= k < |inserted| ==>
                  inserted[k] == ToolResult(Analysis(ms).value[k].id, Analysis(ms).value[k].name, true, text))
            && Erase(output, Ids(Analysis(ms).value)) == ms
  {
    forall k | 0 <= k < |Analysis(ms).value|
      ensures Synthetics(Analysis(ms).value, text)[k]
              == ToolResult(Analysis(ms).value[k].id, Analysis(ms).value[k].name, true, text)
    {
      SyntheticsAre(Analysis(ms).value, text, k);
    }
    RepairCloses(ms, text);
    RepairErases(ms, text);
    var none: seq<Call> := [];
    assert none + none == none;
  }

  /** A closed transcript is left alone. */
  lemma ClosedUntouched(ms: seq<Message>, text: string)
    requires Closed(ms)
    ensures Repair(ms, text) == Ok((ms, []))
  {
    RepairSpec(ms, text);
    EraseNothing(Repair(ms, text).value.0);
    assert Ids([]) == {};
  }

  /** Repairing twice is repairing once. */
  lemma RepairIdempotent(ms: seq<Message>, text: string, again: string)
    requires Analysis(ms).Ok?
    ensures var once := Repair(ms, text).value.0; Repair(once, again) == Ok((once, []))
  {
    RepairSpec(ms, text);
    ClosedUntouched(Repair(ms, text).value.0, again);
  }

  // ---------- The loops ----------

  method RepairUnresolved(messages: seq<Message>, text: string)
    returns (r: Result<(seq<Message>, seq<Message>)>)
    ensures r == Repair(messages, text)
  {
    var analysis := Analyze(messages);
    if analysis.Err? {
      return Err(analysis.error);
    }
    var output: seq<Message>, inserted: seq<Message>, pending: seq<Call> := [], [], [];
    for i := 0 to |messages|
      invariant RepairScan(messages[..i], text) == Repairing(output, inserted, pending)
    {
      var m := messages[i];
      assert messages[..i + 1][..i] == messages[..i];
      if !m.ToolResult? && pending != [] {
        output, inserted := CloseLoop(output, inserted, pending, text);
        pending := [];
      }
      output := output + [m];
      if m.ToolResult? {
        pending := Without(pending, m.callId);
      } else {
        pending := PutAll(pending, CallsOf(m));
      }
    }
    assert messages[..|messages|] == messages;
    output, inserted := CloseLoop(output, inserted, pending, text);
    return Ok((output, inserted));
  }

  method CloseLoop(output: seq<Message>, inserted: seq<Message>, pending: seq<Call>, text: string)
    returns (out: seq<Message>, added: seq<Message>)
    ensures out == output + Synthetics(pending, text) && added == inserted + Synthetics(pending, text)
  {
    out, added := output, inserted;
    for i := 0 to |pending|
      invariant out == output + Synthetics(pending[..i], text) && added == inserted + Synthetics(pending[..i], text)
    {
      assert pending[..i + 1] == pending[..i] + [pending[i]];
      SyntheticsAppend(pending[..i], [pending[i]], text);
      out, added := out + [Synthetic(pending[i], text)], added + [Synthetic(pending[i], text)];
    }
    assert pending[..|pending|] == pending;
  }
}
