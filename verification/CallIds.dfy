/**
 The id check every batch of tool calls passes before it is committed, and again right
 before it is dispatched.

 Ids are compared after trimming. An id that is blank, was used before, or repeats an
 earlier one of the batch is replaced by an invented one and the batch is rejected, so
 that each rejected call can still get its own result.
 */
module CallIds {
  import opened Basics
  import opened Transcript

  /** The characters `str.strip` removes, by code point. */
  predicate IsSpace(c: char) {
    var n := c as int;
    || 9 <= n <= 13 || 28 <= n <= 32 || n == 133 || n == 160 || n == 5760 || 8192 <= n <= 8202
    || n == 8232 || n == 8233 || n == 8239 || n == 8287 || n == 12288
  }

  function StripLeft(s: string): (r: string)
    ensures |r| <= |s| && (r == "" || !IsSpace(r[0]))
    ensures s == s[..|s| - |r|] + r
  {
    if s == "" || !IsSpace(s[0]) then s else StripLeft(s[1..])
  }

  function StripRight(s: string): (r: string)
    ensures |r| <= |s| && r == s[..|r|]
    ensures r == "" || !IsSpace(r[|r| - 1])
  {
    if s == "" || !IsSpace(s[|s| - 1]) then s else StripRight(s[..|s| - 1])
  }

  function Strip(s: string): string {
    StripRight(StripLeft(s))
  }

  lemma {:induction false} LeftSpaces(s: string, i: nat)
    requires i < |s| - |StripLeft(s)|
    ensures IsSpace(s[i])
  {
    if i > 0 {
      LeftSpaces(s[1..], i - 1);
    }
  }

  lemma {:induction false} RightSpaces(s: string, i: nat)
    requires |StripRight(s)| <= i < |s|
    ensures IsSpace(s[i])
  {
    if i < |s| - 1 {
      RightSpaces(s[..|s| - 1], i);
    }
  }

  ghost predicate AllSpace(s: string) {
    forall i :: 0 <= i < |s| ==> IsSpace(s[i])
  }

  lemma LeftPart(s: string) returns (before: string)
    ensures s == before + StripLeft(s) && AllSpace(before)
  {
    before := s[..|s| - |StripLeft(s)|];
    forall i | 0 <= i < |before| ensures IsSpace(before[i]) {
      LeftSpaces(s, i);
    }
  }

  lemma RightPart(s: string) returns (after: string)
    ensures s == StripRight(s) + after && AllSpace(after)
  {
    after := s[|StripRight(s)|..];
    forall i | 0 <= i < |after| ensures IsSpace(after[i]) {
      RightSpaces(s, |StripRight(s)| + i);
    }
  }

  /** Trimming takes exactly the white space off both ends. */
  lemma StripExactly(s: string) returns (before: string, after: string)
    ensures s == before + Strip(s) + after && AllSpace(before) && AllSpace(after)
    ensures Strip(s) == "" || (!IsSpace(Strip(s)[0]) && !IsSpace(Strip(s)[|Strip(s)| - 1]))
  {
    before := LeftPart(s);
    after := RightPart(StripLeft(s));
    Associative(before, Strip(s), after);
    FirstKept(StripLeft(s));
  }

  lemma FirstKept(s: string)
    ensures StripRight(s) != "" ==> s != "" && StripRight(s)[0] == s[0]
  {}

  /** Trimming twice is trimming once. */
  lemma StripTwice(s: string)
    ensures Strip(Strip(s)) == Strip(s)
  {
    var left := StripLeft(s);
    var r := StripRight(left);
    assert r != "" ==> r[0] == left[0];
    assert StripLeft(r) == r;
    assert StripRight(r) == r;
  }

  const REPLACEMENT := "rejected-tool-call-"

  /** A replacement id with its random part. */
  lemma ReplacementTrimmed(random: string)
    requires random != "" && !IsSpace(random[|random| - 1])
    ensures Strip(REPLACEMENT + random) == REPLACEMENT + random
  {
    var id := REPLACEMENT + random;
    assert id[0] == 'r' && id[|id| - 1] == random[|random| - 1];
  }

  /** How ids are trimmed and how new ones are invented, by their position in the batch. */
  datatype Rules = Rules(trim: string -> string, invent: nat -> string)

  /** What trimming and a random id generator give: trimming twice is trimming once, and
      invented ids are new, distinct, non-blank and trimmed. */
  ghost predicate Usable(g: Rules, used: set<string>) {
    && (forall s :: g.trim(g.trim(s)) == g.trim(s))
    && (forall i: nat :: Fine(g, g.invent(i)) && g.invent(i) !in used)
    && forall i: nat, j: nat :: i != j ==> g.invent(i) != g.invent(j)
  }

  predicate Fine(g: Rules, id: string) {
    id != "" && g.trim(id) == id
  }

  datatype Checked = Checked(calls: seq<Call>, rejected: bool)

  predicate Refused(g: Rules, id: string, taken: set<string>) {
    g.trim(id) == "" || g.trim(id) in taken
  }

  function GivenId(g: Rules, id: string, taken: set<string>, index: nat): string {
    if Refused(g, id, taken) then g.invent(index) else g.trim(id)
  }

  /** `taken` are the ids of the history and those given so far in this batch. */
  function CheckFrom(g: Rules, calls: seq<Call>, taken: set<string>, index: nat): (r: Checked)
    ensures |r.calls| == |calls|
    decreases |calls|
  {
    if calls == [] then Checked([], false)
    else
      var id := GivenId(g, calls[0].id, taken, index);
      var rest := CheckFrom(g, calls[1..], taken + {id}, index + 1);
      Checked([calls[0].(id := id)] + rest.calls, Refused(g, calls[0].id, taken) || rest.rejected)
  }

  function Check(g: Rules, calls: seq<Call>, prior: set<string>): Checked {
    CheckFrom(g, calls, prior, 0)
  }

  function TrimmedIds(g: Rules, calls: seq<Call>): set<string> {
    set c | c in calls :: g.trim(c.id)
  }

  /** The trimmed ids of the calls already in the history. */
  function PriorIds(g: Rules, ms: seq<Message>): set<string> {
    TrimmedIds(g, AllCalls(ms)) - {""}
  }

  // ---------- What the check returns ----------

  /** `taken` holds ids in use and ids invented before `index`. */
  ghost predicate Known(g: Rules, taken: set<string>, used: set<string>, index: nat) {
    forall id :: id in taken ==> id in used || InventedBefore(g, id, index)
  }

  ghost predicate InventedBefore(g: Rules, id: string, index: nat) {
    exists i: nat :: i < index && g.invent(i) == id
  }

  lemma GivenIsNew(g: Rules, id: string, taken: set<string>, index: nat, used: set<string>)
    requires Usable(g, used) && g.trim(id) in used && Known(g, taken, used, index)
    ensures var r := GivenId(g, id, taken, index);
            Fine(g, r) && r !in taken && Known(g, taken + {r}, used, index + 1)
  {
    var r := GivenId(g, id, taken, index);
    assert r == g.invent(index) ==> InventedBefore(g, r, index + 1);
    forall x | x in taken ensures x in used || InventedBefore(g, x, index + 1) {
      if x !in used {
        var i: nat :| i < index && g.invent(i) == x;
        assert i < index + 1;
      }
    }
  }

  lemma TrimmedTail(g: Rules, calls: seq<Call>)
    requires calls != []
    ensures TrimmedIds(g, calls) == {g.trim(calls[0].id)} + TrimmedIds(g, calls[1..])
  {
    assert calls == [calls[0]] + calls[1..];
  }

  lemma IdsTail(calls: seq<Call>)
    requires calls != []
    ensures Ids(calls) == {calls[0].id} + Ids(calls[1..])
    ensures DistinctIds(calls) <==> DistinctIds(calls[1..]) && calls[0].id !in Ids(calls[1..])
  {
    var head, rest := [calls[0]], calls[1..];
    assert calls == head + rest;
    AppendDistinct(head, rest);
    assert Ids(head) == {calls[0].id};
  }

  predicate AllFine(g: Rules, calls: seq<Call>) {
    forall k :: 0 <= k < |calls| ==> Fine(g, calls[k].id)
  }

  predicate SameNames(a: seq<Call>, b: seq<Call>) {
    |a| == |b| && forall k :: 0 <= k < |a| ==> a[k].name == b[k].name
  }

  lemma {:induction false} CheckFromNew(g: Rules, calls: seq<Call>, taken: set<string>, index: nat, used: set<string>)
    requires Usable(g, used) && TrimmedIds(g, calls) <= used && Known(g, taken, used, index)
    ensures var r := CheckFrom(g, calls, taken, index).calls;
            DistinctIds(r) && Ids(r) !! taken && AllFine(g, r) && SameNames(calls, r)
    decreases |calls|
  {
    if calls != [] {
      TrimmedTail(g, calls);
      var id := GivenId(g, calls[0].id, taken, index);
      GivenIsNew(g, calls[0].id, taken, index, used);
      CheckFromNew(g, calls[1..], taken + {id}, index + 1, used);
      CheckedHead(g, calls, id, CheckFrom(g, calls[1..], taken + {id}, index + 1).calls, taken);
    }
  }

  lemma CheckedHead(g: Rules, calls: seq<Call>, id: string, rest: seq<Call>, taken: set<string>)
    requires calls != [] && Fine(g, id) && id !in taken
    requires DistinctIds(rest) && Ids(rest) !! taken + {id} && AllFine(g, rest) && SameNames(calls[1..], rest)
    ensures var r := [calls[0].(id := id)] + rest;
            DistinctIds(r) && Ids(r) !! taken && AllFine(g, r) && SameNames(calls, r)
  {
    var r := [calls[0].(id := id)] + rest;
    assert r[1..] == rest;
    IdsTail(r);
    forall k | 0 <= k < |calls| ensures calls[k].name == r[k].name {
      if k > 0 { assert calls[1..][k - 1].name == rest[k - 1].name; }
    }
  }

  /** The checked ids are new, distinct, non-blank and trimmed, and no name changes. */
  lemma CheckNew(g: Rules, calls: seq<Call>, prior: set<string>)
    requires Usable(g, prior + TrimmedIds(g, calls))
    ensures var r := Check(g, calls, prior).calls;
            DistinctIds(r) && Ids(r) !! prior && AllFine(g, r) && SameNames(calls, r)
  {
    CheckFromNew(g, calls, prior, 0, prior + TrimmedIds(g, calls));
  }

  /** `id` is the trimmed id of a call before `k`. */
  ghost predicate Earlier(g: Rules, calls: seq<Call>, k: nat, id: string) {
    exists j :: 0 <= j < k && j < |calls| && g.trim(calls[j].id) == id
  }

  lemma EarlierTail(g: Rules, calls: seq<Call>, k: nat, id: string)
    requires 0 < k < |calls|
    ensures Earlier(g, calls, k, id) <==> g.trim(calls[0].id) == id || Earlier(g, calls[1..], k - 1, id)
  {
    if Earlier(g, calls, k, id) && g.trim(calls[0].id) != id {
      var j :| 0 <= j < k && j < |calls| && g.trim(calls[j].id) == id;
      assert calls[1..][j - 1] == calls[j];
    }
    if Earlier(g, calls[1..], k - 1, id) {
      var j :| 0 <= j < k - 1 && j < |calls[1..]| && g.trim(calls[1..][j].id) == id;
      assert calls[j + 1] == calls[1..][j];
    }
  }

  lemma {:induction false} CheckFromExact(g: Rules, calls: seq<Call>, taken: set<string>, index: nat,
                                          used: set<string>, k: nat)
    requires Usable(g, used) && TrimmedIds(g, calls) <= used && k < |calls|
    ensures var id := g.trim(calls[k].id);
            CheckFrom(g, calls, taken, index).calls[k].id
            == if id == "" || id in taken || Earlier(g, calls, k, id) then g.invent(index + k) else id
    decreases |calls|
  {
    if k > 0 {
      TrimmedTail(g, calls);
      EarlierTail(g, calls, k, g.trim(calls[k].id));
      CheckFromExact(g, calls[1..], taken + {GivenId(g, calls[0].id, taken, index)}, index + 1, used, k - 1);
      assert calls[k] in calls && g.trim(calls[k].id) in TrimmedIds(g, calls);
    }
  }

  /** A call keeps its trimmed id exactly when it is not blank, was not used before and
      is the first of its batch; otherwise it gets the id invented for its position. */
  lemma CheckExact(g: Rules, calls: seq<Call>, prior: set<string>, k: nat)
    requires Usable(g, prior + TrimmedIds(g, calls)) && k < |calls|
    ensures var id := g.trim(calls[k].id);
            Check(g, calls, prior).calls[k].id
            == if id == "" || id in prior || Earlier(g, calls, k, id) then g.invent(k) else id
  {
    CheckFromExact(g, calls, prior, 0, prior + TrimmedIds(g, calls), k);
  }

  /** The batch is accepted exactly when no id had to be replaced. */
  lemma {:induction false} RejectedExact(g: Rules, calls: seq<Call>, taken: set<string>, index: nat, used: set<string>)
    requires Usable(g, used) && TrimmedIds(g, calls) <= used
    ensures var r := CheckFrom(g, calls, taken, index);
            r.rejected <==> exists k :: 0 <= k < |calls| && r.calls[k].id != g.trim(calls[k].id)
    decreases |calls|
  {
    if calls != [] {
      TrimmedTail(g, calls);
      var id := GivenId(g, calls[0].id, taken, index);
      var rest, r := CheckFrom(g, calls[1..], taken + {id}, index + 1), CheckFrom(g, calls, taken, index);
      RejectedExact(g, calls[1..], taken + {id}, index + 1, used);
      assert r.calls[0].id == id;
      if rest.rejected {
        var k :| 0 <= k < |calls[1..]| && rest.calls[k].id != g.trim(calls[1..][k].id);
        assert r.calls[k + 1].id != g.trim(calls[k + 1].id);
      }
      if k :| 1 <= k < |calls| && r.calls[k].id != g.trim(calls[k].id) {
        assert rest.calls[k - 1].id != g.trim(calls[1..][k - 1].id);
      }
    }
  }

  lemma {:induction false} CheckFromFine(g: Rules, calls: seq<Call>, taken: set<string>, index: nat)
    requires DistinctIds(calls) && Ids(calls) !! taken && AllFine(g, calls)
    ensures CheckFrom(g, calls, taken, index) == Checked(calls, false)
    decreases |calls|
  {
    if calls != [] {
      IdsTail(calls);
      assert calls[0].id in Ids(calls);
      assert GivenId(g, calls[0].id, taken, index) == calls[0].id;
      CheckFromFine(g, calls[1..], taken + {calls[0].id}, index + 1);
    }
  }

  /** The check before dispatch finds nothing left to rewrite, whatever ids it would invent. */
  lemma SecondCheckRewritesNothing(g: Rules, calls: seq<Call>, prior: set<string>, again: nat -> string)
    requires Usable(g, prior + TrimmedIds(g, calls))
    ensures var once := Check(g, calls, prior).calls; Check(g.(invent := again), once, prior) == Checked(once, false)
  {
    CheckNew(g, calls, prior);
    CheckFromFine(g.(invent := again), Check(g, calls, prior).calls, prior, 0);
  }

  // ---------- Writing the ids back into the message ----------

  /** The tool-call blocks replaced, in order; everything else stays. */
  function WithCalls(content: seq<Block>, calls: seq<Call>): (r: seq<Block>)
    requires |calls| == |CallsIn(content)|
    ensures |r| == |content|
  {
    if content == [] then []
    else if content[0].ToolCall? then [ToolCall(calls[0])] + WithCalls(content[1..], calls[1..])
    else [content[0]] + WithCalls(content[1..], calls)
  }

  lemma CallsInHead(b: Block, content: seq<Block>)
    ensures CallsIn([b] + content) == (if b.ToolCall? then [b.call] else []) + CallsIn(content)
  {
    assert ([b] + content)[1..] == content;
  }

  lemma {:induction false} WithCallsIs(content: seq<Block>, calls: seq<Call>)
    requires |calls| == |CallsIn(content)|
    ensures CallsIn(WithCalls(content, calls)) == calls
  {
    if content != [] {
      if content[0].ToolCall? {
        WithCallsIs(content[1..], calls[1..]);
        CallsInHead(ToolCall(calls[0]), WithCalls(content[1..], calls[1..]));
      } else {
        WithCallsIs(content[1..], calls);
        CallsInHead(content[0], WithCalls(content[1..], calls));
      }
    }
  }

  /** Blocks that are not calls keep their place. */
  lemma {:induction false} WithCallsKeepsText(content: seq<Block>, calls: seq<Call>, k: nat)
    requires |calls| == |CallsIn(content)| && k < |content|
    ensures if content[k].ToolCall? then WithCalls(content, calls)[k].ToolCall?
            else WithCalls(content, calls)[k] == content[k]
    decreases k
  {
    if k > 0 {
      WithCallsKeepsText(content[1..], if content[0].ToolCall? then calls[1..] else calls, k - 1);
    }
  }

  // ---------- The preflight and the transcript ----------

  predicate NamesGiven(calls: seq<Call>) {
    forall c :: c in calls ==> c.name != ""
  }

  function Preflight(g: Rules, history: seq<Message>, m: Message): Message {
    if m.Assistant? then m.(content := WithCalls(m.content, Check(g, CallsOf(m), PriorIds(g, history)).calls)) else m
  }

  lemma PreflightCalls(g: Rules, history: seq<Message>, m: Message)
    requires m.Assistant?
    ensures CallsOf(Preflight(g, history, m)) == Check(g, CallsOf(m), PriorIds(g, history)).calls
  {
    WithCallsIs(m.content, Check(g, CallsOf(m), PriorIds(g, history)).calls);
  }

  /** Trimmed new ids do not collide with the ids of the history as they were written. */
  lemma NewToHistory(g: Rules, calls: seq<Call>, past: seq<Call>)
    requires AllFine(g, calls) && Ids(calls) !! TrimmedIds(g, past) - {""}
    ensures Ids(calls) !! Ids(past)
  {
    forall c, d | c in calls && d in past ensures c.id != d.id {
      var k :| 0 <= k < |calls| && calls[k] == c;
      assert Fine(g, calls[k].id) && c.id in Ids(calls);
      assert g.trim(d.id) in TrimmedIds(g, past);
    }
  }

  /** After the preflight the analyser accepts the reply exactly when every call is named. */
  lemma PreflightAccepted(g: Rules, history: seq<Message>, m: Message)
    requires ScanOf(history).Ok? && m.Assistant?
    requires Usable(g, PriorIds(g, history) + TrimmedIds(g, CallsOf(m)))
    ensures ScanOf(history + [Preflight(g, history, m)]).Ok? <==> NamesGiven(CallsOf(m))
  {
    var r := Check(g, CallsOf(m), PriorIds(g, history)).calls;
    CheckNew(g, CallsOf(m), PriorIds(g, history));
    NewToHistory(g, r, AllCalls(history));
    PreflightCalls(g, history, m);
    NamedTogether(g, CallsOf(m), r);
    AcceptsCalls(history, Preflight(g, history, m));
  }

  lemma AcceptsCalls(history: seq<Message>, m: Message)
    requires ScanOf(history).Ok? && m.Assistant?
    ensures ScanOf(history + [m]).Ok? <==>
      && (forall c :: c in CallsOf(m) ==> c.id != "" && c.name != "")
      && DistinctIds(CallsOf(m)) && Ids(CallsOf(m)) !! Ids(AllCalls(history))
  {
    AnalyserExact(history);
    ScanSnoc(history, m);
    ReadOther(history, ScanOf(history).value, m);
  }

  lemma NamedTogether(g: Rules, a: seq<Call>, b: seq<Call>)
    requires SameNames(a, b) && AllFine(g, b)
    ensures NamesGiven(a) <==> forall c :: c in b ==> c.id != "" && c.name != ""
  {
    if NamesGiven(a) {
      forall c | c in b ensures c.id != "" && c.name != "" {
        var k :| 0 <= k < |b| && b[k] == c;
        assert a[k] in a && Fine(g, b[k].id);
      }
    } else {
      var c :| c in a && c.name == "";
      var k :| 0 <= k < |a| && a[k] == c;
      assert b[k] in b;
    }
  }

  /** A call without a name passes the preflight, and then the analyser rejects it. */
  lemma NamelessCallBreaksTranscript(g: Rules, history: seq<Message>, m: Message)
    requires history == [] && m == Assistant([ToolCall(Call("a", ""))], "toolUse")
    requires Usable(g, PriorIds(g, history) + TrimmedIds(g, CallsOf(m)))
    ensures Closed(history) && Analysis(history + [Preflight(g, history, m)]).Err?
  {
    PreflightAccepted(g, history, m);
    assert CallsOf(m)[0] in CallsOf(m);
    assert Start.unresolved + Start.pending == [];
  }

  // ---------- The loop ----------

  method CheckBatch(g: Rules, calls: seq<Call>, prior: set<string>) returns (checkedCalls: seq<Call>, rejected: bool)
    ensures Checked(checkedCalls, rejected) == Check(g, calls, prior)
  {
    var current: set<string> := {};
    checkedCalls, rejected := [], false;
    assert calls[0..] == calls && prior + current == prior;
    for k := 0 to |calls|
      invariant Checked(checkedCalls + CheckFrom(g, calls[k..], prior + current, k).calls,
                        rejected || CheckFrom(g, calls[k..], prior + current, k).rejected) == Check(g, calls, prior)
    {
      assert calls[k..][0] == calls[k] && calls[k..][1..] == calls[k + 1..];
      var id := g.trim(calls[k].id);
      var refused := id == "" || id in prior || id in current;
      if refused {
        id := g.invent(k);
      }
      assert prior + (current + {id}) == (prior + current) + {id};
      Regroup(checkedCalls, calls[k].(id := id), CheckFrom(g, calls[k + 1..], (prior + current) + {id}, k + 1).calls);
      current, rejected := current + {id}, rejected || refused;
      checkedCalls := checkedCalls + [calls[k].(id := id)];
    }
    assert checkedCalls + [] == checkedCalls;
  }

  lemma Regroup<T>(a: seq<T>, x: T, b: seq<T>)
    ensures a + ([x] + b) == (a + [x]) + b
  {}
}
