/**
 One turn of an agent run: waiting messages go in, the model replies, its batch of tool
 calls is answered, and both budgets are charged.

 What the outside world answers is a `World`: functions of the turn, or of the number of
 the poll.
 */
module AgentTurn {
  import opened Basics
  import opened Transcript
  import opened TranscriptRepair
  import opened CallIds

  datatype Config = Config(maxTurns: Option<nat>, maxToolCalls: Option<nat>)

  /** Everything outside the loop, by turn or by poll. `refuses` stands for every reason
      but the ids to refuse a batch before any of its tools runs: the policy part of the
      preflight, and the dispatcher's own check of names and arguments. */
  datatype World = World(
    steering: nat -> seq<Message>,
    followUp: nat -> seq<Message>,
    content: nat -> seq<Block>,
    stopReason: nat -> string,
    trim: string -> string,
    invent: (nat, nat) -> string,
    refuses: nat -> bool,
    attempts: nat -> seq<nat>,
    body: (nat, nat) -> string,
    terminates: nat -> bool,
    stops: nat -> bool)

  const REPAIR_TEXT := "tool_result_missing_repaired"

  function RulesAt(w: World, turn: nat): Rules {
    Rules(w.trim, (i: nat) => w.invent(turn, i))
  }

  /** The reply of a turn before the preflight. */
  function RawReply(w: World, turn: nat): Message {
    Sanitize(Assistant(w.content(turn), w.stopReason(turn)))
  }

  // ---------- The tool budget ----------

  datatype Budget = Budget(used: nat, exceeded: bool)

  datatype Admission = Admission(budget: Budget, admitted: bool, firstDenial: bool)

  function TryConsumeRetry(b: Budget, limit: nat): Admission {
    if b.exceeded then Admission(b, false, false)
    else if b.used >= limit then Admission(b.(exceeded := true), false, true)
    else Admission(b.(used := b.used + 1), true, false)
  }

  datatype Attempted = Attempted(budget: Budget, entered: nat, denials: nat)

  /** The handler entries of a batch in any interleaving: `order` names the call of each
      attempt. The first attempt of a call was charged with the batch, a retry asks. */
  function Attempts(b: Budget, order: seq<nat>, started: set<nat>, limit: Option<nat>): Attempted
    decreases |order|
  {
    if order == [] then Attempted(b, 0, 0)
    else if limit.None? || order[0] !in started then
      var rest := Attempts(b, order[1..], started + {order[0]}, limit);
      rest.(entered := rest.entered + 1)
    else
      var a := TryConsumeRetry(b, limit.value);
      var rest := Attempts(a.budget, order[1..], started, limit);
      Attempted(rest.budget, rest.entered + (if a.admitted then 1 else 0),
                rest.denials + (if a.firstDenial then 1 else 0))
  }

  function Retries(order: seq<nat>, started: set<nat>): nat
    decreases |order|
  {
    if order == [] then 0
    else if order[0] in started then 1 + Retries(order[1..], started)
    else Retries(order[1..], started + {order[0]})
  }

  /** However the retries of parallel calls interleave: exactly as many are admitted as
      the budget has left, the first one too many is reported, once, and from then on
      only first attempts enter a handler. */
  lemma {:induction false} AttemptsExact(b: Budget, order: seq<nat>, started: set<nat>, limit: nat)
    requires b.used <= limit
    ensures var (r, retries) := (Attempts(b, order, started, Some(limit)), Retries(order, started));
            var admitted := if b.exceeded then 0 else Min(retries, limit - b.used);
            && r.budget.used == b.used + admitted <= limit
            && r.entered == |order| - retries + admitted
            && r.denials == (if b.exceeded || retries <= limit - b.used then 0 else 1)
            && r.budget.exceeded == (b.exceeded || retries > limit - b.used)
    ensures Retries(order, started) <= |order|
    decreases |order|
  {
    if order != [] {
      if order[0] in started {
        AttemptsExact(TryConsumeRetry(b, limit).budget, order[1..], started, limit);
      } else {
        AttemptsExact(b, order[1..], started + {order[0]}, limit);
      }
    }
  }

  /** First attempts are at most one for each call of the batch. */
  lemma {:induction false} FirstAttemptsBounded(order: seq<nat>, started: set<nat>, calls: nat)
    requires forall i :: i in order ==> i < calls
    requires forall i :: i in started ==> i < calls
    ensures |started| + |order| - Retries(order, started) <= calls
    decreases |order|
  {
    if order == [] {
      BoundedSet(started, calls);
    } else {
      assert order[0] in order && forall i :: i in order[1..] ==> i in order;
      FirstAttemptsBounded(order[1..], started + {order[0]}, calls);
      assert order[0] in started ==> started + {order[0]} == started;
    }
  }

  lemma BoundedSet(s: set<nat>, n: nat)
    requires forall i :: i in s ==> i < n
    ensures |s| <= n
    decreases n
  {
    if n > 0 {
      BoundedSet(s - {n - 1}, n - 1);
    } else {
      assert s == {};
    }
  }

  // ---------- One turn ----------

  /** Where a new message came from. */
  datatype Entry = Injected(message: Message) | Replied(message: Message) | Answered(message: Message)

  function Messages(entries: seq<Entry>): seq<Message> {
    seq(|entries|, i requires 0 <= i < |entries| => entries[i].message)
  }

  function Injections(entries: seq<Entry>): seq<Message> {
    if entries == [] then []
    else Injections(entries[..|entries| - 1])
         + if entries[|entries| - 1].Injected? then [entries[|entries| - 1].message] else []
  }

  function InjectedAll(ms: seq<Message>): seq<Entry> {
    seq(|ms|, i requires 0 <= i < |ms| => Injected(ms[i]))
  }

  function AnsweredAll(ms: seq<Message>): seq<Entry> {
    seq(|ms|, i requires 0 <= i < |ms| => Answered(ms[i]))
  }

  datatype St = St(context: seq<Message>, entries: seq<Entry>, requests: seq<seq<Message>>, turns: nat,
                   budget: Budget, entered: nat, denials: nat)

  function Inject(s: St, pending: seq<Message>): St {
    s.(turns := s.turns + 1, context := s.context + pending, entries := s.entries + InjectedAll(pending))
  }

  /** The model request and its reply. */
  function Stream(s: St, w: World, turn: nat): Result<St> {
    match Repair(s.context, REPAIR_TEXT)
    case Err(e) => Err(e)
    case Ok((repaired, _)) =>
      var reply := Preflight(RulesAt(w, turn), repaired, RawReply(w, turn));
      Ok(s.(context := repaired + [reply], entries := s.entries + [Replied(reply)],
            requests := s.requests + [repaired]))
  }

  function ResultsFrom(calls: seq<Call>, synthetic: bool, text: nat -> string, k: nat): (r: seq<Message>)
    ensures |r| == |calls|
    decreases |calls|
  {
    if calls == [] then []
    else [ToolResult(calls[0].id, calls[0].name, synthetic, text(k))] + ResultsFrom(calls[1..], synthetic, text, k + 1)
  }

  datatype Batch = Batch(results: seq<Message>, budget: Budget, entered: nat, denials: nat, more: bool, stop: bool)

  function OverBudget(b: Budget, calls: nat, limit: Option<nat>): bool {
    limit.Some? && b.used + calls > limit.value
  }

  function Same(text: string): nat -> string {
    (i: nat) => text
  }

  function BodyAt(w: World, turn: nat): nat -> string {
    (i: nat) => w.body(turn, i)
  }

  /** A batch the budget has room for, after it was charged. */
  function RunCharged(b: Budget, calls: seq<Call>, w: World, turn: nat, rejected: bool, limit: Option<nat>): Batch {
    if w.stopReason(turn) == "length" then
      Batch(ResultsFrom(calls, true, Same("model_output_truncated"), 0), b, 0, 0, false, false)
    else if rejected then
      Batch(ResultsFrom(calls, true, Same("tool_call_batch_rejected"), 0), b, 0, 0, true, b.exceeded)
    else
      var r := Attempts(b, Within(w.attempts(turn), |calls|), {}, limit);
      Batch(ResultsFrom(calls, false, BodyAt(w, turn), 0), r.budget, r.entered, r.denials,
            !(w.terminates(turn) || r.budget.exceeded), r.budget.exceeded)
  }

  /** The ways a batch of calls is answered, in the order they are tried. */
  function RunBatch(b: Budget, calls: seq<Call>, w: World, turn: nat, rejected: bool, limit: Option<nat>): Batch {
    if calls == [] then Batch([], b, 0, 0, false, false)
    else if OverBudget(b, |calls|, limit) then
      Batch(ResultsFrom(calls, true, Same("tool_call_budget_exceeded"), 0), b, 0, 1, false, true)
    else RunCharged(b.(used := b.used + |calls|), calls, w, turn, rejected, limit)
  }

  /** The attempts that name a call of the batch. */
  function Within(order: seq<nat>, n: nat): (r: seq<nat>)
    ensures forall i :: i in r ==> i < n
  {
    if order == [] then [] else (if order[0] < n then [order[0]] else []) + Within(order[1..], n)
  }

  function WithBatch(s: St, b: Batch): St {
    s.(context := s.context + b.results, entries := s.entries + AnsweredAll(b.results),
       budget := b.budget, entered := s.entered + b.entered, denials := s.denials + b.denials)
  }

  /** The batch of a turn is refused, by the preflight or by the dispatcher; either way
      each of its calls is answered on its own and nothing runs. */
  function Rejected(w: World, turn: nat, history: seq<Message>): bool {
    Check(RulesAt(w, turn), CallsOf(RawReply(w, turn)), PriorIds(RulesAt(w, turn), history)).rejected || w.refuses(turn)
  }

  // ---------- Budgets of a turn ----------

  lemma {:induction false} UnlimitedAttempts(b: Budget, order: seq<nat>, started: set<nat>)
    ensures Attempts(b, order, started, None) == Attempted(b, |order|, 0)
    decreases |order|
  {
    if order != [] {
      UnlimitedAttempts(b, order[1..], started + {order[0]});
    }
  }

  /** A batch that does not fit runs nothing and is denied as a whole; a truncated or
      rejected one is charged and runs nothing; otherwise every handler entry was
      charged. A denial ends the run. The model is asked again exactly when a batch was
      refused by the preflight, or ran and does not end the run. */
  lemma BatchBudget(b: Budget, calls: seq<Call>, w: World, turn: nat, rejected: bool, limit: Option<nat>)
    requires !b.exceeded && (limit.Some? ==> b.used <= limit.value)
    ensures var r := RunBatch(b, calls, w, turn, rejected, limit);
            && (limit.Some? ==> r.entered <= r.budget.used - b.used && r.budget.used <= limit.value)
            && r.budget.used >= b.used && |r.results| == |calls|
            && r.denials <= 1 && (r.denials == 1 <==> r.stop) && (limit.None? ==> r.denials == 0)
            && (OverBudget(b, |calls|, limit) && calls != [] ==> r.entered == 0 && r.budget == b && r.stop)
            && (w.stopReason(turn) == "length" || rejected ==> r.entered == 0)
            && (r.more ==> !r.stop)
            && (r.more <==>
                  && calls != [] && !OverBudget(b, |calls|, limit) && w.stopReason(turn) != "length"
                  && (rejected || (!w.terminates(turn) && !r.budget.exceeded)))
  {
    var charged := b.(used := b.used + |calls|);
    var order := Within(w.attempts(turn), |calls|);
    if limit.None? {
      UnlimitedAttempts(charged, order, {});
    } else if charged.used <= limit.value {
      AttemptsExact(charged, order, {}, limit.value);
      FirstAttemptsBounded(order, {}, |calls|);
    }
  }

  /** What a batch costs. The retries are those of the attempts that name one of its calls,
      in whatever order they come. */
  lemma BatchCharges(b: Budget, calls: seq<Call>, w: World, turn: nat, rejected: bool, limit: nat)
    requires !b.exceeded && b.used <= limit && calls != []
    ensures var r := RunBatch(b, calls, w, turn, rejected, Some(limit));
            var order := Within(w.attempts(turn), |calls|);
            var (retries, room) := (Retries(order, {}), limit - b.used - |calls|);
            if b.used + |calls| > limit then r.budget == b && r.entered == 0
            else if w.stopReason(turn) == "length" || rejected then
              r.budget == Budget(b.used + |calls|, false) && r.entered == 0
            else
              && r.budget == Budget(b.used + |calls| + Min(retries, room), retries > room)
              && r.entered == |order| - retries + Min(retries, room)
  {
    if b.used + |calls| <= limit {
      AttemptsExact(b.(used := b.used + |calls|), Within(w.attempts(turn), |calls|), {}, limit);
    }
  }

  lemma {:induction false} ResultsText(calls: seq<Call>, synthetic: bool, text: nat -> string, first: nat, k: nat)
    requires k < |calls|
    ensures var m := ResultsFrom(calls, synthetic, text, first)[k];
            m.ToolResult? && m.synthetic == synthetic && m.body == text(first + k)
  {
    if k > 0 {
      ResultsText(calls[1..], synthetic, text, first + 1, k - 1);
    }
  }

  /** What each call of a batch is answered with: what its tool said, or the reason why no
      tool ran. */
  lemma ResultsAre(b: Budget, calls: seq<Call>, w: World, turn: nat, rejected: bool, limit: Option<nat>, k: nat)
    requires k < |calls|
    ensures var r := RunBatch(b, calls, w, turn, rejected, limit);
            && |r.results| == |calls| && r.results[k].ToolResult?
            && r.results[k].synthetic == (OverBudget(b, |calls|, limit) || w.stopReason(turn) == "length" || rejected)
            && r.results[k].body ==
               if OverBudget(b, |calls|, limit) then "tool_call_budget_exceeded"
               else if w.stopReason(turn) == "length" then "model_output_truncated"
               else if rejected then "tool_call_batch_rejected"
               else w.body(turn, k)
  {
    ResultsText(calls, true, Same("tool_call_budget_exceeded"), 0, k);
    ResultsText(calls, true, Same("model_output_truncated"), 0, k);
    ResultsText(calls, true, Same("tool_call_batch_rejected"), 0, k);
    ResultsText(calls, false, BodyAt(w, turn), 0, k);
  }

  // ---------- Provenance ----------

  lemma InjectionsSnoc(entries: seq<Entry>, e: Entry)
    ensures Injections(entries + [e]) == Injections(entries) + if e.Injected? then [e.message] else []
  {
    assert (entries + [e])[..|entries|] == entries;
  }

  lemma AllSnoc(ms: seq<Message>, m: Message)
    ensures InjectedAll(ms + [m]) == InjectedAll(ms) + [Injected(m)]
    ensures AnsweredAll(ms + [m]) == AnsweredAll(ms) + [Answered(m)]
  {}

  lemma {:induction false} InjectionsOfInjected(entries: seq<Entry>, ms: seq<Message>)
    ensures Injections(entries + InjectedAll(ms)) == Injections(entries) + ms
  {
    if |ms| == 0 {
      assert entries + InjectedAll(ms) == entries;
    } else {
      var rest, m := ms[..|ms| - 1], ms[|ms| - 1];
      InjectionsOfInjected(entries, rest);
      InjectionsSnoc(entries + InjectedAll(rest), Injected(m));
      AllSnoc(rest, m);
      Associative(entries, InjectedAll(rest), [Injected(m)]);
      assert ms == rest + [m];
      Associative(Injections(entries), rest, [m]);
    }
  }

  lemma {:induction false} InjectionsOfAnswered(entries: seq<Entry>, ms: seq<Message>)
    ensures Injections(entries + AnsweredAll(ms)) == Injections(entries)
  {
    if |ms| == 0 {
      assert entries + AnsweredAll(ms) == entries;
    } else {
      var rest, m := ms[..|ms| - 1], ms[|ms| - 1];
      InjectionsOfAnswered(entries, rest);
      InjectionsSnoc(entries + AnsweredAll(rest), Answered(m));
      AllSnoc(rest, m);
      assert ms == rest + [m];
      Associative(entries, AnsweredAll(rest), [Answered(m)]);
      NoneAdded(Injections(entries));
    }
  }

  lemma MessagesAppend(a: seq<Entry>, b: seq<Entry>)
    ensures Messages(a + b) == Messages(a) + Messages(b)
  {}

  lemma MessagesOfAll(ms: seq<Message>)
    ensures Messages(InjectedAll(ms)) == ms && Messages(AnsweredAll(ms)) == ms
  {}
}
