/**
 The double loop of one agent run: the inner loop handles tools and steering messages,
 the outer one follow-up messages when the agent would have stopped.

 Without a turn limit a run need not end, so it is observed up to a horizon of turns.
 */
module AgentLoop {
  import opened Basics
  import opened Transcript
  import opened TranscriptRepair
  import opened CallIds
  import opened AgentTurn
  import opened LoopClosure

  datatype Ending =
    | Failed(error: ErrorCode)
    | ModelFailed
    | Truncated
    | ToolBudget
    | Stopped
    | TurnBudget
    | Idle
    | Horizon

  datatype Poll = Steering | FollowUp

  /** `polls` and `drained` log the queue reads and all they returned; `pending` was
      drained and not yet injected. */
  datatype RunResult = RunResult(ending: Ending, st: St, polls: seq<Poll>, drained: seq<Message>, pending: seq<Message>)

  function Count(polls: seq<Poll>, p: Poll): nat {
    if polls == [] then 0 else Count(polls[..|polls| - 1], p) + if polls[|polls| - 1] == p then 1 else 0
  }

  /** The answer to the next poll of a kind. */
  function Answer(w: World, polls: seq<Poll>, p: Poll): seq<Message> {
    if p.Steering? then w.steering(Count(polls, p)) else w.followUp(Count(polls, p))
  }

  function DrainedBy(w: World, polls: seq<Poll>): seq<Message> {
    if polls == [] then []
    else DrainedBy(w, polls[..|polls| - 1]) + Answer(w, polls[..|polls| - 1], polls[|polls| - 1])
  }

  lemma PollSnoc(w: World, polls: seq<Poll>, p: Poll)
    ensures DrainedBy(w, polls + [p]) == DrainedBy(w, polls) + Answer(w, polls, p)
    ensures forall q :: Count(polls + [p], q) == Count(polls, q) + if p == q then 1 else 0
  {
    assert (polls + [p])[..|polls|] == polls;
  }

  // ---------- When a run goes on ----------

  /** The calls of a turn ask for another model request: the reply has some, and its batch
      was refused, or ran and did not end the run. */
  ghost predicate Asks(w: World, turn: nat, request: seq<Message>) {
    CallsOf(RawReply(w, turn)) != [] && (Rejected(w, turn, request) || !w.terminates(turn))
  }

  /** Which turns ask for another request. */
  ghost function Asking(w: World, requests: seq<seq<Message>>): (r: seq<bool>)
    ensures |r| == |requests|
  {
    seq(|requests|, k requires 0 <= k < |requests| => Asks(w, k, requests[k]))
  }

  /** Neither tools nor steering messages ask for more after a turn. */
  ghost predicate Quiet(w: World, asks: seq<bool>, turn: nat)
    requires turn < |asks|
  {
    !asks[turn] && w.steering(turn + 1) == []
  }

  /** The polls of a run with `turns` turns behind it: the steering queue at the start and
      after every turn, and the follow-up queue exactly after the quiet ones. */
  ghost function Schedule(w: World, asks: seq<bool>, turns: nat): seq<Poll>
    requires turns <= |asks|
  {
    if turns == 0 then [Steering]
    else Schedule(w, asks, turns - 1) + [Steering] + if Quiet(w, asks, turns - 1) then [FollowUp] else []
  }

  /** There is something to do after a turn. */
  ghost predicate Waiting(w: World, asks: seq<bool>, turn: nat)
    requires turn < |asks|
  {
    !Quiet(w, asks, turn) || w.followUp(Count(Schedule(w, asks, turn), FollowUp)) != []
  }

  /** Nothing about a turn itself ends the run: neither its reply, nor the hook, nor the
      turn limit. */
  ghost predicate Survives(w: World, config: Config, turn: nat) {
    && w.stopReason(turn) !in {"error", "aborted", "length"} && !w.stops(turn)
    && (config.maxTurns.Some? ==> turn + 1 < config.maxTurns.value)
  }

  /** The run goes on after each of its first turns. */
  ghost predicate GoesOn(w: World, config: Config, asks: seq<bool>, turns: nat)
    requires turns <= |asks|
  {
    turns > 0 ==>
      Survives(w, config, turns - 1) && Waiting(w, asks, turns - 1) && GoesOn(w, config, asks, turns - 1)
  }

  lemma {:induction false} ScheduleStable(w: World, asks: seq<bool>, more: seq<bool>, turns: nat)
    requires turns <= |asks| && asks <= more
    ensures Schedule(w, asks, turns) == Schedule(w, more, turns)
  {
    if turns > 0 {
      ScheduleStable(w, asks, more, turns - 1);
    }
  }

  lemma {:induction false} GoesOnStable(w: World, config: Config, asks: seq<bool>, more: seq<bool>, turns: nat)
    requires turns <= |asks| && asks <= more && GoesOn(w, config, asks, turns)
    ensures GoesOn(w, config, more, turns)
  {
    if turns > 0 {
      ScheduleStable(w, asks, more, turns - 1);
      GoesOnStable(w, config, asks, more, turns - 1);
    }
  }

  lemma SteeringAdded(w: World, polls: seq<Poll>, quiet: bool)
    ensures Count(polls + [Steering] + if quiet then [FollowUp] else [], Steering) == Count(polls, Steering) + 1
  {
    PollSnoc(w, polls, Steering);
    PollSnoc(w, polls + [Steering], FollowUp);
    NoneAdded(polls + [Steering]);
  }

  lemma {:induction false} ScheduleCounts(w: World, asks: seq<bool>, turns: nat)
    requires turns <= |asks|
    ensures Count(Schedule(w, asks, turns), Steering) == turns + 1
  {
    if turns == 0 {
      PollSnoc(w, [], Steering);
      NoneAdded([Steering]);
    } else {
      ScheduleCounts(w, asks, turns - 1);
      SteeringAdded(w, Schedule(w, asks, turns - 1), Quiet(w, asks, turns - 1));
    }
  }

  const FRESH := St([], [], [], 0, Budget(0, false), 0, 0)

  // ---------- What a turn keeps ----------

  /** Both budgets while the run goes on. */
  ghost predicate WithinBudgets(s: St, config: Config) {
    && s.turns == |s.requests| && s.denials == 0 && !s.budget.exceeded
    && (config.maxTurns.Some? && s.turns > 0 ==> s.turns < config.maxTurns.value)
    && (config.maxToolCalls.Some? ==> s.entered <= s.budget.used <= config.maxToolCalls.value)
  }

  /** Both budgets when it is over. */
  ghost predicate BudgetsKept(s: St, config: Config) {
    && |s.requests| <= s.turns <= |s.requests| + 1 && s.denials <= 1
    && (config.maxTurns.Some? ==> s.turns <= config.maxTurns.value)
    && (config.maxToolCalls.Some? ==> s.entered <= s.budget.used <= config.maxToolCalls.value)
    && (config.maxToolCalls.None? ==> s.denials == 0)
  }

  /** The parts of a state the steps of a turn go through. */
  function AfterReply(s: St, w: World, pending: seq<Message>): Result<St> {
    Stream(Inject(s, pending), w, s.turns)
  }

  function BatchOf(before: St, after: St, w: World, config: Config): Batch
    requires after.context != [] && after.requests != []
  {
    RunBatch(after.budget, CallsOf(after.context[|after.context| - 1]), w, before.turns,
             Rejected(w, before.turns, after.requests[|after.requests| - 1]), config.maxToolCalls)
  }

  lemma TurnBudgets(s: St, w: World, pending: seq<Message>, config: Config)
    requires WithinBudgets(s, config) && (config.maxTurns.Some? ==> config.maxTurns.value >= 1)
    requires AfterReply(s, w, pending).Ok?
    ensures var replied := AfterReply(s, w, pending).value;
            var batch := BatchOf(s, replied, w, config);
            var done := WithBatch(replied, batch);
            && BudgetsKept(replied, config) && BudgetsKept(done, config)
            && replied.turns == done.turns == s.turns + 1 == |done.requests| && replied.denials == 0
            && (batch.stop <==> done.denials == 1) && (batch.more ==> !batch.stop)
            && (!batch.stop ==> !done.budget.exceeded)
  {
    var replied := AfterReply(s, w, pending).value;
    var reply := replied.context[|replied.context| - 1];
    BatchBudget(replied.budget, CallsOf(reply), w, s.turns,
                Rejected(w, s.turns, replied.requests[|replied.requests| - 1]), config.maxToolCalls);
    NoDenialNoExcess(replied.budget, CallsOf(reply), w, s.turns,
                     Rejected(w, s.turns, replied.requests[|replied.requests| - 1]), config.maxToolCalls);
  }

  lemma NoDenialNoExcess(b: Budget, calls: seq<Call>, w: World, turn: nat, rejected: bool, limit: Option<nat>)
    requires !b.exceeded
    ensures var r := RunBatch(b, calls, w, turn, rejected, limit); !r.stop ==> !r.budget.exceeded
  {}

  lemma TurnInjections(s: St, w: World, pending: seq<Message>, config: Config)
    requires AfterReply(s, w, pending).Ok?
    ensures var replied := AfterReply(s, w, pending).value;
            && Injections(replied.entries) == Injections(s.entries) + pending
            && Injections(WithBatch(replied, BatchOf(s, replied, w, config)).entries) == Injections(s.entries) + pending
  {
    var replied := AfterReply(s, w, pending).value;
    InjectionsOfInjected(s.entries, pending);
    InjectionsSnoc(Inject(s, pending).entries, Replied(replied.context[|replied.context| - 1]));
    InjectionsOfAnswered(replied.entries, BatchOf(s, replied, w, config).results);
  }

  /** With a closed history the repair before the request changes nothing: the model is
      asked with the history as it is. */
  lemma AskedAsIs(s: St, w: World, pending: seq<Message>)
    requires Closed(s.context + pending)
    ensures var context := s.context + pending;
            var reply := Reply(w, s.turns, context);
            AfterReply(s, w, pending) == Ok(s.(
              turns := s.turns + 1, context := context + [reply], requests := s.requests + [context],
              entries := s.entries + InjectedAll(pending) + [Replied(reply)]))
  {
    StreamAsIs(Inject(s, pending), w, s.turns);
  }

  lemma StreamAsIs(s: St, w: World, turn: nat)
    requires Closed(s.context)
    ensures var reply := Reply(w, turn, s.context);
            Stream(s, w, turn) == Ok(s.(context := s.context + [reply], requests := s.requests + [s.context],
                                        entries := s.entries + [Replied(reply)]))
  {
    ClosedUntouched(s.context, REPAIR_TEXT);
  }

  /** In any run, honest or not, the model is asked with a closed history: what the run has
      so far, and a synthetic result for each call that lacks one. */
  lemma AskedRepaired(s: St, w: World, pending: seq<Message>)
    requires AfterReply(s, w, pending).Ok?
    ensures var t := AfterReply(s, w, pending).value;
            && |t.requests| == |s.requests| + 1 && s.requests <= t.requests
            && var request := t.requests[|s.requests|];
            && Closed(request) && t.context == request + [Reply(w, s.turns, request)]
            && Analysis(s.context + pending).Ok?
            && Erase(request, Ids(Analysis(s.context + pending).value)) == s.context + pending
  {
    RepairSpec(s.context + pending, REPAIR_TEXT);
  }

  /** Every request of every run, however its history was damaged by what was injected. */
  lemma {:induction false} RequestsClosed(w: World, config: Config, history: seq<Message>,
                                          pendings: seq<seq<Message>>, k: nat)
    requires k < |Turns(w, config, history, pendings).requests|
    ensures Closed(Turns(w, config, history, pendings).requests[k])
    decreases |pendings|
  {
    if pendings != [] {
      var last := |pendings| - 1;
      var before := Turns(w, config, history, pendings[..last]);
      if k < |before.requests| {
        RequestsClosed(w, config, history, pendings[..last], k);
      }
      if AfterReply(before, w, pendings[last]).Ok? {
        AskedRepaired(before, w, pendings[last]);
      }
    }
  }

  lemma SameTidy(w: World, history: seq<Message>, s: St, t: St)
    requires Tidy(w, history, s) && s.context == t.context && s.entries == t.entries
    requires s.requests == t.requests && s.turns == t.turns
    ensures Tidy(w, history, t)
  {}

  /** Answering the batch of a reply keeps an honest run tidy. */
  lemma AnsweredTidy(s: St, w: World, history: seq<Message>, reply: Message, replied: St, batch: Batch)
    requires Honest(w, history) && Tidy(w, history, s) && reply == Reply(w, s.turns, s.context)
    requires OneEach(batch.results, CallsOf(reply)) && replied.turns == s.turns + 1
    requires replied.context == s.context + [reply] && replied.requests == s.requests + [s.context]
    requires replied.entries == s.entries + [Replied(reply)]
    ensures Tidy(w, history, WithBatch(replied, batch))
  {
    TurnTidy(w, history, s, batch.results);
    SameTidy(w, history,
             s.(context := s.context + [reply] + batch.results, turns := s.turns + 1,
                requests := s.requests + [s.context],
                entries := s.entries + [Replied(reply)] + AnsweredAll(batch.results)),
             WithBatch(replied, batch));
  }

  lemma BatchAnswersReply(s: St, w: World, config: Config, replied: St)
    requires replied.context != [] && replied.requests != []
    ensures OneEach(BatchOf(s, replied, w, config).results, CallsOf(replied.context[|replied.context| - 1]))
  {
    BatchOneEach(replied.budget, CallsOf(replied.context[|replied.context| - 1]), w, s.turns,
                 Rejected(w, s.turns, replied.requests[|replied.requests| - 1]), config.maxToolCalls);
  }

  /** A terminal reply has no calls to answer. */
  lemma TerminalTidy(w: World, history: seq<Message>, s: St)
    requires Honest(w, history) && Tidy(w, history, s) && w.stopReason(s.turns) in {"error", "aborted"}
    ensures var reply := Reply(w, s.turns, s.context);
            Tidy(w, history, s.(context := s.context + [reply], turns := s.turns + 1,
                                requests := s.requests + [s.context],
                                entries := s.entries + [Replied(reply)]))
  {
    var reply := Reply(w, s.turns, s.context);
    SanitizedNoCalls(w, s.turns, s.context);
    TurnTidy(w, history, s, []);
    assert s.context + [reply] + [] == s.context + [reply];
    assert s.entries + [Replied(reply)] + AnsweredAll([]) == s.entries + [Replied(reply)];
  }

  lemma SanitizedNoCalls(w: World, turn: nat, context: seq<Message>)
    requires w.stopReason(turn) in {"error", "aborted"}
    ensures OneEach([], CallsOf(Reply(w, turn, context)))
  {
    var _ := TextOnlyHasNoCalls(w.content(turn));
    PreflightCalls(RulesAt(w, turn), context, RawReply(w, turn));
  }

  lemma BatchOneEach(b: Budget, calls: seq<Call>, w: World, turn: nat, rejected: bool, limit: Option<nat>)
    ensures OneEach(RunBatch(b, calls, w, turn, rejected, limit).results, calls)
  {
    ResultsOneEach(calls, true, Same("tool_call_budget_exceeded"), 0);
    ResultsOneEach(calls, true, Same("model_output_truncated"), 0);
    ResultsOneEach(calls, true, Same("tool_call_batch_rejected"), 0);
    ResultsOneEach(calls, false, BodyAt(w, turn), 0);
  }

  datatype TurnEnd = Next(more: bool) | Ended(ending: Ending)

  /** One turn and what it decides: terminal replies, truncated replies and exhausted
      tool budgets end the run. */
  function TurnResult(s: St, w: World, pending: seq<Message>, config: Config): (St, TurnEnd) {
    match AfterReply(s, w, pending)
    case Err(e) => (Inject(s, pending), Ended(Failed(e)))
    case Ok(replied) =>
      if w.stopReason(s.turns) in {"error", "aborted"} then (replied, Ended(ModelFailed))
      else
        var batch := BatchOf(s, replied, w, config);
        (WithBatch(replied, batch),
         if w.stopReason(s.turns) == "length" then Ended(Truncated)
         else if batch.stop then Ended(ToolBudget) else Next(batch.more))
  }

  /** The state after one turn for each element of `pendings`, which it injects. */
  function Turns(w: World, config: Config, history: seq<Message>, pendings: seq<seq<Message>>): St {
    if pendings == [] then FRESH.(context := history)
    else
      var last := |pendings| - 1;
      TurnResult(Turns(w, config, history, pendings[..last]), w, pendings[last], config).0
  }

  ghost predicate PlainTurns(pendings: seq<seq<Message>>) {
    forall k :: 0 <= k < |pendings| ==> AllPlain(pendings[k])
  }

  /** A state of the loop comes from turns alone, in an honest run with plain messages. */
  ghost predicate Reached(w: World, config: Config, history: seq<Message>, s: St) {
    exists pendings :: Turns(w, config, history, pendings) == s && (Honest(w, history) ==> PlainTurns(pendings))
  }

  lemma TurnsSnoc(w: World, config: Config, history: seq<Message>, pendings: seq<seq<Message>>, pending: seq<Message>)
    ensures Turns(w, config, history, pendings + [pending])
            == TurnResult(Turns(w, config, history, pendings), w, pending, config).0
  {
    assert (pendings + [pending])[..|pendings|] == pendings;
  }

  lemma TurnReached(w: World, config: Config, history: seq<Message>, s: St, pending: seq<Message>)
    requires Reached(w, config, history, s) && (Honest(w, history) ==> AllPlain(pending))
    ensures Reached(w, config, history, TurnResult(s, w, pending, config).0)
  {
    var pendings :| Turns(w, config, history, pendings) == s && (Honest(w, history) ==> PlainTurns(pendings));
    TurnsSnoc(w, config, history, pendings, pending);
    assert Honest(w, history) ==> PlainTurns(pendings + [pending]);
  }

  /** What holds before a turn. */
  ghost predicate Live(w: World, config: Config, history: seq<Message>, s: St, polls: seq<Poll>,
                       pending: seq<Message>) {
    Running(w, config, history, s, polls, pending) && Scheduled(w, config, s, polls)
  }

  /** Every turn so far led to the next one, with the polls between them. */
  ghost predicate Scheduled(w: World, config: Config, s: St, polls: seq<Poll>)
    requires s.turns == |s.requests|
  {
    polls == Schedule(w, Asking(w, s.requests), s.turns) && GoesOn(w, config, Asking(w, s.requests), s.turns)
  }

  /** The same before anything is known about the last turn. */
  ghost predicate ScheduledBefore(w: World, config: Config, s: St, polls: seq<Poll>)
    requires 0 < s.turns <= |s.requests| + 1
  {
    polls == Schedule(w, Asking(w, s.requests), s.turns - 1) && GoesOn(w, config, Asking(w, s.requests), s.turns - 1)
  }

  /** What holds while the run goes on. */
  ghost predicate Running(w: World, config: Config, history: seq<Message>, s: St, polls: seq<Poll>,
                       pending: seq<Message>) {
    && WithinBudgets(s, config) && Accounted(w, s, polls, pending) && Reached(w, config, history, s)
    && (Honest(w, history) ==> Tidy(w, history, s) && AllPlain(pending))
  }

  /** Every drained message was injected, once and in order, or is still pending. */
  ghost predicate Accounted(w: World, s: St, polls: seq<Poll>, pending: seq<Message>) {
    Injections(s.entries) + pending == DrainedBy(w, polls)
  }

  /** What holds between turns and when the run is over. */
  ghost predicate StateKept(w: World, config: Config, history: seq<Message>, s: St, polls: seq<Poll>,
                            pending: seq<Message>) {
    && BudgetsKept(s, config) && Accounted(w, s, polls, pending) && Reached(w, config, history, s)
    && (Honest(w, history) ==> Tidy(w, history, s))
  }

  /** What holds after a turn, whatever it decided. */
  ghost predicate AfterTurn(w: World, config: Config, history: seq<Message>, s: St, polls: seq<Poll>, end: TurnEnd) {
    && StateKept(w, config, history, s, polls, [])
    && (end.Ended? && end.ending.Failed? ==> !Honest(w, history))
    && s.turns > 0 && ScheduledBefore(w, config, s, polls) && TurnEndMeans(w, s, end)
  }

  /** Why a turn ended the run, or did not. */
  ghost predicate TurnEndMeans(w: World, s: St, end: TurnEnd)
    requires s.turns > 0
  {
    var last := s.turns - 1;
    && s.denials <= 1 && (end != Ended(ToolBudget) && end != Ended(Truncated) ==> s.denials == 0)
    && (|s.requests| == s.turns || (end.Ended? && end.ending.Failed?))
    && match end
       case Next(more) =>
         && w.stopReason(last) !in {"error", "aborted", "length"} && !s.budget.exceeded
         && (more <==> Asking(w, s.requests)[last])
       case Ended(ModelFailed) => w.stopReason(last) in {"error", "aborted"}
       case Ended(Truncated) => w.stopReason(last) == "length"
       case Ended(ToolBudget) => w.stopReason(last) !in {"error", "aborted", "length"} && s.denials == 1
       case Ended(Failed(e)) => |s.requests| == last && Repair(s.context, REPAIR_TEXT) == Err(e)
       case Ended(_) => false
  }

  lemma TurnKeepsBudgets(w: World, config: Config, s: St, pending: seq<Message>)
    requires WithinBudgets(s, config) && (config.maxTurns.Some? ==> config.maxTurns.value >= 1)
    ensures var (t, end) := TurnResult(s, w, pending, config);
            && BudgetsKept(t, config) && t.turns == s.turns + 1 && s.requests <= t.requests
            && TurnEndMeans(w, t, end)
  {
    if AfterReply(s, w, pending).Ok? {
      TurnBudgets(s, w, pending, config);
      if w.stopReason(s.turns) !in {"error", "aborted", "length"} {
        MoreIffAsks(s, w, pending, config);
      }
    }
  }

  lemma ReplyHasCalls(w: World, turn: nat, request: seq<Message>)
    ensures CallsOf(Reply(w, turn, request)) == [] <==> CallsOf(RawReply(w, turn)) == []
  {
    PreflightCalls(RulesAt(w, turn), request, RawReply(w, turn));
  }

  /** What the batch says about another request. */
  lemma MoreIffAsks(s: St, w: World, pending: seq<Message>, config: Config)
    requires WithinBudgets(s, config) && AfterReply(s, w, pending).Ok? && w.stopReason(s.turns) != "length"
    ensures var replied := AfterReply(s, w, pending).value;
            var batch := BatchOf(s, replied, w, config);
            !batch.stop ==> (batch.more <==> Asking(w, replied.requests)[s.turns])
  {
    var replied := AfterReply(s, w, pending).value;
    var calls := CallsOf(replied.context[|replied.context| - 1]);
    var rejected := Rejected(w, s.turns, replied.requests[|replied.requests| - 1]);
    ReplyHasCalls(w, s.turns, replied.requests[s.turns]);
    assert Asking(w, replied.requests)[s.turns] == Asks(w, s.turns, replied.requests[s.turns]);
    BatchBudget(replied.budget, calls, w, s.turns, rejected, config.maxToolCalls);
    NoDenialNoExcess(replied.budget, calls, w, s.turns, rejected, config.maxToolCalls);
  }

  lemma TurnKeepsSchedule(w: World, config: Config, s: St, t: St, polls: seq<Poll>)
    requires s.turns == |s.requests| && Scheduled(w, config, s, polls)
    requires t.turns == s.turns + 1 && s.requests <= t.requests
    ensures ScheduledBefore(w, config, t, polls)
  {
    var (asks, more) := (Asking(w, s.requests), Asking(w, t.requests));
    forall k | 0 <= k < |asks| ensures asks[k] == more[k] {
      assert s.requests[k] == t.requests[k];
    }
    ScheduleStable(w, asks, more, s.turns);
    GoesOnStable(w, config, asks, more, s.turns);
  }

  lemma TurnKeepsAccount(w: World, config: Config, s: St, polls: seq<Poll>, pending: seq<Message>)
    requires Accounted(w, s, polls, pending)
    ensures Accounted(w, TurnResult(s, w, pending, config).0, polls, [])
  {
    var t := TurnResult(s, w, pending, config).0;
    InjectionsOfInjected(s.entries, pending);
    if AfterReply(s, w, pending).Ok? {
      TurnInjections(s, w, pending, config);
    }
    assert Injections(t.entries) == Injections(s.entries) + pending;
    assert Injections(t.entries) + [] == Injections(t.entries);
  }

  /** A turn of an honest world that starts with nothing left to inject. */
  lemma AskedTurnTidy(w: World, config: Config, history: seq<Message>, s: St, replied: St)
    requires Honest(w, history) && Tidy(w, history, s)
    requires var reply := Reply(w, s.turns, s.context);
             && replied.turns == s.turns + 1 && replied.context == s.context + [reply]
             && replied.requests == s.requests + [s.context] && replied.entries == s.entries + [Replied(reply)]
    ensures if w.stopReason(s.turns) in {"error", "aborted"} then Tidy(w, history, replied)
            else Tidy(w, history, WithBatch(replied, BatchOf(s, replied, w, config)))
  {
    if w.stopReason(s.turns) in {"error", "aborted"} {
      TerminalTidy(w, history, s);
    } else {
      BatchAnswersReply(s, w, config, replied);
      AnsweredTidy(s, w, history, Reply(w, s.turns, s.context), replied, BatchOf(s, replied, w, config));
    }
  }

  lemma TurnKeepsTidy(w: World, config: Config, history: seq<Message>, s: St, pending: seq<Message>)
    requires Honest(w, history) && Tidy(w, history, s) && AllPlain(pending)
    ensures var (t, end) := TurnResult(s, w, pending, config);
            Tidy(w, history, t) && !(end.Ended? && end.ending.Failed?)
  {
    InjectTidy(w, history, s, pending);
    AskedAsIs(s, w, pending);
    AskedTurnTidy(w, config, history, Inject(s, pending).(turns := s.turns), AfterReply(s, w, pending).value);
  }

  lemma TurnKeeps(w: World, config: Config, history: seq<Message>, s: St, polls: seq<Poll>, pending: seq<Message>)
    requires Live(w, config, history, s, polls, pending) && (config.maxTurns.Some? ==> config.maxTurns.value >= 1)
    ensures var (t, end) := TurnResult(s, w, pending, config);
            && AfterTurn(w, config, history, t, polls, end) && t.turns == s.turns + 1
  {
    TurnKeepsBudgets(w, config, s, pending);
    TurnKeepsSchedule(w, config, s, TurnResult(s, w, pending, config).0, polls);
    TurnKeepsAccount(w, config, s, polls, pending);
    TurnReached(w, config, history, s, pending);
    if Honest(w, history) {
      TurnKeepsTidy(w, config, history, s, pending);
    }
  }

  // ---------- The run ----------

  class LoopRun {
    var context: seq<Message>
    var entries: seq<Entry>
    var requests: seq<seq<Message>>
    var turns: nat
    var used: nat
    var exceeded: bool
    var entered: nat
    var denials: nat

    function State(): St
      reads this
    {
      St(context, entries, requests, turns, Budget(used, exceeded), entered, denials)
    }

    constructor (history: seq<Message>)
      ensures State() == FRESH.(context := history)
    {
      context, entries, requests, turns, used, exceeded, entered, denials := history, [], [], 0, 0, false, 0, 0;
    }

    method StartTurn(pending: seq<Message>)
      modifies this
      ensures State() == Inject(old(State()), pending)
    {
      turns := turns + 1;
      for i := 0 to |pending|
        invariant State() == Inject(old(State()), pending[..i])
      {
        context, entries := context + [pending[i]], entries + [Injected(pending[i])];
        assert pending[..i + 1] == pending[..i] + [pending[i]];
        assert InjectedAll(pending[..i + 1]) == InjectedAll(pending[..i]) + [Injected(pending[i])];
      }
      assert pending[..|pending|] == pending;
    }

    /** One model request; the rejected flag is the preflight's verdict on the reply. */
    method StreamAssistant(w: World, turn: nat) returns (r: Result<Message>, rejected: bool)
      modifies this
      ensures r.Ok? == Stream(old(State()), w, turn).Ok?
      ensures r.Err? ==> State() == old(State()) && Stream(old(State()), w, turn) == Err(r.error)
      ensures r.Ok? ==> Stream(old(State()), w, turn) == Ok(State())
      ensures r.Ok? ==> context != [] && r.value == context[|context| - 1]
      ensures r.Ok? ==> requests != [] && rejected == Rejected(w, turn, requests[|requests| - 1])
    {
      rejected := false;
      var repaired := RepairUnresolved(context, REPAIR_TEXT);
      if repaired.Err? {
        return Err(repaired.error), false;
      }
      var history := repaired.value.0;
      var raw := RawReply(w, turn);
      var calls, refused := CheckBatch(RulesAt(w, turn), CallsOf(raw), PriorIds(RulesAt(w, turn), history));
      var reply := raw.(content := WithCalls(raw.content, calls));
      rejected := refused || w.refuses(turn);
      context, entries, requests := history + [reply], entries + [Replied(reply)], requests + [history];
      return Ok(reply), rejected;
    }

    method TryConsume(limit: nat) returns (admitted: bool, firstDenial: bool)
      modifies this
      ensures var a := TryConsumeRetry(old(State()).budget, limit);
              && State() == old(State()).(budget := a.budget)
              && admitted == a.admitted && firstDenial == a.firstDenial
    {
      if exceeded {
        return false, false;
      }
      if used >= limit {
        exceeded := true;
        return false, true;
      }
      used := used + 1;
      return true, false;
    }

    /** The attempts of the batch's handlers in the order they reach the admission check. */
    method ExecuteHandlers(order: seq<nat>, limit: Option<nat>)
      modifies this
      ensures var (s, a) := (old(State()), Attempts(old(State()).budget, order, {}, limit));
              State() == s.(budget := a.budget, entered := s.entered + a.entered, denials := s.denials + a.denials)
    {
      var started: set<nat> := {};
      ghost var (s, a) := (State(), Attempts(State().budget, order, {}, limit));
      assert order[0..] == order;
      for k := 0 to |order|
        invariant var rest := Attempts(State().budget, order[k..], started, limit);
                  && rest.budget == a.budget && entered + rest.entered == s.entered + a.entered
                  && denials + rest.denials == s.denials + a.denials
        invariant State() == s.(budget := State().budget, entered := entered, denials := denials)
      {
        assert order[k..][0] == order[k] && order[k..][1..] == order[k + 1..];
        if limit.None? || order[k] !in started {
          started := started + {order[k]};
          entered := entered + 1;
        } else {
          var admitted, firstDenial := TryConsume(limit.value);
          if admitted {
            entered := entered + 1;
          } else if firstDenial {
            denials := denials + 1;
          }
        }
      }
    }

    method AnswerAll(calls: seq<Call>, synthetic: bool, text: nat -> string) returns (results: seq<Message>)
      ensures results == ResultsFrom(calls, synthetic, text, 0)
    {
      results := [];
      assert calls[0..] == calls;
      for k := 0 to |calls|
        invariant results + ResultsFrom(calls[k..], synthetic, text, k) == ResultsFrom(calls, synthetic, text, 0)
      {
        assert calls[k..][0] == calls[k] && calls[k..][1..] == calls[k + 1..];
        var m := ToolResult(calls[k].id, calls[k].name, synthetic, text(k));
        Regroup(results, m, ResultsFrom(calls[k + 1..], synthetic, text, k + 1));
        results := results + [m];
      }
      assert results + [] == results;
    }

    method RunAdmitted(calls: seq<Call>, w: World, turn: nat, rejected: bool, limit: Option<nat>)
      returns (results: seq<Message>, more: bool, stop: bool)
      modifies this
      ensures var (s, b) := (old(State()), RunCharged(old(State()).budget, calls, w, turn, rejected, limit));
              && State() == s.(budget := b.budget, entered := s.entered + b.entered, denials := s.denials + b.denials)
              && results == b.results && more == b.more && stop == b.stop
    {
      if w.stopReason(turn) == "length" {
        results := AnswerAll(calls, true, Same("model_output_truncated"));
        more, stop := false, false;
      } else if rejected {
        results := AnswerAll(calls, true, Same("tool_call_batch_rejected"));
        more, stop := true, exceeded;
      } else {
        ExecuteHandlers(Within(w.attempts(turn), |calls|), limit);
        results := AnswerAll(calls, false, BodyAt(w, turn));
        more, stop := !(w.terminates(turn) || exceeded), exceeded;
      }
    }

    method RunCalls(calls: seq<Call>, w: World, turn: nat, rejected: bool, limit: Option<nat>)
      returns (results: seq<Message>, more: bool, stop: bool)
      modifies this
      ensures var (s, b) := (old(State()), RunBatch(old(State()).budget, calls, w, turn, rejected, limit));
              && State() == s.(budget := b.budget, entered := s.entered + b.entered, denials := s.denials + b.denials)
              && results == b.results && more == b.more && stop == b.stop
    {
      results, more, stop := [], false, false;
      if calls != [] {
        if limit.Some? && used + |calls| > limit.value {
          denials := denials + 1;
          results := AnswerAll(calls, true, Same("tool_call_budget_exceeded"));
          stop := true;
        } else {
          used := used + |calls|;
          results, more, stop := RunAdmitted(calls, w, turn, rejected, limit);
        }
      }
    }

    method RunTools(calls: seq<Call>, w: World, turn: nat, rejected: bool, limit: Option<nat>)
      returns (more: bool, stop: bool)
      modifies this
      ensures var b := RunBatch(old(State()).budget, calls, w, turn, rejected, limit);
              State() == WithBatch(old(State()), b) && more == b.more && stop == b.stop
    {
      var results;
      results, more, stop := RunCalls(calls, w, turn, rejected, limit);
      context, entries := context + results, entries + AnsweredAll(results);
    }
  }

  method OneTurn(run: LoopRun, w: World, pending: seq<Message>, config: Config) returns (end: TurnEnd)
    modifies run
    ensures (run.State(), end) == TurnResult(old(run.State()), w, pending, config)
  {
    var turn := run.turns;
    run.StartTurn(pending);
    var reply, rejected := run.StreamAssistant(w, turn);
    if reply.Err? {
      return Ended(Failed(reply.error));
    }
    if w.stopReason(turn) in {"error", "aborted"} {
      return Ended(ModelFailed);
    }
    var more, stop := run.RunTools(CallsOf(reply.value), w, turn, rejected, config.maxToolCalls);
    if w.stopReason(turn) == "length" {
      return Ended(Truncated);
    }
    return if stop then Ended(ToolBudget) else Next(more);
  }

  /** What every run guarantees, however it ends. */
  ghost predicate RunKept(w: World, config: Config, history: seq<Message>, horizon: nat, r: RunResult) {
    && StateKept(w, config, history, r.st, r.polls, r.pending) && r.drained == DrainedBy(w, r.polls)
    && EndingMeans(w, config, horizon, r) && (r.ending.Failed? ==> !Honest(w, history))
  }

  /** Every turn but the last led to the next one, and the last one to the ending that is
      reported: no two of these cases hold of one run. */
  ghost predicate EndingMeans(w: World, config: Config, horizon: nat, r: RunResult) {
    var (s, last) := (r.st, r.st.turns - 1);
    && (r.pending != [] ==> r.ending.Horizon?)
    && (r.ending !in {ToolBudget, Truncated} ==> s.denials == 0)
    && (|s.requests| == s.turns || r.ending.Failed?)
    && match r.ending
       case Horizon => s.turns == horizon && Scheduled(w, config, s, r.polls)
       case Idle =>
         var asks := Asking(w, s.requests);
         && last >= 0 && r.polls == Schedule(w, asks, s.turns) && GoesOn(w, config, asks, last)
         && Survives(w, config, last) && !Waiting(w, asks, last)
       case _ =>
         && last >= 0 && (|s.requests| == last || |s.requests| == s.turns) && ScheduledBefore(w, config, s, r.polls)
         && EndedBy(w, config, s, r.ending)
  }

  /** What the last turn says about an ending that comes right after it. */
  ghost predicate EndedBy(w: World, config: Config, s: St, ending: Ending)
    requires s.turns > 0
  {
    var last := s.turns - 1;
    match ending
    case Stopped => w.stopReason(last) !in {"error", "aborted", "length"} && w.stops(last)
    case TurnBudget =>
      w.stopReason(last) !in {"error", "aborted", "length"} && !w.stops(last) && config.maxTurns == Some(s.turns)
    case _ => TurnEndMeans(w, s, Ended(ending))
  }

  lemma PolledRunning(w: World, config: Config, history: seq<Message>, s: St, polls: seq<Poll>, p: Poll)
    requires Running(w, config, history, s, polls, [])
    ensures Running(w, config, history, s, polls + [p], Answer(w, polls, p))
  {
    PollSnoc(w, polls, p);
    NoneAdded(Injections(s.entries));
  }

  lemma StartsRunning(w: World, config: Config, history: seq<Message>)
    ensures Running(w, config, history, FRESH.(context := history), [], [])
  {
    assert history + Messages([]) == history;
    assert Turns(w, config, history, []) == FRESH.(context := history);
  }

  /** The loop's check of the turn budget before a turn never fires: the check after a turn
      comes first, so no drained message is lost here. */
  lemma TopCheckNeverFires(w: World, config: Config, history: seq<Message>, s: St, polls: seq<Poll>,
                           pending: seq<Message>)
    requires Live(w, config, history, s, polls, pending)
    ensures !(s.turns > 0 && config.maxTurns.Some? && s.turns >= config.maxTurns.value)
  {
  }

  /** After a turn and the steering poll that follows it: whether the run goes on is up to
      what the turn asks for and what the poll returned. */
  ghost predicate Undecided(w: World, config: Config, asks: seq<bool>, turns: nat, polls: seq<Poll>, more: bool,
                            pending: seq<Message>) {
    && 0 < turns == |asks| && GoesOn(w, config, asks, turns - 1) && Survives(w, config, turns - 1)
    && polls == Schedule(w, asks, turns - 1) + [Steering]
    && (more <==> asks[turns - 1]) && pending == w.steering(turns)
  }

  lemma WentOn(w: World, config: Config, asks: seq<bool>, turns: nat, polls: seq<Poll>, more: bool,
               pending: seq<Message>)
    requires Undecided(w, config, asks, turns, polls, more, pending) && (more || pending != [])
    ensures polls == Schedule(w, asks, turns) && GoesOn(w, config, asks, turns)
  {
    NoneAdded(polls);
  }

  /** A quiet turn: the follow-up queue decides. */
  lemma QuietDecides(w: World, config: Config, asks: seq<bool>, turns: nat, polls: seq<Poll>)
    requires Undecided(w, config, asks, turns, polls, false, [])
    ensures Quiet(w, asks, turns - 1) && polls + [FollowUp] == Schedule(w, asks, turns)
    ensures Answer(w, polls, FollowUp) != [] <==> Waiting(w, asks, turns - 1)
    ensures Answer(w, polls, FollowUp) != [] ==> GoesOn(w, config, asks, turns)
  {
    PollSnoc(w, Schedule(w, asks, turns - 1), Steering);
  }

  /** Why no steering poll follows a turn, if none does. */
  function Verdict(w: World, config: Config, s: St, end: TurnEnd): (r: TurnEnd)
    requires s.turns > 0
    ensures r.Next? ==> r == end
  {
    if end.Ended? then end
    else if w.stops(s.turns - 1) then Ended(Stopped)
    else if config.maxTurns.Some? && s.turns >= config.maxTurns.value then Ended(TurnBudget)
    else end
  }

  /** A turn that ends the run, or after which a hook or the turn limit does. */
  lemma EndsRun(w: World, config: Config, history: seq<Message>, s: St, polls: seq<Poll>, end: TurnEnd, horizon: nat)
    requires AfterTurn(w, config, history, s, polls, end) && Verdict(w, config, s, end).Ended?
    requires config.maxTurns.Some? ==> s.turns <= config.maxTurns.value
    ensures var ending := Verdict(w, config, s, end).ending;
            RunKept(w, config, history, horizon, RunResult(ending, s, polls, DrainedBy(w, polls), []))
  {
    EndingIs(w, config, s, polls, DrainedBy(w, polls), end, horizon);
  }

  lemma EndingIs(w: World, config: Config, s: St, polls: seq<Poll>, drained: seq<Message>, end: TurnEnd, horizon: nat)
    requires s.turns > 0 && (|s.requests| == s.turns - 1 || |s.requests| == s.turns)
    requires ScheduledBefore(w, config, s, polls) && TurnEndMeans(w, s, end)
    requires Verdict(w, config, s, end).Ended? && (config.maxTurns.Some? ==> s.turns <= config.maxTurns.value)
    ensures EndingMeans(w, config, horizon, RunResult(Verdict(w, config, s, end).ending, s, polls, drained, []))
  {
    EndedIs(w, config, s, end);
  }

  lemma EndedIs(w: World, config: Config, s: St, end: TurnEnd)
    requires s.turns > 0 && TurnEndMeans(w, s, end)
    requires Verdict(w, config, s, end).Ended? && (config.maxTurns.Some? ==> s.turns <= config.maxTurns.value)
    ensures var ending := Verdict(w, config, s, end).ending;
            && EndedBy(w, config, s, ending) && !ending.Horizon? && !ending.Idle?
            && (ending !in {ToolBudget, Truncated} ==> s.denials == 0) && (|s.requests| == s.turns || ending.Failed?)
  {
  }

  lemma RunsAfterTurn(w: World, config: Config, history: seq<Message>, s: St, polls: seq<Poll>, more: bool)
    requires AfterTurn(w, config, history, s, polls, Next(more))
    requires config.maxTurns.Some? ==> s.turns < config.maxTurns.value
    ensures Running(w, config, history, s, polls, [])
  {
  }

  /** After a turn that survives, the steering queue is polled. */
  lemma SurvivesTurn(w: World, config: Config, history: seq<Message>, s: St, polls: seq<Poll>, end: TurnEnd)
    requires AfterTurn(w, config, history, s, polls, end) && Verdict(w, config, s, end).Next?
    ensures Running(w, config, history, s, polls + [Steering], Answer(w, polls, Steering))
    ensures Undecided(w, config, Asking(w, s.requests), s.turns, polls + [Steering], end.more,
                      Answer(w, polls, Steering))
  {
    RunsAfterTurn(w, config, history, s, polls, end.more);
    PolledRunning(w, config, history, s, polls, Steering);
    AskedAfter(w, config, s, polls, end.more);
  }

  lemma AskedAfter(w: World, config: Config, s: St, polls: seq<Poll>, more: bool)
    requires 0 < s.turns == |s.requests| && ScheduledBefore(w, config, s, polls) && TurnEndMeans(w, s, Next(more))
    requires Verdict(w, config, s, Next(more)).Next?
    ensures Undecided(w, config, Asking(w, s.requests), s.turns, polls + [Steering], more, Answer(w, polls, Steering))
  {
    AskedNow(w, config, Asking(w, s.requests), s.turns, polls);
  }

  lemma AskedNow(w: World, config: Config, asks: seq<bool>, turns: nat, polls: seq<Poll>)
    requires 0 < turns == |asks| && polls == Schedule(w, asks, turns - 1)
    requires GoesOn(w, config, asks, turns - 1) && Survives(w, config, turns - 1)
    ensures Undecided(w, config, asks, turns, polls + [Steering], asks[turns - 1], Answer(w, polls, Steering))
  {
    ScheduleCounts(w, asks, turns - 1);
  }

  /** A round ends the run for a reason the last turn shows, or polls the steering queue
      once and leaves open whether the run goes on. */
  lemma RoundKeeps(w: World, config: Config, history: seq<Message>, s: St, polls: seq<Poll>, pending: seq<Message>,
                   horizon: nat)
    requires Live(w, config, history, s, polls, pending) && (config.maxTurns.Some? ==> config.maxTurns.value >= 1)
    ensures var (t, end) := TurnResult(s, w, pending, config);
            && t.turns == s.turns + 1
            && match Verdict(w, config, t, end)
               case Ended(ending) =>
                 RunKept(w, config, history, horizon, RunResult(ending, t, polls, DrainedBy(w, polls), []))
               case Next(more) =>
                 var answer := Answer(w, polls, Steering);
                 && Running(w, config, history, t, polls + [Steering], answer)
                 && Undecided(w, config, Asking(w, t.requests), t.turns, polls + [Steering], more, answer)
  {
    TurnKeeps(w, config, history, s, polls, pending);
    var (t, end) := TurnResult(s, w, pending, config);
    if Verdict(w, config, t, end).Ended? {
      EndsRun(w, config, history, t, polls, end, horizon);
    } else {
      SurvivesTurn(w, config, history, t, polls, end);
    }
  }

  /** One round of the inner loop: a turn, and unless the run is over the next steering
      messages. */
  method Round(run: LoopRun, w: World, config: Config, polls: seq<Poll>, drained: seq<Message>, pending: seq<Message>)
    returns (end: TurnEnd, polls': seq<Poll>, drained': seq<Message>, pending': seq<Message>)
    modifies run
    ensures var (s, e) := TurnResult(old(run.State()), w, pending, config);
            && run.State() == s && run.turns == old(run.turns) + 1
            && end == Verdict(w, config, s, e)
            && if end.Ended? then polls' == polls && drained' == drained && pending' == []
               else polls' == polls + [Steering] && pending' == Answer(w, polls, Steering)
                    && drained' == drained + pending'
  {
    end := OneTurn(run, w, pending, config);
    polls', drained', pending' := polls, drained, [];
    if end.Ended? {
      return;
    }
    if w.stops(run.turns - 1) {
      end := Ended(Stopped);
    } else if config.maxTurns.Some? && run.turns >= config.maxTurns.value {
      end := Ended(TurnBudget);
    } else {
      pending' := w.steering(Count(polls, Steering));
      polls', drained' := polls + [Steering], drained + pending';
    }
  }

  /** The inner loop: it goes on exactly while tools or steering messages ask for another
      turn. */
  method InnerLoop(run: LoopRun, w: World, config: Config, ghost history: seq<Message>, horizon: nat,
                   polls0: seq<Poll>, drained0: seq<Message>, pending0: seq<Message>)
    returns (end: TurnEnd, polls: seq<Poll>, drained: seq<Message>, pending: seq<Message>)
    requires Live(w, config, history, run.State(), polls0, pending0) && drained0 == DrainedBy(w, polls0)
    requires config.maxTurns.Some? ==> config.maxTurns.value >= 1
    requires run.turns <= horizon
    modifies run
    ensures run.turns <= horizon
    ensures end.Ended? ==>
      RunKept(w, config, history, horizon, RunResult(end.ending, run.State(), polls, drained, pending))
    ensures end.Next? ==>
      && Running(w, config, history, run.State(), polls, []) && drained == DrainedBy(w, polls)
      && Undecided(w, config, Asking(w, run.requests), run.turns, polls, false, []) && old(run.turns) < run.turns
  {
    var more := true;
    polls, drained, pending := polls0, drained0, pending0;
    while more || pending != []
      invariant Running(w, config, history, run.State(), polls, pending) && drained == DrainedBy(w, polls)
      invariant old(run.turns) <= run.turns <= horizon && (more || old(run.turns) < run.turns)
      invariant if more || pending != [] then Scheduled(w, config, run.State(), polls)
                else Undecided(w, config, Asking(w, run.requests), run.turns, polls, false, [])
      decreases horizon - run.turns
    {
      if run.turns == horizon {
        return Ended(Horizon), polls, drained, pending;
      }
      TopCheckNeverFires(w, config, history, run.State(), polls, pending);
      if run.turns > 0 && config.maxTurns.Some? && run.turns >= config.maxTurns.value {
        assert false;
      }
      RoundKeeps(w, config, history, run.State(), polls, pending, horizon);
      PollSnoc(w, polls, Steering);
      end, polls, drained, pending := Round(run, w, config, polls, drained, pending);
      if end.Ended? {
        return;
      }
      more := end.more;
      if more || pending != [] {
        WentOn(w, config, Asking(w, run.requests), run.turns, polls, more, pending);
      }
    }
    end := Next(false);
  }

  lemma EndsIdle(w: World, config: Config, history: seq<Message>, s: St, polls: seq<Poll>, horizon: nat,
                 drained: seq<Message>)
    requires Running(w, config, history, s, polls, [])
    requires Undecided(w, config, Asking(w, s.requests), s.turns, polls, false, [])
    requires Answer(w, polls, FollowUp) == [] && drained == DrainedBy(w, polls + [FollowUp])
    ensures RunKept(w, config, history, horizon, RunResult(Idle, s, polls + [FollowUp], drained, []))
  {
    PolledRunning(w, config, history, s, polls, FollowUp);
    IdleMeans(w, config, s, polls, horizon, drained);
  }

  lemma IdleMeans(w: World, config: Config, s: St, polls: seq<Poll>, horizon: nat, drained: seq<Message>)
    requires Undecided(w, config, Asking(w, s.requests), s.turns, polls, false, [])
    requires Answer(w, polls, FollowUp) == [] && s.denials == 0
    ensures EndingMeans(w, config, horizon, RunResult(Idle, s, polls + [FollowUp], drained, []))
  {
    QuietDecides(w, config, Asking(w, s.requests), s.turns, polls);
  }

  /** The outer loop: follow-up messages keep an agent going that had nothing left to do. */
  method RunAgentLoop(w: World, config: Config, history: seq<Message>, horizon: nat) returns (r: RunResult)
    requires config.maxTurns.Some? ==> config.maxTurns.value >= 1
    ensures RunKept(w, config, history, horizon, r)
  {
    var run := new LoopRun(history);
    StartsRunning(w, config, history);
    PolledRunning(w, config, history, run.State(), [], Steering);
    PollSnoc(w, [], Steering);
    var pending := w.steering(0);
    var polls, drained := [Steering], pending;
    NoneAdded(polls);
    NoneAdded(pending);
    while true
      invariant fresh(run) && Live(w, config, history, run.State(), polls, pending) && drained == DrainedBy(w, polls)
      invariant run.turns <= horizon
      decreases horizon - run.turns
    {
      var end;
      end, polls, drained, pending := InnerLoop(run, w, config, history, horizon, polls, drained, pending);
      if end.Ended? {
        return RunResult(end.ending, run.State(), polls, drained, pending);
      }
      PollSnoc(w, polls, FollowUp);
      PolledRunning(w, config, history, run.State(), polls, FollowUp);
      QuietDecides(w, config, Asking(w, run.requests), run.turns, polls);
      pending := w.followUp(Count(polls, FollowUp));
      if pending == [] {
        EndsIdle(w, config, history, run.State(), polls, horizon, drained + pending);
        return RunResult(Idle, run.State(), polls + [FollowUp], drained + pending, pending);
      }
      polls, drained := polls + [FollowUp], drained + pending;
    }
  }
}
