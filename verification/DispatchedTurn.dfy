/**
 The dispatcher answers what the loop asked: the ids of a preflighted reply pass the
 dispatcher's own check unchanged, so its results are one for each call of the reply.
 */
module DispatchedTurn {
  import opened Transcript
  import opened CallIds
  import opened LoopClosure
  import D = Dispatch

  /** The result messages of a batch, in the order of its outcomes. */
  function ResultMessages(outcomes: seq<D.Outcome>, isError: nat -> bool, text: nat -> string): seq<Message> {
    seq(|outcomes|, k requires 0 <= k < |outcomes| =>
      ToolResult(outcomes[k].call.id, outcomes[k].call.name, isError(k), text(k)))
  }

  /** The outcomes are for exactly these calls, in this order. */
  ghost predicate ForCalls(outcomes: seq<D.Outcome>, calls: seq<Call>) {
    |outcomes| == |calls| && forall k :: 0 <= k < |calls| ==> outcomes[k].call == calls[k]
  }

  lemma MessagesOneEach(outcomes: seq<D.Outcome>, calls: seq<Call>, isError: nat -> bool, text: nat -> string)
    requires ForCalls(outcomes, calls)
    ensures OneEach(ResultMessages(outcomes, isError, text), calls)
  {
  }

  /** The calls of a preflighted reply pass the dispatcher's check as they are. */
  lemma ReplyPasses(g: Rules, history: seq<Message>, m: Message, again: nat -> string)
    requires m.Assistant? && Usable(g, PriorIds(g, history) + TrimmedIds(g, CallsOf(m)))
    ensures var calls := CallsOf(Preflight(g, history, m));
            Check(g.(invent := again), calls, PriorIds(g, history)) == Checked(calls, false)
  {
    PreflightCalls(g, history, m);
    SecondCheckRewritesNothing(g, CallsOf(m), PriorIds(g, history), again);
  }

  /** Dispatching the calls of a preflighted reply, with whatever ids the dispatcher would
      invent: one outcome for each call of the reply in model order, as planned; and the
      result messages close the turn. */
  method DispatchReply(g: Rules, history: seq<Message>, m: Message, again: nat -> string, t: D.Tools, sequential: bool,
                       isError: nat -> bool, text: nat -> string)
    returns (outcomes: seq<D.Outcome>, log: seq<D.Step>, results: seq<Message>)
    requires m.Assistant? && Usable(g, PriorIds(g, history) + TrimmedIds(g, CallsOf(m)))
    ensures var (reply, plan) := (Preflight(g, history, m), D.Plan(|CallsOf(m)|, t, sequential));
            && ForCalls(outcomes, CallsOf(reply)) && OneEach(results, CallsOf(reply))
            && (plan.Refuse? ==>
                 log == [] && forall k :: 0 <= k < |outcomes| ==> outcomes[k].kind == D.BatchRejected)
            && (plan.Run? ==>
                 log == plan.log
                 && forall k: nat :: k < |outcomes| ==> outcomes[k].kind == D.KindOf(k, t, plan.ran))
            && (Closed(history) && NamesGiven(CallsOf(m)) ==> Closed(history + [reply] + results))
  {
    var reply := Preflight(g, history, m);
    var calls := CallsOf(reply);
    PreflightCalls(g, history, m);
    ReplyPasses(g, history, m, again);
    outcomes, log := D.DispatchMany(calls, g.(invent := again), PriorIds(g, history), t, sequential);
    results := ResultMessages(outcomes, isError, text);
    MessagesOneEach(outcomes, calls, isError, text);
    if Closed(history) && NamesGiven(CallsOf(m)) {
      PreflightAccepted(g, history, m);
      TurnCloses(history, reply, results);
    }
  }
}
