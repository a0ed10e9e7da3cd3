/**
 Where the records of a child inbox come from, and that edits and results do arrive.
 */
module ChildRuns {
  import opened Basics
  import opened ChildInbox
  import opened InboxEdits
  import opened ChildControllers

  // ---------- Every record is the edit of the one before ----------

  /** Somebody asked for this edit in one of the steps: a caller, or a worker that reports
      the outcome of a message. */
  ghost predicate Submitted(steps: seq<Step>, op: Op) {
    exists j :: 0 <= j < |steps| &&
      if op.Finish? then steps[j].Report? && steps[j].outcome == op.outcome else steps[j].Read? && steps[j].op == op
  }

  /** The record an append starts from; the first one sets the deadline itself. */
  function Before(log: seq<Inbox>, i: nat): Inbox
    requires i < |log|
  {
    if i == 0 then Inbox(log[0].deadline, []) else log[i - 1]
  }

  ghost predicate EditOf(c: Config, steps: seq<Step>, log: seq<Inbox>, i: nat)
    requires i < |log|
  {
    exists op :: Submitted(steps, op) && Change(c, Before(log, i), op) == Ok(log[i])
  }

  /** What a controller is about to append was asked for. */
  ghost predicate Asked(steps: seq<Step>, x: Controller) {
    match x
    case Editing(op, _, _) => Submitted(steps, op)
    case Finishing(_, _, message, outcome, _, _) => Submitted(steps, Finish(message, outcome))
    case _ => true
  }

  ghost predicate Traced(c: Config, steps: seq<Step>, s: Sys) {
    && (forall i: nat :: i < |s.log| ==> EditOf(c, steps, s.log, i))
    && forall k :: k in s.controllers ==> Asked(steps, s.controllers[k])
  }

  lemma SubmittedLater(steps: seq<Step>, step: Step, op: Op)
    requires Submitted(steps, op)
    ensures Submitted(steps + [step], op)
  {
    var all := steps + [step];
    var j :| 0 <= j < |steps| &&
      if op.Finish? then steps[j].Report? && steps[j].outcome == op.outcome else steps[j].Read? && steps[j].op == op;
    assert all[j] == steps[j];
  }

  lemma AskedLater(steps: seq<Step>, step: Step, x: Controller)
    requires Asked(steps, x)
    ensures Asked(steps + [step], x)
  {
    if x.Editing? { SubmittedLater(steps, step, x.op); }
    if x.Finishing? { SubmittedLater(steps, step, Finish(x.message, x.outcome)); }
  }

  lemma EditOfLater(c: Config, steps: seq<Step>, step: Step, log: seq<Inbox>, grown: seq<Inbox>, i: nat)
    requires i < |log| && EditOf(c, steps, log, i) && log <= grown
    ensures EditOf(c, steps + [step], grown, i)
  {
    var op :| Submitted(steps, op) && Change(c, Before(log, i), op) == Ok(log[i]);
    SubmittedLater(steps, step, op);
    assert Before(grown, i) == Before(log, i) && grown[i] == log[i];
  }

  /** The controllers of a step that appends nothing. */
  lemma AskedNext(c: Config, steps: seq<Step>, s: Sys, step: Step)
    requires Traced(c, steps, s)
    ensures forall k :: k in Apply(c, s, step).controllers ==> Asked(steps + [step], Apply(c, s, step).controllers[k])
  {
    var t := Apply(c, s, step);
    assert (steps + [step])[|steps|] == step;
    forall k | k in t.controllers ensures Asked(steps + [step], t.controllers[k]) {
      if k in s.controllers && s.controllers[k] == t.controllers[k] {
        AskedLater(steps, step, s.controllers[k]);
      }
    }
  }

  /** Only what a controller holds for the latest record is ever appended. */
  lemma AppendsProposal(c: Config, s: Sys, step: Step)
    requires Apply(c, s, step).log != s.log
    ensures (step.Append? || step.AppendResult?) && step.k in s.controllers
    ensures var x := s.controllers[step.k];
            (x.Editing? || x.Finishing?) && x.base == |s.log| && Apply(c, s, step).log == s.log + [x.proposal]
  {}

  /** What a step appends, if it appends anything. */
  lemma AppendsAsked(c: Config, steps: seq<Step>, s: Sys, step: Step)
    requires Inv(c, s) && Traced(c, steps, s) && Apply(c, s, step).log != s.log
    ensures var log := Apply(c, s, step).log;
            && |log| == |s.log| + 1 && s.log <= log && EditOf(c, steps + [step], log, |s.log|)
  {
    AppendsProposal(c, s, step);
    var x := s.controllers[step.k];
    var (log, op) := (Apply(c, s, step).log, if x.Editing? then x.op else Finish(x.message, x.outcome));
    assert ControllerOk(c, s, x) && Asked(steps, x);
    SubmittedLater(steps, step, op);
    assert Change(c, Before(log, |s.log|), op) == Ok(log[|s.log|]);
  }

  lemma AppendedTraced(c: Config, steps: seq<Step>, s: Sys, step: Step, log: seq<Inbox>)
    requires Traced(c, steps, s) && s.log <= log && |log| <= |s.log| + 1
    requires |log| == |s.log| + 1 ==> EditOf(c, steps + [step], log, |s.log|)
    ensures forall i: nat :: i < |log| ==> EditOf(c, steps + [step], log, i)
  {
    forall i: nat | i < |log| ensures EditOf(c, steps + [step], log, i) {
      if i < |s.log| {
        EditOfLater(c, steps, step, s.log, log, i);
      }
    }
  }

  lemma StepTraced(c: Config, steps: seq<Step>, s: Sys, step: Step)
    requires Inv(c, s) && Traced(c, steps, s)
    ensures Traced(c, steps + [step], Apply(c, s, step))
  {
    var log := Apply(c, s, step).log;
    AskedNext(c, steps, s, step);
    if log != s.log {
      AppendsAsked(c, steps, s, step);
    }
    AppendedTraced(c, steps, s, step, log);
  }

  /** Every record of the log is the edit of the record right before it by one of the
      operations that were asked for: nothing else gets in, and nothing is lost between. */
  lemma {:induction false} RecordsTraced(c: Config, steps: seq<Step>)
    ensures Traced(c, steps, After(c, steps))
  {
    if steps != [] {
      var before := steps[..|steps| - 1];
      RecordsTraced(c, before);
      InvOverRuns(c, before);
      StepTraced(c, before, After(c, before), steps[|steps| - 1]);
      assert before + [steps[|steps| - 1]] == steps;
    }
  }

  ghost predicate Reported(steps: seq<Step>, o: Outcome) {
    exists j :: 0 <= j < |steps| && steps[j].Report? && steps[j].outcome == o
  }

  ghost predicate ResultsReported(steps: seq<Step>, items: seq<Item>) {
    forall i :: 0 <= i < |items| && items[i].result.Some? ==>
      Reported(steps, items[i].result.value) && items[i].status == items[i].result.value.status
  }

  lemma JoinKeepsReported(c: Config, steps: seq<Step>, s: Inbox, op: Op)
    requires ResultsReported(steps, s.items) && op.Enqueue? && Admit(c, s, op).Ok?
    ensures ResultsReported(steps, Admit(c, s, op).value.items)
  {}

  lemma EditKeepsReported(steps: seq<Step>, before: seq<Item>, after: seq<Item>, op: Op)
    requires ResultsReported(steps, before) && Submitted(steps, op) && |before| == |after|
    requires forall i :: 0 <= i < |before| ==> after[i] == Edited(before[i], op)
    ensures ResultsReported(steps, after)
  {}

  lemma ChangeKeepsReported(c: Config, steps: seq<Step>, s: Inbox, op: Op)
    requires Valid(c, s) && ResultsReported(steps, s.items) && Submitted(steps, op) && Change(c, s, op).Ok?
    ensures ResultsReported(steps, Change(c, s, op).value.items)
  {
    if op.Enqueue? {
      JoinKeepsReported(c, steps, s, op);
    } else {
      EditMeans(c, s, op);
      EditKeepsReported(steps, s.items, Change(c, s, op).value.items, op);
    }
  }

  /** The result of a message is an outcome that a worker reported, with its text and its
      status, in every record of every run. */
  lemma {:induction false} ResultsAreReported(c: Config, steps: seq<Step>, i: nat)
    requires i < |After(c, steps).log|
    ensures ResultsReported(steps, After(c, steps).log[i].items)
  {
    var log := After(c, steps).log;
    RecordsTraced(c, steps);
    InvOverRuns(c, steps);
    assert EditOf(c, steps, log, i);
    var op :| Submitted(steps, op) && Change(c, Before(log, i), op) == Ok(log[i]);
    EmptyValid(c, log[0].deadline);
    if i > 0 {
      ResultsAreReported(c, steps, i - 1);
    }
    ChangeKeepsReported(c, steps, Before(log, i), op);
  }

  // ---------- Edits and results arrive ----------

  /** An edit that meets no other append is appended, or refused for the reason the record
      gives, in which case nothing changes. */
  lemma EditLands(c: Config, s: Sys, k: nat, op: Op, deadline: real)
    requires k !in s.controllers && !op.Finish?
    ensures var r := Change(c, Current(s.log, deadline), op);
            var t := Apply(c, Apply(c, s, Read(k, op, deadline)), Append(k));
            t == if r.Ok? then s.(log := s.log + [r.value]) else s
  {
    var read := Apply(c, s, Read(k, op, deadline));
    if Change(c, Current(s.log, deadline), op).Ok? {
      assert read.controllers - {k} == s.controllers;
    }
  }

  /** The record with an outcome for one message. */
  function Answered(s: Inbox, i: nat, o: Outcome): Inbox
    requires i < |s.items|
  {
    s.(items := s.items[i := s.items[i].(result := Some(o), status := o.status, acknowledged := false)])
  }

  /** The oldest open message of a child in the latest record, if there is one. */
  predicate Next(s: Sys, child: nat, i: nat) {
    s.log != [] && i == FirstOpen(s.log[|s.log| - 1].items, child) && i < |s.log[|s.log| - 1].items|
  }

  lemma FinishIs(c: Config, s: Inbox, i: nat, o: Outcome)
    requires DistinctMessages(s.items) && i < |s.items| && !Terminal(s.items[i].status)
    ensures Change(c, s, Finish(s.items[i].message, o)) == Ok(Answered(s, i, o))
  {
    FoundAt(s.items, i);
  }

  lemma PickedLands(c: Config, s: Sys, k: nat, i: nat, o: Outcome)
    requires k in s.controllers && s.controllers[k].Picked? && Next(s, s.controllers[k].child, i)
    requires Claims(s, s.controllers[k].child, s.controllers[k].token)
    requires var items := s.log[|s.log| - 1].items;
             DistinctMessages(items) && items[i].message == s.controllers[k].message
    ensures var t := Apply(c, Apply(c, s, Report(k, o)), AppendResult(k));
            t.log == s.log + [Answered(s.log[|s.log| - 1], i, o)]
  {
    FinishIs(c, s.log[|s.log| - 1], i, o);
  }

  lemma PicksNext(c: Config, s: Sys, k: nat, child: nat, i: nat)
    requires k !in s.controllers && child !in s.claims && Next(s, child, i)
    ensures var t := Apply(c, Apply(c, s, Claim(k, child)), Pick(k));
            && t.log == s.log && k in t.controllers && Claims(t, child, s.next)
            && t.controllers[k] == Picked(child, s.next, s.log[|s.log| - 1].items[i].message)
  {}

  /** A controller alone with a child that nobody has claimed finishes its oldest open
      message: the next record carries the outcome it reports, and differs in nothing else. */
  lemma ResultLands(c: Config, s: Sys, k: nat, child: nat, i: nat, o: Outcome)
    requires Inv(c, s) && k !in s.controllers && child !in s.claims && Next(s, child, i)
    ensures var picked := Apply(c, Apply(c, s, Claim(k, child)), Pick(k));
            var t := Apply(c, Apply(c, picked, Report(k, o)), AppendResult(k));
            t.log == s.log + [Answered(s.log[|s.log| - 1], i, o)]
  {
    PicksNext(c, s, k, child, i);
    PickedLands(c, Apply(c, Apply(c, s, Claim(k, child)), Pick(k)), k, i, o);
  }

  lemma FinishingNext(c: Config, s: Sys, k: nat) returns (i: nat)
    requires Inv(c, s) && k in s.controllers && s.controllers[k].Finishing?
    requires Claims(s, s.controllers[k].child, s.controllers[k].token)
    ensures Next(s, s.controllers[k].child, i)
    ensures var items := s.log[|s.log| - 1].items;
            DistinctMessages(items) && items[i].message == s.controllers[k].message
  {
    assert ControllerOk(c, s, s.controllers[k]);
    i := FirstOpen(s.log[|s.log| - 1].items, s.controllers[k].child);
  }

  lemma RetriesAsPicked(c: Config, s: Sys, again: Sys, k: nat)
    requires k in s.controllers && s.controllers[k].Finishing? && s.controllers[k].base != |s.log|
    requires Claims(s, s.controllers[k].child, s.controllers[k].token) && again == Apply(c, s, AppendResult(k))
    ensures again.log == s.log && again.claims == s.claims && k in again.controllers
    ensures var x := s.controllers[k]; again.controllers[k] == Picked(x.child, x.token, x.message)
  {}

  /** A result that met a newer record lands with the next report, while the claim is valid. */
  lemma RetryLands(c: Config, s: Sys, again: Sys, k: nat, o: Outcome) returns (i: nat)
    requires Inv(c, s) && k in s.controllers && s.controllers[k].Finishing? && s.controllers[k].base != |s.log|
    requires Claims(s, s.controllers[k].child, s.controllers[k].token) && again == Apply(c, s, AppendResult(k))
    ensures Next(s, s.controllers[k].child, i)
    ensures Apply(c, Apply(c, again, Report(k, o)), AppendResult(k)).log
            == s.log + [Answered(s.log[|s.log| - 1], i, o)]
  {
    i := FinishingNext(c, s, k);
    RetriesAsPicked(c, s, again, k);
    PickedLands(c, again, k, i, o);
  }
}
