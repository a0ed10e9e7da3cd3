/**
 Why a task of a plan ended the way it did, told by the steps of the run and the published
 results of its dependencies.
 */
module TaskOutcomes {
  import opened Basics
  import opened PlanGraph
  import opened Orchestrator

  ghost predicate Happened(steps: seq<Step>, step: Step) {
    step in steps
  }

  ghost predicate DependenciesKnown(p: Plan, s: St, t: nat) {
    t in p && forall d :: d in p[t] ==> d in s.results
  }

  /** What the dependencies and the worker make of a task: cancelled after a cancelled
      dependency, skipped after any other that did not succeed, and otherwise what the
      worker of the task came to. */
  ghost predicate Due(p: Plan, steps: seq<Step>, s: St, t: nat, status: Status)
    requires DependenciesKnown(p, s, t)
  {
    if exists d :: d in p[t] && s.results[d] == Cancelled then status == Cancelled
    else if exists d :: d in p[t] && s.results[d] != Succeeded then status == Skipped
    else Happened(steps, Work(t, status))
  }

  /** A task that a stopped run cancelled. */
  predicate CutShort(s: St, status: Status) {
    s.stopping.Some? && status == Cancelled
  }

  /** The record of a task is explained by the run so far. */
  ghost predicate Explained(p: Plan, steps: seq<Step>, s: St, t: nat)
    requires t in s.phase
  {
    && (s.phase[t].Running? ==> DependenciesDone(p, s.results, t))
    && (s.phase[t].Recording? ==>
          || CutShort(s, s.phase[t].result)
          || (DependenciesKnown(p, s, t) && Due(p, steps, s, t, s.phase[t].result)))
    && (s.phase[t].Over? ==>
          && t in s.results
          && (if t in s.errors then s.results[t] == TaskFailed && Happened(steps, StoreFails(t))
              else CutShort(s, s.results[t])
                   || (DependenciesKnown(p, s, t) && Due(p, steps, s, t, s.results[t]))))
    && (Happened(steps, StoreFails(t)) ==> t in s.errors)
    && (t in s.errors ==> s.phase[t].Over?)
    && (s.phase[t].Waiting? || s.phase[t].Running? ==> forall status :: !Happened(steps, Work(t, status)))
  }

  ghost predicate AllExplained(p: Plan, steps: seq<Step>, s: St) {
    forall t :: t in s.phase ==> Explained(p, steps, s, t)
  }

  lemma DueLater(p: Plan, steps: seq<Step>, more: seq<Step>, s: St, u: St, t: nat, status: Status)
    requires DependenciesKnown(p, s, t) && Due(p, steps, s, t, status)
    requires Extends(s.results, u.results) && forall step :: step in steps ==> step in more
    ensures DependenciesKnown(p, u, t) && Due(p, more, u, t, status)
  {
    forall d | d in p[t] ensures d in u.results && u.results[d] == s.results[d] {}
  }

  /** The tasks a step does not concern. */
  lemma OthersExplained(p: Plan, steps: seq<Step>, step: Step, s: St, u: St, t: nat)
    requires t in s.phase && Explained(p, steps, s, t) && t in u.phase && u.phase[t] == s.phase[t]
    requires Extends(s.results, u.results) && (t in u.errors <==> t in s.errors)
    requires (s.stopping.Some? ==> u.stopping.Some?) && (step.Stop? || step.t != t)
    ensures Explained(p, steps + [step], u, t)
  {
    var all := steps + [step];
    assert forall x :: x in all <==> x in steps || x == step;
    if DependenciesKnown(p, s, t) {
      if s.phase[t].Recording? && Due(p, steps, s, t, s.phase[t].result) {
        DueLater(p, steps, all, s, u, t, s.phase[t].result);
      }
      if s.phase[t].Over? && Due(p, steps, s, t, s.results[t]) {
        DueLater(p, steps, all, s, u, t, s.results[t]);
      }
    }
  }

  lemma DecidedExplained(p: Plan, steps: seq<Step>, s: St, t: nat)
    requires Inv(p, s) && Enabled(p, s, Decide(t)) && Explained(p, steps, s, t)
    ensures Explained(p, steps + [Decide(t)], Apply(p, s, Decide(t)), t)
  {
    assert forall x :: x in steps + [Decide(t)] <==> x in steps || x == Decide(t);
    var u := Apply(p, s, Decide(t));
    VerdictIs(p, s, t);
    assert DependenciesKnown(p, u, t) && u.results == s.results;
  }

  lemma WorkedExplained(p: Plan, steps: seq<Step>, s: St, t: nat, status: Status)
    requires Inv(p, s) && Enabled(p, s, Work(t, status)) && Explained(p, steps, s, t)
    ensures Explained(p, steps + [Work(t, status)], Apply(p, s, Work(t, status)), t)
  {
    var step := Work(t, status);
    assert forall x :: x in steps + [step] <==> x in steps || x == step;
    assert DependenciesKnown(p, Apply(p, s, step), t);
  }

  lemma PublishedExplained(p: Plan, steps: seq<Step>, s: St, step: Step)
    requires Inv(p, s) && Enabled(p, s, step) && (step.Acknowledge? || step.StoreFails?)
    requires Explained(p, steps, s, step.t)
    ensures Explained(p, steps + [step], Apply(p, s, step), step.t)
  {
    var (t, all, u) := (step.t, steps + [step], Apply(p, s, step));
    assert forall x :: x in all <==> x in steps || x == step;
    assert t !in s.results && t !in s.errors;
    if DependenciesKnown(p, s, t) && Due(p, steps, s, t, s.phase[t].result) {
      DueLater(p, steps, all, s, u, t, s.phase[t].result);
    }
  }

  lemma InterruptedExplained(p: Plan, steps: seq<Step>, s: St, t: nat, written: bool)
    requires Inv(p, s) && Enabled(p, s, Interrupt(t, written)) && Explained(p, steps, s, t)
    ensures Explained(p, steps + [Interrupt(t, written)], Apply(p, s, Interrupt(t, written)), t)
  {
    var step := Interrupt(t, written);
    assert forall x :: x in steps + [step] <==> x in steps || x == step;
  }

  lemma OwnExplained(p: Plan, steps: seq<Step>, s: St, step: Step)
    requires Inv(p, s) && Enabled(p, s, step) && !step.Stop? && step.t in s.phase && Explained(p, steps, s, step.t)
    ensures Explained(p, steps + [step], Apply(p, s, step), step.t)
  {
    match step
    case Decide(t) => DecidedExplained(p, steps, s, t);
    case Work(t, status) => WorkedExplained(p, steps, s, t, status);
    case Acknowledge(_) => PublishedExplained(p, steps, s, step);
    case StoreFails(_) => PublishedExplained(p, steps, s, step);
    case Interrupt(t, written) => InterruptedExplained(p, steps, s, t, written);
  }

  lemma StepFrame(p: Plan, s: St, step: Step, t: nat)
    requires Inv(p, s) && Enabled(p, s, step) && t in s.phase && (step.Stop? || step.t != t)
    ensures var u := Apply(p, s, step);
            && t in u.phase && u.phase[t] == s.phase[t] && (t in u.errors <==> t in s.errors)
            && (s.stopping.Some? ==> u.stopping.Some?) && u.phase.Keys == s.phase.Keys
  {}

  lemma StepExplained(p: Plan, steps: seq<Step>, s: St, step: Step)
    requires Inv(p, s) && Enabled(p, s, step) && AllExplained(p, steps, s)
    ensures AllExplained(p, steps + [step], Apply(p, s, step))
  {
    var u := Apply(p, s, step);
    StepKeeps(p, s, step);
    forall t | t in u.phase ensures Explained(p, steps + [step], u, t) {
      if step.Stop? || step.t != t {
        StepFrame(p, s, step, t);
        OthersExplained(p, steps, step, s, u, t);
      } else {
        OwnExplained(p, steps, s, step);
      }
    }
  }

  lemma {:induction false} RunsExplained(p: Plan, steps: seq<Step>)
    requires After(p, steps).Some?
    ensures AllExplained(p, steps, After(p, steps).value)
  {
    if steps != [] {
      var before := steps[..|steps| - 1];
      RunsExplained(p, before);
      InvOverRuns(p, before);
      StepExplained(p, before, After(p, before).value, steps[|steps| - 1]);
      assert before + [steps[|steps| - 1]] == steps;
    }
  }

  /** Why a task ended as it did, in every run. A task whose result could not be stored has
      failed. Unless a stopped run cut it short, its status is cancelled after a cancelled
      dependency, skipped after another one that did not succeed, and otherwise exactly
      what its worker came to. */
  lemma OutcomeExplained(p: Plan, steps: seq<Step>, t: nat)
    requires After(p, steps).Some? && t in After(p, steps).value.results
    ensures var s := After(p, steps).value;
            && (t in s.errors <==> StoreFails(t) in steps)
            && if t in s.errors then s.results[t] == TaskFailed
               else if s.stopping.Some? && s.results[t] == Cancelled then true
               else
                 && t in p && (forall d :: d in p[t] ==> d in s.results)
                 && if exists d :: d in p[t] && s.results[d] == Cancelled then s.results[t] == Cancelled
                    else if exists d :: d in p[t] && s.results[d] != Succeeded then s.results[t] == Skipped
                    else Work(t, s.results[t]) in steps
  {
    InvOverRuns(p, steps);
    RunsExplained(p, steps);
    var s := After(p, steps).value;
    assert t in s.phase && Explained(p, steps, s, t);
    assert Happened(steps, StoreFails(t)) <==> StoreFails(t) in steps;
  }

  ghost predicate Logged(s: St, t: nat) {
    exists i :: 0 <= i < |s.started| && s.started[i].0 == t
  }

  /** The log of started workers misses none: every task that works, or has worked, is in it,
      and so is no other. */
  lemma {:induction false} StartsLogged(p: Plan, steps: seq<Step>, t: nat)
    requires After(p, steps).Some?
    ensures var s := After(p, steps).value;
            && (t in s.phase && s.phase[t].Running? ==> Logged(s, t))
            && (forall status :: Work(t, status) in steps ==> Logged(s, t))
            && (Logged(s, t) ==> Decide(t) in steps)
  {
    if steps != [] {
      var (before, last) := (steps[..|steps| - 1], steps[|steps| - 1]);
      StartsLogged(p, before, t);
      var (s, u) := (After(p, before).value, After(p, steps).value);
      assert steps == before + [last];
      if Logged(s, t) {
        var i :| 0 <= i < |s.started| && s.started[i].0 == t;
        assert u.started[i].0 == t;
      }
      if last == Decide(t) && |u.started| > |s.started| {
        assert u.started[|s.started|].0 == t;
      }
    }
  }

  lemma NotWorkedYet(p: Plan, steps: seq<Step>, t: nat, status: Status, k: nat)
    requires After(p, steps).Some? && Enabled(p, After(p, steps).value, Work(t, status)) && k < |steps|
    ensures !(steps[k].Work? && steps[k].t == t)
  {
    RunsExplained(p, steps);
    assert Explained(p, steps, After(p, steps).value, t);
    if steps[k].Work? {
      assert steps[k] == Work(steps[k].t, steps[k].outcome) && steps[k] in steps;
      assert Happened(steps, Work(steps[k].t, steps[k].outcome));
    }
  }

  /** A task works at most once, so the outcome it ends with is the only one it had. */
  lemma {:induction false} WorksOnce(p: Plan, steps: seq<Step>, i: nat, j: nat)
    requires After(p, steps).Some? && i < j < |steps| && steps[i].Work? && steps[j].Work?
    ensures steps[i].t != steps[j].t
    decreases |steps|
  {
    var last := |steps| - 1;
    if j < last {
      WorksOnce(p, steps[..last], i, j);
    } else {
      NotWorkedYet(p, steps[..last], steps[j].t, steps[j].outcome, i);
    }
  }
}
