/**
 Running a plan: every task waits for its dependencies, runs its workers, writes its
 result to the store and only then publishes it. Cancellation, the deadline and storage
 failures may strike anywhere.
 */
module Orchestrator {
  import opened Basics
  import opened PlanGraph

  datatype Status = Succeeded | TaskFailed | Cancelled | Skipped

  datatype RunStatus = RunSucceeded | RunFailed | RunCancelled | DeadlineExceeded

  /** A task holds its result while it writes it; it is over once its completion event is set. */
  datatype Phase = Waiting | Running | Recording(result: Status) | Over

  /** `results` is what dependents read, `store` what storage acknowledged. `started` logs
      the tasks whose workers ran, with the results published at that moment. `errors` are
      the tasks that end with a storage error. */
  datatype St = St(
    phase: map<nat, Phase>,
    results: map<nat, Status>,
    store: map<nat, Status>,
    started: seq<(nat, map<nat, Status>)>,
    stopping: Option<RunStatus>,
    errors: set<nat>)

  datatype Step =
    | Decide(t: nat)
    | Work(t: nat, outcome: Status)
    | Acknowledge(t: nat)
    | StoreFails(t: nat)
    | Stop(why: RunStatus)
    | Interrupt(t: nat, written: bool)

  function Start(p: Plan): St {
    St(map t | t in p :: Waiting, map[], map[], [], None, {})
  }

  predicate Ready(p: Plan, s: St, t: nat) {
    t in p && t in s.phase && s.phase[t].Waiting? && forall d | d in p[t] :: d in s.results
  }

  /** What a task makes of its dependencies. */
  function Verdict(p: Plan, s: St, t: nat): Phase
    requires Ready(p, s, t)
  {
    if s.stopping.Some? then Recording(Cancelled)
    else if exists d | d in p[t] :: s.results[d].Cancelled? then Recording(Cancelled)
    else if exists d | d in p[t] :: !s.results[d].Succeeded? then Recording(Skipped)
    else Running
  }

  function Publish(s: St, t: nat, status: Status): St {
    s.(phase := s.phase[t := Over], results := s.results[t := status])
  }

  predicate Enabled(p: Plan, s: St, step: Step) {
    match step
    case Decide(t) => Ready(p, s, t)
    case Work(t, _) => t in s.phase && s.phase[t].Running?
    case Acknowledge(t) => t in s.phase && s.phase[t].Recording?
    case StoreFails(t) => t in s.phase && s.phase[t].Recording?
    case Stop(why) => s.stopping.None? && (why.RunCancelled? || why.DeadlineExceeded?)
    case Interrupt(t, _) => t in s.phase && !s.phase[t].Over? && s.stopping.Some?
  }

  function Apply(p: Plan, s: St, step: Step): St
    requires Enabled(p, s, step)
  {
    match step
    case Decide(t) =>
      var v := Verdict(p, s, t);
      s.(phase := s.phase[t := v], started := if v.Running? then s.started + [(t, s.results)] else s.started)
    case Work(t, outcome) => s.(phase := s.phase[t := Recording(outcome)])
    case Acknowledge(t) =>
      var result := s.phase[t].result;
      Publish(s.(store := s.store[t := result]), t, result)
    case StoreFails(t) => Publish(s.(errors := s.errors + {t}), t, TaskFailed)
    case Stop(why) => s.(stopping := Some(why))
    case Interrupt(t, written) =>
      // A task that waits or works turns to recording its cancellation; a write that is
      // interrupted publishes a cancelled result, whether or not the store has it.
      if s.phase[t].Recording? then
        Publish(if written then s.(store := s.store[t := s.phase[t].result]) else s, t, Cancelled)
      else s.(phase := s.phase[t := Recording(Cancelled)])
  }

  // ---------- Safety ----------

  /** Every dependency was published as succeeded, and what is published as succeeded was
      acknowledged by the store. */
  ghost predicate DependenciesDone(p: Plan, results: map<nat, Status>, t: nat) {
    t in p && forall d :: d in p[t] ==> d in results && results[d].Succeeded?
  }

  ghost predicate Durable(results: map<nat, Status>, store: map<nat, Status>) {
    forall t :: t in results && results[t].Succeeded? ==> t in store && store[t].Succeeded?
  }

  ghost predicate Extends(a: map<nat, Status>, b: map<nat, Status>) {
    forall t :: t in a ==> t in b && b[t] == a[t]
  }

  ghost predicate Inv(p: Plan, s: St) {
    && s.phase.Keys == p.Keys && s.results.Keys <= p.Keys
    && (forall t :: t in p ==> (s.phase[t].Over? <==> t in s.results))
    && Durable(s.results, s.store)
    && (forall i :: 0 <= i < |s.started| ==>
         DependenciesDone(p, s.started[i].1, s.started[i].0) && Extends(s.started[i].1, s.results))
    && (forall t :: t in s.errors ==> t in s.results && s.results[t] == TaskFailed)
    && (s.stopping.Some? ==> s.stopping.value in {RunCancelled, DeadlineExceeded})
  }

  lemma StartKeeps(p: Plan)
    ensures Inv(p, Start(p))
  {
  }

  lemma VerdictIs(p: Plan, s: St, t: nat)
    requires Ready(p, s, t)
    ensures Verdict(p, s, t).Running? <==> s.stopping.None? && DependenciesDone(p, s.results, t)
    ensures Verdict(p, s, t).Running? || Verdict(p, s, t).Recording?
  {
  }

  lemma PublishKeeps(p: Plan, s: St, t: nat, status: Status)
    requires Inv(p, s) && t in p && !s.phase[t].Over?
    requires status.Succeeded? ==> t in s.store && s.store[t].Succeeded?
    ensures Inv(p, Publish(s, t, status))
  {
    assert t !in s.results;
  }

  lemma StoreKeeps(p: Plan, s: St, t: nat, status: Status)
    requires Inv(p, s) && t in p && !s.phase[t].Over?
    ensures Inv(p, s.(store := s.store[t := status]))
  {
    assert t !in s.results;
  }

  lemma StepKeeps(p: Plan, s: St, step: Step)
    requires Inv(p, s) && Enabled(p, s, step)
    ensures Inv(p, Apply(p, s, step)) && Extends(s.results, Apply(p, s, step).results)
  {
    match step
    case Decide(t) => VerdictIs(p, s, t);
    case Work(t, outcome) =>
    case Acknowledge(t) =>
      StoreKeeps(p, s, t, s.phase[t].result);
      PublishKeeps(p, s.(store := s.store[t := s.phase[t].result]), t, s.phase[t].result);
    case StoreFails(t) =>
      PublishKeeps(p, s, t, TaskFailed);
    case Stop(why) =>
    case Interrupt(t, written) =>
      if s.phase[t].Recording? {
        StoreKeeps(p, s, t, s.phase[t].result);
        PublishKeeps(p, s, t, Cancelled);
        PublishKeeps(p, s.(store := s.store[t := s.phase[t].result]), t, Cancelled);
      }
  }

  /** The state after a run of steps, if each was enabled in turn. */
  function After(p: Plan, steps: seq<Step>): Option<St> {
    if steps == [] then Some(Start(p))
    else
      var before := After(p, steps[..|steps| - 1]);
      if before.Some? && Enabled(p, before.value, steps[|steps| - 1]) then
        Some(Apply(p, before.value, steps[|steps| - 1]))
      else None
  }

  lemma {:induction false} InvOverRuns(p: Plan, steps: seq<Step>)
    requires After(p, steps).Some?
    ensures Inv(p, After(p, steps).value)
  {
    if steps == [] {
      StartKeeps(p);
    } else {
      InvOverRuns(p, steps[..|steps| - 1]);
      StepKeeps(p, After(p, steps[..|steps| - 1]).value, steps[|steps| - 1]);
    }
  }

  /** A published result is final: whatever a run does later, it is still there. */
  lemma {:induction false} PublishedFinal(p: Plan, steps: seq<Step>, later: seq<Step>)
    requires After(p, steps + later).Some?
    ensures After(p, steps).Some? && Extends(After(p, steps).value.results, After(p, steps + later).value.results)
    decreases |later|
  {
    var all := steps + later;
    if later == [] {
      assert all == steps;
    } else {
      var before := later[..|later| - 1];
      assert all[..|all| - 1] == steps + before && all[|all| - 1] == later[|later| - 1];
      PublishedFinal(p, steps, before);
      InvOverRuns(p, steps + before);
      StepKeeps(p, After(p, steps + before).value, all[|all| - 1]);
    }
  }

  /** A worker only ever starts when all dependencies of its task are published as
      succeeded, and the store has acknowledged every one of these successes. */
  lemma WorkersStartAfterDependencies(p: Plan, steps: seq<Step>, i: nat, d: nat)
    requires After(p, steps).Some? && i < |After(p, steps).value.started|
    requires var t := After(p, steps).value.started[i].0; t in p && d in p[t]
    ensures var s := After(p, steps).value;
            && d in s.started[i].1 && s.started[i].1[d].Succeeded?
            && d in s.results && s.results[d].Succeeded? && d in s.store && s.store[d].Succeeded?
  {
    InvOverRuns(p, steps);
  }

  // ---------- Progress ----------

  lemma {:induction false} FirstOpen(p: Plan, s: St, order: seq<nat>) returns (t: nat)
    requires Inv(p, s) && Sorted(p, order) && exists x :: x in order && !s.phase[x].Over?
    ensures t in order && !s.phase[t].Over? && forall d :: d in p[t] ==> d in s.results
  {
    var n := |order| - 1;
    var rest := order[..n];
    assert Sorted(p, rest) by {
      assert forall i :: 0 <= i < n ==> rest[..i] == order[..i] && rest[i] == order[i];
    }
    if x :| x in rest && !s.phase[x].Over? {
      t := FirstOpen(p, s, rest);
    } else {
      t := order[n];
      forall d | d in p[t] ensures d in s.results {
        assert d in order[..n];
      }
    }
  }

  lemma OpenTaskSteps(p: Plan, s: St, order: seq<nat>) returns (t: nat, step: Step)
    requires Inv(p, s) && Sorted(p, order) && (forall x :: x in p ==> x in order)
    requires exists x :: x in p && !s.phase[x].Over?
    ensures t in p && !s.phase[t].Over? && (forall d :: d in p[t] ==> d in s.results)
    ensures Enabled(p, s, step) && (step == Decide(t) || step == Work(t, Succeeded) || step == Acknowledge(t))
  {
    t := FirstOpen(p, s, order);
    step := if s.phase[t].Waiting? then Decide(t)
            else if s.phase[t].Running? then Work(t, Succeeded)
            else Acknowledge(t);
  }

  /** No run of a plan that passed the check gets stuck: while tasks remain, some task has
      all its dependencies published, and a step of it is enabled. */
  lemma NeverStuck(p: Plan, steps: seq<Step>) returns (t: nat, step: Step)
    requires Complete(p) && Acyclic(p) && After(p, steps).Some?
    requires exists x :: x in p && !(x in After(p, steps).value.results)
    ensures var s := After(p, steps).value;
            && t in p && t !in s.results && (forall d :: d in p[t] ==> d in s.results)
            && (step == Decide(t) || step == Work(t, Succeeded) || step == Acknowledge(t))
    ensures After(p, steps + [step]).Some?
  {
    InvOverRuns(p, steps);
    var order := Sorts(p);
    t, step := OpenTaskSteps(p, After(p, steps).value, order);
    assert (steps + [step])[..|steps|] == steps;
  }

  /** How much a run still has to do. */
  ghost function Remaining(p: Plan, s: St): nat
    requires s.phase.Keys == p.Keys
  {
    Weight(s.phase, p.Keys) + if s.stopping.None? then 1 else 0
  }

  function Cost(f: Phase): nat {
    match f
    case Waiting => 3
    case Running => 2
    case Recording(_) => 1
    case Over => 0
  }

  ghost function Weight(phase: map<nat, Phase>, tasks: set<nat>): nat
    requires tasks <= phase.Keys
  {
    if tasks == {} then 0 else var t :| t in tasks; Cost(phase[t]) + Weight(phase, tasks - {t})
  }

  lemma {:induction false} WeightSplit(phase: map<nat, Phase>, tasks: set<nat>, t: nat)
    requires tasks <= phase.Keys && t in tasks
    ensures Weight(phase, tasks) == Cost(phase[t]) + Weight(phase, tasks - {t})
    decreases tasks
  {
    var u :| u in tasks && Weight(phase, tasks) == Cost(phase[u]) + Weight(phase, tasks - {u});
    if u != t {
      WeightSplit(phase, tasks - {u}, t);
      WeightSplit(phase, tasks - {t}, u);
      assert tasks - {u} - {t} == tasks - {t} - {u};
    }
  }

  lemma {:induction false} WeightElsewhere(phase: map<nat, Phase>, tasks: set<nat>, t: nat, f: Phase)
    requires tasks <= phase.Keys && t !in tasks
    ensures Weight(phase[t := f], tasks) == Weight(phase, tasks)
    decreases tasks
  {
    if tasks != {} {
      var u :| u in tasks;
      WeightSplit(phase, tasks, u);
      WeightSplit(phase[t := f], tasks, u);
      WeightElsewhere(phase, tasks - {u}, t, f);
    }
  }

  lemma WeightDrops(phase: map<nat, Phase>, t: nat, f: Phase)
    requires t in phase && Cost(f) < Cost(phase[t])
    ensures Weight(phase[t := f], phase.Keys) < Weight(phase, phase.Keys)
  {
    WeightSplit(phase, phase.Keys, t);
    WeightSplit(phase[t := f], phase.Keys, t);
    WeightElsewhere(phase, phase.Keys - {t}, t, f);
  }

  /** Every step uses up some of what is left. */
  lemma StepsUseUp(p: Plan, s: St, step: Step)
    requires Inv(p, s) && Enabled(p, s, step)
    ensures Remaining(p, Apply(p, s, step)) < Remaining(p, s)
  {
    match step
    case Decide(t) =>
      VerdictIs(p, s, t);
      WeightDrops(s.phase, t, Verdict(p, s, t));
    case Work(t, outcome) => WeightDrops(s.phase, t, Recording(outcome));
    case Acknowledge(t) => WeightDrops(s.phase, t, Over);
    case StoreFails(t) => WeightDrops(s.phase, t, Over);
    case Stop(why) =>
    case Interrupt(t, written) => WeightDrops(s.phase, t, if s.phase[t].Recording? then Over else Recording(Cancelled));
  }

  lemma {:induction false} StartWeight(phase: map<nat, Phase>, tasks: set<nat>)
    requires tasks <= phase.Keys && forall t :: t in tasks ==> phase[t].Waiting?
    ensures Weight(phase, tasks) == 3 * |tasks|
    decreases tasks
  {
    if tasks != {} {
      var t :| t in tasks;
      WeightSplit(phase, tasks, t);
      StartWeight(phase, tasks - {t});
    }
  }

  lemma {:induction false} RunUsesUp(p: Plan, steps: seq<Step>)
    requires After(p, steps).Some?
    ensures var s := After(p, steps).value; s.phase.Keys == p.Keys && |steps| + Remaining(p, s) <= 3 * |p| + 1
  {
    if steps == [] {
      StartWeight(Start(p).phase, p.Keys);
      assert |p.Keys| == |p|;
    } else {
      var before := steps[..|steps| - 1];
      RunUsesUp(p, before);
      InvOverRuns(p, before);
      StepsUseUp(p, After(p, before).value, steps[|steps| - 1]);
      StepKeeps(p, After(p, before).value, steps[|steps| - 1]);
    }
  }

  /** Every run ends, after at most three steps for each task and one to stop it. */
  lemma RunsEnd(p: Plan, steps: seq<Step>)
    requires After(p, steps).Some?
    ensures |steps| <= 3 * |p| + 1
  {
    RunUsesUp(p, steps);
  }

  // ---------- The end of a run ----------

  /** Published results are returned as they are, and every other task as cancelled if the
      run was stopped, and as failed if it was not. */
  ghost predicate FilledIn(s: St, results: map<nat, Status>) {
    && Extends(s.results, results)
    && forall t :: t in results && t !in s.results ==>
         results[t] == if s.stopping.Some? then Cancelled else TaskFailed
  }

  /** `run` after its jobs ended: a storage error is raised, missing results are filled in
      and stored, and only a run whose tasks all succeeded counts as succeeded. */
  method FinishRun(p: Plan, s: St, storable: nat -> bool) returns (r: Option<(RunStatus, map<nat, Status>)>)
    requires Inv(p, s)
    ensures r.None? <==> s.errors != {} || exists t :: t in p && t !in s.results && !storable(t)
    ensures r.Some? ==> r.value.1.Keys == p.Keys && FilledIn(s, r.value.1)
    ensures r.Some? ==>
      r.value.0 == if s.stopping.Some? then s.stopping.value
                   else if forall t :: t in p ==> r.value.1[t].Succeeded? then RunSucceeded else RunFailed
    ensures r.Some? && r.value.0.RunSucceeded? ==> forall t :: t in p ==> t in s.store && s.store[t].Succeeded?
  {
    if s.errors != {} {
      return None;
    }
    var results, remaining, all := s.results, p.Keys, true;
    while remaining != {}
      invariant remaining <= p.Keys && results.Keys == s.results.Keys + (p.Keys - remaining)
      invariant FilledIn(s, results)
      invariant forall t :: t in p && t !in remaining && t !in s.results ==> storable(t)
      invariant all <==> forall t :: t in p && t !in remaining ==> results[t].Succeeded?
      decreases remaining
    {
      var t :| t in remaining;
      if t !in results {
        if !storable(t) {
          return None;
        }
        results := results[t := if s.stopping.Some? then Cancelled else TaskFailed];
      }
      all := all && results[t].Succeeded?;
      remaining := remaining - {t};
    }
    var status := if s.stopping.Some? then s.stopping.value else if all then RunSucceeded else RunFailed;
    return Some((status, results));
  }
}
