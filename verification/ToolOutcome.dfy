/**
 How the end of a tool execution is reported. Once the handler of a tool that must never
 be replayed was entered, nobody can tell whether its side effect happened, unless the
 handler said so itself.

 One attempt is modelled, as for tools without a retry policy. The handler, the lease's
 heartbeat, the timeout, a cancellation and the release of the lease take their steps in
 any order the runtime allows.
 */
module ToolOutcome {
  import opened Basics

  datatype Tool = Tool(never: bool, requiresApproval: bool, fenced: bool)

  predicate MayHaveSideEffect(t: Tool) {
    t.never || t.requiresApproval || t.fenced
  }

  /** Exceptions, as far as the runtime tells them apart. */
  datatype Raised =
    | Cancellation
    | Unknown
    | AdmissionDenied
    | DefinitelyNotCommitted
    | Retryable
    | LockTimeout
    | LeaseLost(outcomeUnknown: bool)
    | TenantContext
    | Other(outcomeUnknown: bool)

  /** A handler's result may itself say that the outcome is unknown. */
  datatype HandlerEnd = Returned(saysUnknown: bool) | Failed(error: Raised)

  datatype Release = Released | LostOnRelease | ReleaseFailed

  /** `Held`: the lease is there and the started flag set, the handler not yet entered.
      `Unwinding`: the lease is being given back. */
  datatype Phase = Acquiring | Held | Inside | Unwinding(result: HandlerEnd) | Over(result: HandlerEnd)

  datatype Stop = ByTimeout | ByCancel

  /** `handlerEnd`, `observerFailed`, `release` and `disturbed` record what happened: how the
      handler ended, whether a lease loss could not be observed, how the lease was given back,
      and whether the timeout, a cancellation or a lease loss interfered. */
  datatype Exec = Exec(
    phase: Phase,
    started: bool,
    entered: bool,
    lost: bool,
    stop: Option<Stop>,
    verdict: Option<Report>,
    handlerEnd: Option<HandlerEnd>,
    observerFailed: bool,
    release: Option<Release>,
    disturbed: bool)

  const Start := Exec(Acquiring, false, false, false, None, None, None, false, None, false)

  datatype Step =
    | Acquire(failure: Option<Raised>)
    | Enter(failure: Option<Raised>)
    | HandlerEnds(end: HandlerEnd, observerFails: bool)
    | HeartbeatEnds
    | ReleaseLease(how: Release)
    | Interrupted
    | TimeoutFires
    | CancelFires
    | ReportOutcome

  /** Giving the lease back; a loss that only shows now is not hidden by another error. */
  function AfterRelease(t: Tool, primary: HandlerEnd, release: Release): HandlerEnd {
    match release
    case Released => primary
    case LostOnRelease =>
      if primary.Failed? && primary.error.LeaseLost? then primary else Failed(LeaseLost(t.never || primary.Returned?))
    case ReleaseFailed => if primary.Returned? then Failed(Other(false)) else primary
  }

  /** How the attempt ends once the handler did. */
  function AfterHandler(t: Tool, end: HandlerEnd, lost: bool, observerFails: bool): HandlerEnd {
    if !lost then end else if observerFails then Failed(Other(false)) else Failed(LeaseLost(t.never || end.Returned?))
  }

  /** A heartbeat ends only with an error, which the release of the lease then reports. */
  predicate Enabled(x: Exec, step: Step) {
    match step
    case Acquire(_) => x.phase.Acquiring?
    case Enter(_) => x.phase.Held?
    case HandlerEnds(_, _) => x.phase.Inside?
    case HeartbeatEnds => x.phase.Inside? && !x.lost
    case ReleaseLease(how) => x.phase.Unwinding? && (x.lost ==> how.LostOnRelease?)
    case Interrupted => x.stop.Some? && (x.phase.Acquiring? || x.phase.Held?)
    case TimeoutFires => x.started && x.stop.None? && !x.phase.Over?
    case CancelFires => x.stop.None? && !x.phase.Over?
    case ReportOutcome => x.phase.Over? && x.verdict.None?
  }

  function Apply(t: Tool, x: Exec, step: Step): Exec
    requires Enabled(x, step)
  {
    match step
    case Acquire(failure) =>
      if failure.Some? then x.(phase := Over(Failed(failure.value))) else x.(phase := Held, started := true)
    case Enter(failure) =>
      if failure.Some? then x.(phase := Unwinding(Failed(failure.value))) else x.(phase := Inside, entered := true)
    case HandlerEnds(end, observerFails) =>
      x.(phase := Unwinding(AfterHandler(t, end, x.lost, observerFails)), handlerEnd := Some(end),
         observerFailed := observerFails)
    case HeartbeatEnds => x.(lost := true, disturbed := true)
    case ReleaseLease(how) =>
      var result := AfterRelease(t, x.phase.result, how);
      x.(phase := Over(result), release := Some(how), disturbed := x.disturbed || result != x.phase.result)
    case Interrupted =>
      x.(phase := if x.phase.Held? then Unwinding(Failed(Cancellation)) else Over(Failed(Cancellation)))
    case TimeoutFires => x.(stop := Some(ByTimeout), disturbed := true)
    case CancelFires => x.(stop := Some(ByCancel), disturbed := true)
    case ReportOutcome => x.(verdict := Some(Verdict(t, x)))
  }

  datatype Code = Success | OutcomeUnknown | ToolCancelled | TimedOut | Denied | NotCommitted | RetryableError
    | ResourceLockTimeout | ResourceLeaseLost | TenantError | ExecutionError

  datatype Report = Report(code: Code, isError: bool)

  /** The exception handlers around the finished execution, in their order. */
  function Classify(t: Tool, result: HandlerEnd, started: bool, entered: bool): Report {
    match result
    case Returned(saysUnknown) => Report(if saysUnknown then OutcomeUnknown else Success, false)
    case Failed(Cancellation) => Report(if t.never && started then OutcomeUnknown else ToolCancelled, true)
    case Failed(Unknown) => Report(OutcomeUnknown, true)
    case Failed(AdmissionDenied) => Report(Denied, true)
    case Failed(DefinitelyNotCommitted) => Report(NotCommitted, true)
    case Failed(Retryable) => Report(RetryableError, true)
    case Failed(LockTimeout) => Report(ResourceLockTimeout, true)
    case Failed(LeaseLost(unknown)) => Report(if unknown then OutcomeUnknown else ResourceLeaseLost, true)
    case Failed(TenantContext) => Report(TenantError, true)
    case Failed(Other(unknown)) =>
      if unknown then Report(OutcomeUnknown, true)
      else if MayHaveSideEffect(t) && entered then Report(OutcomeUnknown, true)
      else Report(ExecutionError, true)
  }

  /** An execution that lost against the timeout or a cancellation is cancelled, awaited
      and its result thrown away. */
  function Verdict(t: Tool, x: Exec): Report
    requires x.phase.Over?
  {
    match x.stop
    case None => Classify(t, x.phase.result, x.started, x.entered)
    case Some(ByTimeout) => Report(if t.never && x.started then OutcomeUnknown else TimedOut, true)
    case Some(ByCancel) => Report(if t.never && x.started then OutcomeUnknown else ToolCancelled, true)
  }

  function After(t: Tool, steps: seq<Step>): Option<Exec> {
    if steps == [] then Some(Start)
    else
      var before := After(t, steps[..|steps| - 1]);
      if before.Some? && Enabled(before.value, steps[|steps| - 1]) then
        Some(Apply(t, before.value, steps[|steps| - 1]))
      else None
  }

  lemma AfterSnoc(t: Tool, steps: seq<Step>, n: nat)
    requires n < |steps| && After(t, steps[..n]).Some? && Enabled(After(t, steps[..n]).value, steps[n])
    ensures After(t, steps[..n + 1]) == Some(Apply(t, After(t, steps[..n]).value, steps[n]))
  {
    assert steps[..n + 1][..n] == steps[..n];
  }

  /** What a handler can say about itself. */
  predicate Declared(error: Raised) {
    !error.Cancellation? && !(error.Other? && !error.outcomeUnknown)
  }

  function DeclaredCode(error: Raised): Code
    requires Declared(error)
  {
    match error
    case Unknown => OutcomeUnknown
    case AdmissionDenied => Denied
    case DefinitelyNotCommitted => NotCommitted
    case Retryable => RetryableError
    case LockTimeout => ResourceLockTimeout
    case LeaseLost(unknown) => if unknown then OutcomeUnknown else ResourceLeaseLost
    case TenantContext => TenantError
    case Other(_) => OutcomeUnknown
  }

  // ---------- Outcomes never degrade ----------

  /** The report for a tool that must never be replayed whose handler was entered: what the
      handler said if nothing interfered, and otherwise `outcome_unknown`. */
  function Exact(end: HandlerEnd, disturbed: bool): Report {
    if disturbed then Report(OutcomeUnknown, true)
    else if end.Returned? then Report(if end.saysUnknown then OutcomeUnknown else Success, false)
    else if Declared(end.error) then Report(DeclaredCode(end.error), true)
    else Report(OutcomeUnknown, true)
  }

  /** What a disturbed attempt of such a tool ends with. */
  predicate Uncertain(r: HandlerEnd) {
    r == Failed(LeaseLost(true)) || r == Failed(Other(false))
  }

  ghost predicate EnteredOk(t: Tool, x: Exec) {
    && x.started && (x.phase.Inside? <==> x.handlerEnd.None?)
    && (x.phase.Inside? && x.disturbed && x.stop.None? ==> x.lost)
    && (x.phase.Unwinding? || x.phase.Over? ==>
         && x.handlerEnd.Some?
         && (x.stop.None? ==> if x.disturbed then Uncertain(x.phase.result) else x.phase.result == x.handlerEnd.value))
    && (x.verdict.Some? ==>
         x.phase.Over? && x.handlerEnd.Some? && x.verdict.value == Exact(x.handlerEnd.value, x.disturbed))
  }

  ghost predicate Inv(t: Tool, x: Exec) {
    && (x.entered ==> EnteredOk(t, x))
    && (!x.entered ==> !x.phase.Inside? && x.handlerEnd.None? && !x.lost)
    && (x.phase.Held? ==> x.started && !x.entered) && (x.phase.Acquiring? ==> !x.started && !x.entered)
    && (x.verdict.Some? ==> x.phase.Over?) && (x.stop.Some? || x.lost ==> x.disturbed)
    && (x.disturbed && x.stop.None? && !x.entered ==> x.phase.Over?)
  }

  lemma StepKeeps(t: Tool, x: Exec, step: Step)
    requires t.never && Inv(t, x) && Enabled(x, step)
    ensures Inv(t, Apply(t, x, step))
  {
  }

  lemma {:induction false} InvOverRuns(t: Tool, steps: seq<Step>)
    requires t.never && After(t, steps).Some?
    ensures Inv(t, After(t, steps).value)
  {
    if steps != [] {
      InvOverRuns(t, steps[..|steps| - 1]);
      StepKeeps(t, After(t, steps[..|steps| - 1]).value, steps[|steps| - 1]);
    }
  }

  /** Over every race of completion, timeout, cancellation and lease loss. */
  lemma NeverToolExact(t: Tool, steps: seq<Step>)
    requires t.never && After(t, steps).Some? && After(t, steps).value.entered && After(t, steps).value.verdict.Some?
    ensures var x := After(t, steps).value;
            x.handlerEnd.Some? && x.verdict.value == Exact(x.handlerEnd.value, x.disturbed)
  {
    InvOverRuns(t, steps);
  }

  // ---------- Tools that may be replayed ----------

  /** An error without a code of its own, after the handler was entered. */
  function Broken(t: Tool): Report {
    Report(if MayHaveSideEffect(t) then OutcomeUnknown else ExecutionError, true)
  }

  function LeaseLostReport(returned: bool): Report {
    Report(if returned then OutcomeUnknown else ResourceLeaseLost, true)
  }

  /** The report for a tool that may be replayed whose handler was entered. A timeout or a
      cancellation hides whatever the handler did. A lost lease makes a returned result
      unknown, unless an observer that fails during the loss hides the result: then the
      release reports the loss as if the handler had returned nothing. */
  function ReplayableExact(t: Tool, end: HandlerEnd, stop: Option<Stop>, lost: bool, observerFailed: bool,
                           how: Release): Report {
    if stop == Some(ByTimeout) then Report(TimedOut, true)
    else if stop == Some(ByCancel) then Report(ToolCancelled, true)
    else if lost then LeaseLostReport(end.Returned? && !observerFailed)
    else if how.LostOnRelease? && !(end.Failed? && end.error.LeaseLost?) then LeaseLostReport(end.Returned?)
    else if how.ReleaseFailed? && end.Returned? then Broken(t)
    else if end.Returned? then Report(if end.saysUnknown then OutcomeUnknown else Success, false)
    else if end.error.Cancellation? then Report(ToolCancelled, true)
    else if Declared(end.error) then Report(DeclaredCode(end.error), true)
    else Broken(t)
  }

  /** The phase of an entered attempt follows from what is on record. */
  ghost predicate OnRecord(t: Tool, x: Exec) {
    && x.started && !x.phase.Acquiring? && !x.phase.Held?
    && (x.phase.Inside? <==> x.handlerEnd.None?) && (x.phase.Over? <==> x.release.Some?)
    && (x.phase.Unwinding? ==> x.phase.result == AfterHandler(t, x.handlerEnd.value, x.lost, x.observerFailed))
    && (x.phase.Over? ==>
         x.phase.result
         == AfterRelease(t, AfterHandler(t, x.handlerEnd.value, x.lost, x.observerFailed), x.release.value))
    && (x.phase.Over? && x.lost ==> x.release == Some(LostOnRelease))
    && (x.verdict.Some? ==> x.phase.Over? && x.verdict.value == Verdict(t, x))
  }

  ghost predicate Recorded(t: Tool, x: Exec) {
    && (x.entered ==> OnRecord(t, x))
    && (!x.entered ==> !x.phase.Inside? && (x.phase.Held? ==> x.started))
    && (x.phase.Held? || x.phase.Acquiring? ==> x.handlerEnd.None? && x.release.None? && x.verdict.None?)
  }

  lemma StepRecorded(t: Tool, x: Exec, step: Step)
    requires Recorded(t, x) && Enabled(x, step)
    ensures Recorded(t, Apply(t, x, step))
  {
  }

  lemma {:induction false} RecordedOverRuns(t: Tool, steps: seq<Step>)
    requires After(t, steps).Some?
    ensures Recorded(t, After(t, steps).value)
  {
    if steps != [] {
      RecordedOverRuns(t, steps[..|steps| - 1]);
      StepRecorded(t, After(t, steps[..|steps| - 1]).value, steps[|steps| - 1]);
    }
  }

  /** Over every race of completion, timeout, cancellation and lease loss. */
  lemma ReplayableToolExact(t: Tool, steps: seq<Step>)
    requires !t.never && After(t, steps).Some? && After(t, steps).value.entered && After(t, steps).value.verdict.Some?
    ensures var x := After(t, steps).value;
            && x.handlerEnd.Some? && x.release.Some?
            && x.verdict.value ==
                 ReplayableExact(t, x.handlerEnd.value, x.stop, x.lost, x.observerFailed, x.release.value)
  {
    RecordedOverRuns(t, steps);
  }

  /** A cancellation that comes after the handler was entered and before it ends. */
  function CancelRace(end: HandlerEnd): seq<Step> {
    [Acquire(None), Enter(None), CancelFires, HandlerEnds(end, false), ReleaseLease(Released), ReportOutcome]
  }

  lemma CancelRaceStarts(t: Tool, end: HandlerEnd)
    ensures After(t, CancelRace(end)[..3]) ==
            Some(Exec(Inside, true, true, false, Some(ByCancel), None, None, false, None, true))
  {
    var steps := CancelRace(end);
    assert steps[..0] == [];
    AfterSnoc(t, steps, 0);
    AfterSnoc(t, steps, 1);
    AfterSnoc(t, steps, 2);
  }

  /** A tool that may be replayed is reported as plainly cancelled although its handler was
      entered and returned. */
  lemma ReplayableToolDegrades(t: Tool, end: HandlerEnd)
    requires !t.never
    ensures var x := After(t, CancelRace(end));
            x.Some? && x.value.entered && x.value.disturbed && x.value.verdict == Some(Report(ToolCancelled, true))
  {
    var steps := CancelRace(end);
    CancelRaceStarts(t, end);
    AfterSnoc(t, steps, 3);
    AfterSnoc(t, steps, 4);
    AfterSnoc(t, steps, 5);
    assert steps[..6] == steps;
  }

  /** Whatever interferes with an entered attempt, its outcome is reported as unknown. */
  ghost predicate DisturbedIsUnknown(t: Tool) {
    forall steps :: Interfered(t, After(t, steps)) ==>
      After(t, steps).value.verdict.value == Report(OutcomeUnknown, true)
  }

  predicate Interfered(t: Tool, x: Option<Exec>) {
    x.Some? && x.value.entered && x.value.disturbed && x.value.verdict.Some?
  }

  /** The guarantee holds for exactly the tools that must never be replayed. */
  lemma UnknownIffNever(t: Tool)
    ensures DisturbedIsUnknown(t) <==> t.never
  {
    if t.never {
      forall steps | Interfered(t, After(t, steps))
        ensures After(t, steps).value.verdict.value == Report(OutcomeUnknown, true)
      {
        NeverToolExact(t, steps);
      }
    } else {
      ReplayableToolDegrades(t, Returned(false));
      assert Interfered(t, After(t, CancelRace(Returned(false))));
    }
  }

  // ---------- The record is the history ----------

  /** The first timeout or cancellation of an attempt. */
  function FirstStop(steps: seq<Step>): Option<Stop> {
    if steps == [] then None
    else
      var (before, last) := (FirstStop(steps[..|steps| - 1]), steps[|steps| - 1]);
      if before.Some? then before
      else if last.TimeoutFires? then Some(ByTimeout)
      else if last.CancelFires? then Some(ByCancel)
      else None
  }

  ghost predicate FlagsLogged(done: set<Step>, stop: Option<Stop>, x: Exec) {
    && (x.started <==> Acquire(None) in done) && (x.entered <==> Enter(None) in done)
    && (x.lost <==> HeartbeatEnds in done) && x.stop == stop
  }

  ghost predicate EndsLogged(done: set<Step>, x: Exec) {
    && (forall how :: x.release == Some(how) <==> ReleaseLease(how) in done)
    && (forall end :: x.handlerEnd == Some(end) <==> HandlerEnds(end, x.observerFailed) in done)
    && (x.phase.Acquiring? || x.phase.Held? || x.phase.Inside? ==> x.handlerEnd.None? && x.release.None?)
    && (x.phase.Unwinding? ==> x.release.None?)
    && (x.handlerEnd.None? ==> forall end, fails :: HandlerEnds(end, fails) !in done)
  }

  lemma StepFlagsLogged(t: Tool, done: set<Step>, stop: Option<Stop>, x: Exec, step: Step)
    requires FlagsLogged(done, stop, x) && Enabled(x, step)
    ensures var next := if stop.Some? then stop else FirstStop([step]);
            FlagsLogged(done + {step}, next, Apply(t, x, step))
  {}

  lemma StepEndsLogged(t: Tool, done: set<Step>, x: Exec, step: Step)
    requires EndsLogged(done, x) && Enabled(x, step)
    ensures EndsLogged(done + {step}, Apply(t, x, step))
  {}

  function Done(steps: seq<Step>): set<Step> {
    set s | s in steps
  }

  lemma DoneSnoc(steps: seq<Step>, step: Step)
    ensures Done(steps + [step]) == Done(steps) + {step}
  {}

  /** What is on record about an attempt is what happened in it: whether it got its locks,
      whether its handler was entered, whether its lease was lost, what stopped it first,
      how its handler ended and how its lease was given back. */
  lemma {:induction false} LoggedOverRuns(t: Tool, steps: seq<Step>)
    requires After(t, steps).Some?
    ensures FlagsLogged(Done(steps), FirstStop(steps), After(t, steps).value)
    ensures EndsLogged(Done(steps), After(t, steps).value)
  {
    if steps != [] {
      var (before, last) := (steps[..|steps| - 1], steps[|steps| - 1]);
      LoggedOverRuns(t, before);
      StepFlagsLogged(t, Done(before), FirstStop(before), After(t, before).value, last);
      StepEndsLogged(t, Done(before), After(t, before).value, last);
      DoneSnoc(before, last);
      assert before + [last] == steps;
    }
  }

  // ---------- Attempts whose handler was never entered ----------

  /** What refused an attempt: the acquisition of its locks, or the admission check right
      before the handler. */
  function Refusal(steps: seq<Step>): Option<Raised> {
    if steps == [] then None
    else
      var last := steps[|steps| - 1];
      if (last.Acquire? || last.Enter?) && last.failure.Some? then last.failure else Refusal(steps[..|steps| - 1])
  }

  /** The report of an attempt that never entered its handler. A timeout or a cancellation
      hides why it was refused; such a tool's own code is kept, unless its lease was lost
      while it was given back; and no error without a code makes the outcome unknown. */
  function NotEntered(t: Tool, started: bool, stop: Option<Stop>, refusal: Raised, release: Option<Release>): Code {
    if stop.Some? then
      if t.never && started then OutcomeUnknown else if stop.value.ByTimeout? then TimedOut else ToolCancelled
    else if release == Some(LostOnRelease) && !refusal.LeaseLost? then
      if t.never then OutcomeUnknown else ResourceLeaseLost
    else if refusal.Cancellation? then if t.never && started then OutcomeUnknown else ToolCancelled
    else if Declared(refusal) then DeclaredCode(refusal)
    else ExecutionError
  }

  ghost predicate Turned(t: Tool, refusal: Option<Raised>, x: Exec) {
    && !x.phase.Inside? && x.handlerEnd.None? && (x.phase.Acquiring? ==> !x.started) && (x.phase.Held? ==> x.started)
    && (x.phase.Acquiring? || x.phase.Held? || x.phase.Unwinding? ==> x.release.None? && x.verdict.None?)
    && (x.phase.Unwinding? ==> x.started)
    && (x.phase.Unwinding? && x.stop.None? ==> refusal.Some? && x.phase.result == Failed(refusal.value))
    && (x.phase.Over? && x.stop.None? ==>
         && refusal.Some? && (x.started <==> x.release.Some?)
         && x.phase.result
            == if x.started then AfterRelease(t, Failed(refusal.value), x.release.value) else Failed(refusal.value))
    && (x.verdict.Some? ==> x.phase.Over? && x.verdict.value == Verdict(t, x))
  }

  lemma StepTurned(t: Tool, refusal: Option<Raised>, x: Exec, step: Step)
    requires !x.entered && Turned(t, refusal, x) && Enabled(x, step) && !Apply(t, x, step).entered
    ensures var failure := if (step.Acquire? || step.Enter?) && step.failure.Some? then step.failure else refusal;
            Turned(t, failure, Apply(t, x, step))
  {}

  lemma {:induction false} TurnedOverRuns(t: Tool, steps: seq<Step>)
    requires After(t, steps).Some? && !After(t, steps).value.entered
    ensures Turned(t, Refusal(steps), After(t, steps).value)
  {
    if steps != [] {
      var before := steps[..|steps| - 1];
      TurnedOverRuns(t, before);
      StepTurned(t, Refusal(before), After(t, before).value, steps[|steps| - 1]);
    }
  }

  /** Over every race of refusal, timeout, cancellation and lease loss. */
  lemma NotEnteredExact(t: Tool, steps: seq<Step>)
    requires After(t, steps).Some? && !After(t, steps).value.entered && After(t, steps).value.verdict.Some?
    ensures var x := After(t, steps).value;
            && (x.stop.None? ==> Refusal(steps).Some?)
            && x.verdict.value.isError
            && var refusal := if Refusal(steps).Some? then Refusal(steps).value else Cancellation;
            x.verdict.value.code == NotEntered(t, x.started, x.stop, refusal, x.release)
  {
    TurnedOverRuns(t, steps);
  }

  // ---------- The after hook ----------

  /** A hook may replace the code with any other and set or clear the error flag, or fail. */
  datatype Hook = NoHook | Override(code: Option<Code>, isError: Option<bool>) | HookFails

  datatype Final = Final(report: Report, outputReplaced: bool)

  function AfterHook(t: Tool, r: Report, hook: Hook): Final {
    match hook
    case NoHook => Final(r, false)
    case Override(code, isError) =>
      Final(Report(if code.Some? then code.value else r.code,
                   if isError.Some? then isError.value else r.isError), false)
    case HookFails =>
      if !r.isError && MayHaveSideEffect(t) then Final(Report(Success, false), true)
      else Final(Report(ExecutionError, true), false)
  }

  /** The hook observes; it cannot rewrite what is certain. */
  function Dispatch(t: Tool, r: Report, hook: Hook): Final {
    var f := AfterHook(t, r, hook);
    if r.code.OutcomeUnknown? then Final(Report(OutcomeUnknown, true), false)
    else if !r.isError && MayHaveSideEffect(t) && f.report.isError then Final(Report(Success, false), true)
    else f
  }

  /** No after-hook turns an unknown outcome into anything else, or the confirmed success
      of a tool with side effects into an error. */
  lemma HookCannotDegrade(t: Tool, r: Report, hook: Hook)
    ensures var f := Dispatch(t, r, hook);
            && (r.code.OutcomeUnknown? ==> f.report == Report(OutcomeUnknown, true))
            && (!r.isError && !r.code.OutcomeUnknown? && MayHaveSideEffect(t) ==> !f.report.isError)
  {
  }

  /** What a hook makes of an outcome that is not unknown: it can spoil neither a success
      with side effects, whose output it then replaces, nor keep an outcome when it fails;
      otherwise its overrides stand. */
  lemma HookExact(t: Tool, r: Report, hook: Hook)
    requires !r.code.OutcomeUnknown?
    ensures var f := Dispatch(t, r, hook);
            var spoils := hook.HookFails? || (hook.Override? && hook.isError == Some(true));
            && (f.outputReplaced <==> !r.isError && MayHaveSideEffect(t) && spoils)
            && (f.outputReplaced ==> f.report == Report(Success, false))
            && (!f.outputReplaced && hook.HookFails? ==> f.report == Report(ExecutionError, true))
            && (hook.NoHook? ==> f.report == r)
            && (!f.outputReplaced && hook.Override? ==>
                  && (hook.code.None? ==> f.report.code == r.code)
                  && (hook.isError.None? ==> f.report.isError == r.isError)
                  && (hook.code.Some? ==> hook.code == Some(f.report.code))
                  && (hook.isError.Some? ==> hook.isError == Some(f.report.isError)))
  {
  }

  /** The whole dispatch of a tool that must never be replayed and was entered, over every
      race and every hook: whatever interferes, the outcome is unknown; an error is unknown
      or was declared by the handler; and a returned result stays a success. */
  lemma NeverToolNeverDegrades(t: Tool, steps: seq<Step>, hook: Hook)
    requires t.never && After(t, steps).Some? && After(t, steps).value.entered && After(t, steps).value.verdict.Some?
    ensures var x := After(t, steps).value;
            var f := Dispatch(t, x.verdict.value, hook).report;
            && x.handlerEnd.Some?
            && (x.disturbed ==> f == Report(OutcomeUnknown, true))
            && (f.isError && !f.code.OutcomeUnknown? ==>
                 !x.disturbed && x.handlerEnd.value.Failed? && Declared(x.handlerEnd.value.error))
            && (!x.disturbed && x.handlerEnd.value.Returned? && !x.handlerEnd.value.saysUnknown ==> !f.isError)
  {
    NeverToolExact(t, steps);
    HookCannotDegrade(t, After(t, steps).value.verdict.value, hook);
  }
}
