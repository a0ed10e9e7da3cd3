/**
 The durable inbox of child sessions: one record, changed by reading its latest version,
 editing the copy and appending it if nobody else appended in between.

 Amounts are reals, so that counts and costs are handled alike; a session id and a
 delivery id are injective digests of what they name, represented by what they name.
 */
module ChildInbox {
  import opened Basics

  datatype Dimension = PlanSteps | StepAttempts | ToolCalls | ModelCalls | Tokens | Cost

  datatype Amounts = Amounts(planSteps: Option<real>, stepAttempts: Option<real>, toolCalls: Option<real>,
                             modelCalls: Option<real>, tokens: Option<real>, cost: Option<real>)

  function Of(a: Amounts, d: Dimension): Option<real> {
    match d
    case PlanSteps => a.planSteps
    case StepAttempts => a.stepAttempts
    case ToolCalls => a.toolCalls
    case ModelCalls => a.modelCalls
    case Tokens => a.tokens
    case Cost => a.cost
  }

  datatype Status = Queued | Completed | Failed | Cancelled | ManualIntervention | Paused(name: nat)

  predicate Terminal(s: Status) {
    s.Completed? || s.Failed? || s.Cancelled? || s.ManualIntervention?
  }

  datatype Work = Work(child: nat, factory: nat, prompt: string, allocation: Amounts)

  datatype Outcome = Outcome(status: Status, text: string)

  datatype Item = Item(message: nat, work: Work, status: Status, cancelRequested: bool, acknowledged: bool,
                       result: Option<Outcome>)

  datatype Inbox = Inbox(deadline: real, items: seq<Item>)

  datatype Config = Config(budget: Amounts, maxChildren: nat, maxMessages: nat, maxPrompts: nat, factories: set<nat>)

  datatype Error =
    | InvalidRequest
    | BoundToDifferentWork
    | DeadlineExpired
    | ConfigurationChanged
    | InboxFull
    | PromptsFull
    | BudgetExceeded(d: Dimension) | UnknownMessage | UnknownDelivery | ResultReplaced

  datatype Result<+T> = Ok(value: T) | Err(error: Error)

  datatype Op =
    | Enqueue(message: nat, work: Work, now: real)
    | Acknowledge(message: nat, delivery: Outcome)
    | CancelChild(child: Option<nat>)
    | Finish(message: nat, outcome: Outcome)

  const DIMENSIONS: seq<Dimension> := [PlanSteps, StepAttempts, ToolCalls, ModelCalls, Tokens, Cost]

  // ---------- Changes ----------

  function Find(items: seq<Item>, message: nat): (i: nat)
    ensures i <= |items| && (i < |items| ==> items[i].message == message)
    ensures forall j :: 0 <= j < i ==> items[j].message != message
  {
    if items == [] || items[0].message == message then 0
    else
      var i := Find(items[1..], message);
      assert forall j :: 0 < j < i + 1 ==> items[j] == items[1..][j - 1];
      i + 1
  }

  function AmountOf(w: Work, d: Dimension): real {
    if Of(w.allocation, d).Some? then Of(w.allocation, d).value else 0.0
  }

  function Total(items: seq<Item>, d: Dimension): real {
    if items == [] then 0.0 else Total(items[..|items| - 1], d) + AmountOf(items[|items| - 1].work, d)
  }

  function PromptBytes(items: seq<Item>): nat {
    if items == [] then 0 else PromptBytes(items[..|items| - 1]) + |items[|items| - 1].work.prompt|
  }

  function Children(items: seq<Item>): set<nat> {
    set i | i in items :: i.work.child
  }

  predicate FitsIn(c: Config, items: seq<Item>, w: Work, d: Dimension) {
    || Of(c.budget, d).None?
    || (Of(w.allocation, d).Some? && Of(w.allocation, d).value + Total(items, d) <= Of(c.budget, d).value)
  }

  /** The first dimension that does not fit, or the number of dimensions. */
  function OverBudget(c: Config, items: seq<Item>, w: Work, k: nat): (r: nat)
    requires k <= |DIMENSIONS|
    ensures k <= r <= |DIMENSIONS|
    ensures forall j :: k <= j < r ==> FitsIn(c, items, w, DIMENSIONS[j])
    ensures r < |DIMENSIONS| ==> !FitsIn(c, items, w, DIMENSIONS[r])
    decreases |DIMENSIONS| - k
  {
    if k == |DIMENSIONS| || !FitsIn(c, items, w, DIMENSIONS[k]) then k else OverBudget(c, items, w, k + 1)
  }

  predicate SameConfiguration(a: Work, b: Work) {
    a.factory == b.factory && a.allocation == b.allocation
  }

  function Admit(c: Config, s: Inbox, op: Op): Result<Inbox>
    requires op.Enqueue?
  {
    var (items, w) := (s.items, op.work);
    var i := Find(items, op.message);
    if w.factory !in c.factories || w.allocation.modelCalls.None? then Err(InvalidRequest)
    else if i < |items| then (if items[i].work == w then Ok(s) else Err(BoundToDifferentWork))
    else if op.now >= s.deadline then Err(DeadlineExpired)
    else if exists x | x in items :: x.work.child == w.child && !SameConfiguration(x.work, w) then
      Err(ConfigurationChanged)
    else if |items| >= c.maxMessages || |Children(items) + {w.child}| > c.maxChildren then Err(InboxFull)
    else if PromptBytes(items) + |w.prompt| > c.maxPrompts then Err(PromptsFull)
    else
      var d := OverBudget(c, items, w, 0);
      if d < |DIMENSIONS| then Err(BudgetExceeded(DIMENSIONS[d]))
      else Ok(s.(items := items + [Item(op.message, w, Queued, false, false, None)]))
  }

  function Marked(items: seq<Item>, child: Option<nat>): (r: seq<Item>)
    ensures |r| == |items|
  {
    seq(|items|, i requires 0 <= i < |items| =>
      if (child.None? || items[i].work.child == child.value) && !Terminal(items[i].status) then
        items[i].(cancelRequested := true)
      else items[i])
  }

  function Settle(s: Inbox, i: nat, o: Outcome): Result<Inbox>
    requires i < |s.items|
  {
    var item := s.items[i];
    if item.result.Some? && Terminal(item.status) then (if item.result.value == o then Ok(s) else Err(ResultReplaced))
    else Ok(s.(items := s.items[i := item.(result := Some(o), status := o.status, acknowledged := false)]))
  }

  /** The edit an operation makes on the copy of the record. */
  function Change(c: Config, s: Inbox, op: Op): Result<Inbox> {
    match op
    case Enqueue(_, _, _) => Admit(c, s, op)
    case Acknowledge(m, delivery) =>
      var i := Find(s.items, m);
      if i == |s.items| then Err(UnknownMessage)
      else if s.items[i].result != Some(delivery) then Err(UnknownDelivery)
      else Ok(s.(items := s.items[i := s.items[i].(acknowledged := true)]))
    case CancelChild(child) => Ok(s.(items := Marked(s.items, child)))
    case Finish(m, o) =>
      var i := Find(s.items, m);
      if i == |s.items| then Err(UnknownMessage) else Settle(s, i, o)
  }

  // ---------- What every record keeps ----------

  ghost predicate WithinBudget(c: Config, items: seq<Item>) {
    forall d :: Of(c.budget, d).Some? && items != [] ==> Total(items, d) <= Of(c.budget, d).value
  }

  ghost predicate Allocated(c: Config, items: seq<Item>) {
    forall i, d :: 0 <= i < |items| && Of(c.budget, d).Some? ==> Of(items[i].work.allocation, d).Some?
  }

  ghost predicate DistinctMessages(items: seq<Item>) {
    forall i, j :: 0 <= i < j < |items| ==> items[i].message != items[j].message
  }

  /** A child keeps its factory and its budget. */
  ghost predicate OneConfiguration(items: seq<Item>) {
    forall i, j :: 0 <= i < |items| && 0 <= j < |items| && items[i].work.child == items[j].work.child ==>
      SameConfiguration(items[i].work, items[j].work)
  }

  ghost predicate Settled(items: seq<Item>) {
    forall i :: 0 <= i < |items| && Terminal(items[i].status) ==>
      items[i].result.Some? && items[i].result.value.status == items[i].status
  }

  ghost predicate Valid(c: Config, s: Inbox) {
    && WithinBudget(c, s.items) && Allocated(c, s.items) && DistinctMessages(s.items) && OneConfiguration(s.items)
    && Settled(s.items) && |s.items| <= c.maxMessages && PromptBytes(s.items) <= c.maxPrompts
    && (s.items != [] ==> |Children(s.items)| <= c.maxChildren)
  }

  /** What a later record keeps of an earlier one. */
  ghost predicate Later(s: Inbox, t: Inbox) {
    && t.deadline == s.deadline && |s.items| <= |t.items|
    && forall i :: 0 <= i < |s.items| ==> KeptItem(s.items[i], t.items[i])
  }

  ghost predicate KeptItem(a: Item, b: Item) {
    && b.message == a.message && b.work == a.work && (a.cancelRequested ==> b.cancelRequested)
    && (Terminal(a.status) ==> b.status == a.status && b.result == a.result && (a.acknowledged ==> b.acknowledged))
  }

  /** The two records have the same messages and works. */
  ghost predicate SameWork(a: seq<Item>, b: seq<Item>) {
    |a| == |b| && forall i :: 0 <= i < |a| ==> a[i].message == b[i].message && a[i].work == b[i].work
  }

  lemma {:induction false} SameWorkTotals(a: seq<Item>, b: seq<Item>)
    requires SameWork(a, b)
    ensures forall d :: Total(a, d) == Total(b, d)
    ensures PromptBytes(a) == PromptBytes(b)
    decreases |a|
  {
    if a != [] {
      SameWorkTotals(a[..|a| - 1], b[..|b| - 1]);
    }
  }

  lemma SameWorkChildren(a: seq<Item>, b: seq<Item>)
    requires SameWork(a, b)
    ensures Children(a) == Children(b)
  {
    forall x ensures x in Children(a) <==> x in Children(b) {
      if x in Children(a) {
        var i :| 0 <= i < |a| && a[i].work.child == x;
        assert b[i] in b;
      }
      if x in Children(b) {
        var i :| 0 <= i < |b| && b[i].work.child == x;
        assert a[i] in a;
      }
    }
  }

  lemma SameWorkValid(c: Config, s: Inbox, t: Inbox)
    requires Valid(c, s) && SameWork(s.items, t.items) && Settled(t.items)
    ensures Valid(c, t)
  {
    SameWorkTotals(s.items, t.items);
    SameWorkChildren(s.items, t.items);
  }

  lemma AdmitKeepsBudget(c: Config, items: seq<Item>, item: Item)
    requires WithinBudget(c, items) && Allocated(c, items)
    requires forall j :: 0 <= j < |DIMENSIONS| ==> FitsIn(c, items, item.work, DIMENSIONS[j])
    ensures WithinBudget(c, items + [item]) && Allocated(c, items + [item])
  {
    forall d ensures FitsIn(c, items, item.work, d) {
      DimensionListed(d);
    }
    assert (items + [item])[..|items|] == items;
    forall d | Of(c.budget, d).Some? ensures Total(items + [item], d) <= Of(c.budget, d).value {
      assert FitsIn(c, items, item.work, d);
    }
    forall i, d | 0 <= i < |items + [item]| && Of(c.budget, d).Some?
      ensures Of((items + [item])[i].work.allocation, d).Some?
    {
      assert FitsIn(c, items, item.work, d);
    }
  }

  lemma DimensionListed(d: Dimension)
    ensures exists j :: 0 <= j < |DIMENSIONS| && DIMENSIONS[j] == d
  {
    assert DIMENSIONS[0] == PlanSteps && DIMENSIONS[1] == StepAttempts && DIMENSIONS[2] == ToolCalls;
    assert DIMENSIONS[3] == ModelCalls && DIMENSIONS[4] == Tokens && DIMENSIONS[5] == Cost;
  }

  lemma NewMessage(items: seq<Item>, item: Item)
    requires DistinctMessages(items) && Settled(items) && Find(items, item.message) == |items| && !Terminal(item.status)
    ensures DistinctMessages(items + [item]) && Settled(items + [item])
  {}

  lemma NewConfiguration(items: seq<Item>, item: Item)
    requires OneConfiguration(items)
    requires forall x :: x in items && x.work.child == item.work.child ==> SameConfiguration(x.work, item.work)
    ensures OneConfiguration(items + [item])
  {
    var t := items + [item];
    assert forall i :: 0 <= i < |items| ==> t[i] == items[i] && t[i] in items;
  }

  lemma NewCounts(items: seq<Item>, item: Item)
    ensures PromptBytes(items + [item]) == PromptBytes(items) + |item.work.prompt|
    ensures Children(items + [item]) == Children(items) + {item.work.child}
  {
    assert (items + [item])[..|items|] == items;
  }

  lemma AdmittedKeeps(c: Config, s: Inbox, item: Item)
    requires Valid(c, s) && Find(s.items, item.message) == |s.items| && !Terminal(item.status)
    requires forall x :: x in s.items && x.work.child == item.work.child ==> SameConfiguration(x.work, item.work)
    requires |s.items| < c.maxMessages && |Children(s.items) + {item.work.child}| <= c.maxChildren
    requires PromptBytes(s.items) + |item.work.prompt| <= c.maxPrompts
    requires forall j :: 0 <= j < |DIMENSIONS| ==> FitsIn(c, s.items, item.work, DIMENSIONS[j])
    ensures Valid(c, s.(items := s.items + [item])) && Later(s, s.(items := s.items + [item]))
  {
    NewMessage(s.items, item);
    NewConfiguration(s.items, item);
    NewCounts(s.items, item);
    AdmitKeepsBudget(c, s.items, item);
  }

  lemma AdmitKeeps(c: Config, s: Inbox, op: Op)
    requires Valid(c, s) && op.Enqueue? && Admit(c, s, op).Ok?
    ensures Valid(c, Admit(c, s, op).value) && Later(s, Admit(c, s, op).value)
  {
    if Find(s.items, op.message) == |s.items| {
      AdmittedKeeps(c, s, Item(op.message, op.work, Queued, false, false, None));
    }
  }

  /** Every edit but a new message leaves messages and works alone. */
  lemma EditSameWork(c: Config, s: Inbox, op: Op)
    requires Settled(s.items) && !op.Enqueue? && Change(c, s, op).Ok?
    ensures var t := Change(c, s, op).value; SameWork(s.items, t.items) && Settled(t.items) && Later(s, t)
  {
  }

  /** Every change keeps the limits and everything a later reader may rely on. */
  lemma ChangeKeeps(c: Config, s: Inbox, op: Op)
    requires Valid(c, s) && Change(c, s, op).Ok?
    ensures Valid(c, Change(c, s, op).value) && Later(s, Change(c, s, op).value)
  {
    if op.Enqueue? {
      AdmitKeeps(c, s, op);
    } else {
      EditSameWork(c, s, op);
      SameWorkValid(c, s, Change(c, s, op).value);
    }
  }

  lemma FoundAt(items: seq<Item>, i: nat)
    requires DistinctMessages(items) && i < |items|
    ensures Find(items, items[i].message) == i
  {}

  /** An accepted message is in the record with its work. */
  lemma Enqueued(c: Config, s: Inbox, op: Op) returns (i: nat)
    requires Valid(c, s) && op.Enqueue? && Admit(c, s, op).Ok?
    ensures var t := Admit(c, s, op).value;
            i < |t.items| && t.items[i].message == op.message && t.items[i].work == op.work
    ensures op.work.factory in c.factories && op.work.allocation.modelCalls.Some?
  {
    i := Find(s.items, op.message);
  }

  /** Enqueueing a message again changes nothing, whatever happened in between; under
      the same id no other work is ever taken. */
  lemma EnqueueIdempotent(c: Config, s: Inbox, op: Op, later: Inbox, again: Op)
    requires Valid(c, s) && op.Enqueue? && Admit(c, s, op).Ok? && Valid(c, later) && Later(Admit(c, s, op).value, later)
    requires again.Enqueue? && again.message == op.message
    ensures again.work == op.work ==> Admit(c, later, again) == Ok(later)
    ensures again.work != op.work ==> Admit(c, later, again).Err?
  {
    var i := Enqueued(c, s, op);
    assert KeptItem(Admit(c, s, op).value.items[i], later.items[i]);
    FoundAt(later.items, i);
  }

  lemma LaterTransitive(s: Inbox, t: Inbox, u: Inbox)
    requires Later(s, t) && Later(t, u)
    ensures Later(s, u)
  {
    forall i | 0 <= i < |s.items| ensures KeptItem(s.items[i], u.items[i]) {
      assert KeptItem(s.items[i], t.items[i]) && KeptItem(t.items[i], u.items[i]);
    }
  }
}
