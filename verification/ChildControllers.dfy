/**
 Any number of controllers on one child inbox. Each reads the record, edits its copy and
 appends it against the version it read; a child's work is finished only under a fenced
 claim. Controllers may stall or crash anywhere, and claims may expire at any time.
 */
module ChildControllers {
  import opened Basics
  import opened ChildInbox

  /** What a controller remembers between two steps; `base` is the length of the log it read. */
  datatype Controller =
    | Editing(op: Op, base: nat, proposal: Inbox)
    | Holding(child: nat, token: nat)
    | Picked(child: nat, token: nat, message: nat)
    | Finishing(child: nat, token: nat, message: nat, outcome: Outcome, base: nat, proposal: Inbox)

  /** `claims` maps a child to the token of its current claim. */
  datatype Sys = Sys(log: seq<Inbox>, claims: map<nat, nat>, next: nat, controllers: map<nat, Controller>)

  datatype Step =
    | Read(k: nat, op: Op, deadline: real)
    | Append(k: nat)
    | Claim(k: nat, child: nat)
    | Expire(child: nat)
    | Pick(k: nat)
    | Report(k: nat, outcome: Outcome)
    | AppendResult(k: nat)
    | Crash(k: nat)

  const Start := Sys([], map[], 0, map[])

  /** The record a controller reads; before the first append its deadline is its own. */
  function Current(log: seq<Inbox>, deadline: real): Inbox {
    if log == [] then Inbox(deadline, []) else log[|log| - 1]
  }

  predicate OpenItem(x: Item, child: nat) {
    x.work.child == child && !Terminal(x.status)
  }

  /** The oldest message of a child without a terminal result, or the number of messages. */
  function FirstOpen(items: seq<Item>, child: nat): (i: nat)
    ensures i <= |items| && (i < |items| ==> OpenItem(items[i], child))
    ensures forall j :: 0 <= j < i ==> !OpenItem(items[j], child)
  {
    if items == [] || OpenItem(items[0], child) then 0
    else
      var i := FirstOpen(items[1..], child);
      assert forall j :: 0 < j < i + 1 ==> items[j] == items[1..][j - 1];
      i + 1
  }

  predicate Claims(s: Sys, child: nat, token: nat) {
    child in s.claims && s.claims[child] == token
  }

  function Without(s: Sys, k: nat): Sys {
    s.(controllers := s.controllers - {k})
  }

  /** A step that is not possible leaves everything as it is. */
  function Apply(c: Config, s: Sys, step: Step): Sys {
    match step
    case Read(k, op, deadline) =>
      if k in s.controllers || op.Finish? then s
      else
        var r := Change(c, Current(s.log, deadline), op);
        if r.Err? then s else s.(controllers := s.controllers[k := Editing(op, |s.log|, r.value)])
    case Append(k) =>
      if k !in s.controllers || !s.controllers[k].Editing? then s
      else if s.controllers[k].base != |s.log| then Without(s, k)
      else Without(s, k).(log := s.log + [s.controllers[k].proposal])
    case Claim(k, child) =>
      if k in s.controllers || child in s.claims then s
      else s.(claims := s.claims[child := s.next], next := s.next + 1,
              controllers := s.controllers[k := Holding(child, s.next)])
    case Expire(child) => s.(claims := s.claims - {child})
    case Pick(k) =>
      if k !in s.controllers || !s.controllers[k].Holding? || s.log == [] then s
      else
        var h := s.controllers[k];
        var items := s.log[|s.log| - 1].items;
        var i := FirstOpen(items, h.child);
        if i == |items| then Without(s, k)
        else s.(controllers := s.controllers[k := Picked(h.child, h.token, items[i].message)])
    case Report(k, outcome) =>
      if k !in s.controllers || !s.controllers[k].Picked? || s.log == [] then s
      else
        var h := s.controllers[k];
        var r := Change(c, s.log[|s.log| - 1], Finish(h.message, outcome));
        if r.Err? then Without(s, k)
        else s.(controllers := s.controllers[k := Finishing(h.child, h.token, h.message, outcome, |s.log|, r.value)])
    case AppendResult(k) =>
      if k !in s.controllers || !s.controllers[k].Finishing? then s
      else
        var h := s.controllers[k];
        if !Claims(s, h.child, h.token) then Without(s, k)
        else if h.base != |s.log| then s.(controllers := s.controllers[k := Picked(h.child, h.token, h.message)])
        else Without(s, k).(log := s.log + [h.proposal])
    case Crash(k) => Without(s, k)
  }

  // ---------- The invariant ----------

  /** Results of a child come in the order of its messages. */
  ghost predicate InOrder(items: seq<Item>) {
    forall i, j :: 0 <= i < j < |items| && items[i].work.child == items[j].work.child && Terminal(items[j].status) ==>
      Terminal(items[i].status)
  }

  ghost predicate LogOk(c: Config, log: seq<Inbox>) {
    && (forall i :: 0 <= i < |log| ==> Valid(c, log[i]) && InOrder(log[i].items))
    && forall i :: 0 < i < |log| ==> Later(log[i - 1], log[i])
  }

  /** A proposal is the edit of the record it was read from. */
  ghost predicate Derived(c: Config, log: seq<Inbox>, op: Op, base: nat, proposal: Inbox) {
    && base <= |log|
    && (if base == 0 then Change(c, Inbox(proposal.deadline, []), op) == Ok(proposal)
        else Change(c, log[base - 1], op) == Ok(proposal))
  }

  /** The message belongs to the child and, under a valid claim, is its oldest open one. */
  ghost predicate Chosen(s: Sys, child: nat, token: nat, message: nat) {
    && s.log != [] && Owned(s.log[|s.log| - 1].items, child, message)
    && (Claims(s, child, token) ==> NextUp(s.log[|s.log| - 1].items, child, message))
  }

  ghost predicate Owned(items: seq<Item>, child: nat, message: nat) {
    exists i :: 0 <= i < |items| && items[i].message == message && items[i].work.child == child
  }

  predicate NextUp(items: seq<Item>, child: nat, message: nat) {
    FirstOpen(items, child) < |items| && items[FirstOpen(items, child)].message == message
  }

  ghost predicate ControllerOk(c: Config, s: Sys, x: Controller) {
    match x
    case Editing(op, base, proposal) => !op.Finish? && Derived(c, s.log, op, base, proposal)
    case Holding(child, token) => token < s.next
    case Picked(child, token, message) => token < s.next && Chosen(s, child, token, message)
    case Finishing(child, token, message, outcome, base, proposal) =>
      && token < s.next && Chosen(s, child, token, message) && 0 < base
      && Derived(c, s.log, Finish(message, outcome), base, proposal)
  }

  predicate HasToken(x: Controller, token: nat) {
    !x.Editing? && x.token == token
  }

  ghost predicate Inv(c: Config, s: Sys) {
    && LogOk(c, s.log)
    && (forall k :: k in s.controllers ==> ControllerOk(c, s, s.controllers[k]))
    && (forall k, l :: k in s.controllers && l in s.controllers && k != l && !s.controllers[k].Editing? ==>
         !HasToken(s.controllers[l], s.controllers[k].token))
    && (forall child :: child in s.claims ==> s.claims[child] < s.next)
    && forall a, b :: a in s.claims && b in s.claims && a != b ==> s.claims[a] != s.claims[b]
  }

  // ---------- Order ----------

  /** The earlier items keep their statuses: nothing was finished. */
  ghost predicate SameStatus(a: seq<Item>, b: seq<Item>) {
    |a| <= |b| && forall i :: 0 <= i < |a| ==>
      b[i].status == a[i].status && b[i].work == a[i].work && b[i].message == a[i].message
  }

  lemma OtherChangeStatus(c: Config, s: Inbox, op: Op)
    requires !op.Finish? && Change(c, s, op).Ok?
    ensures SameStatus(s.items, Change(c, s, op).value.items)
    ensures forall i :: |s.items| <= i < |Change(c, s, op).value.items| ==>
      Change(c, s, op).value.items[i].status == Queued
  {
  }

  lemma SameStatusOrder(a: seq<Item>, b: seq<Item>)
    requires SameStatus(a, b) && InOrder(a) && forall i :: |a| <= i < |b| ==> b[i].status == Queued
    ensures InOrder(b)
    ensures forall child, message :: NextUp(a, child, message) ==> NextUp(b, child, message)
    ensures forall child, message :: Owned(a, child, message) ==> Owned(b, child, message)
  {
    forall child, message | NextUp(a, child, message) ensures NextUp(b, child, message) {
      var i := FirstOpen(a, child);
      assert OpenItem(b[i], child);
      assert forall j :: 0 <= j < i ==> (OpenItem(b[j], child) <==> OpenItem(a[j], child));
      assert FirstOpen(b, child) == i;
    }
    forall child, message | Owned(a, child, message) ensures Owned(b, child, message) {
      var i :| 0 <= i < |a| && a[i].message == message && a[i].work.child == child;
      assert b[i].message == message;
    }
  }

  lemma NextUpElsewhere(items: seq<Item>, t: seq<Item>, i: nat, other: nat, m: nat)
    requires i < |items| == |t| && forall j :: 0 <= j < |t| && j != i ==> t[j] == items[j]
    requires items[i].work.child != other && t[i].work.child != other && NextUp(items, other, m)
    ensures NextUp(t, other, m)
  {
    var j := FirstOpen(items, other);
    assert OpenItem(t[j], other);
    assert forall n :: 0 <= n < j ==> (OpenItem(t[n], other) <==> OpenItem(items[n], other));
    assert FirstOpen(t, other) == j;
  }

  /** Finishing the oldest open message of a child keeps the order and leaves the other
      children alone. */
  lemma FinishOrder(c: Config, s: Inbox, child: nat, message: nat, o: Outcome)
    requires Valid(c, s) && InOrder(s.items) && NextUp(s.items, child, message)
    requires Change(c, s, Finish(message, o)).Ok?
    ensures var t := Change(c, s, Finish(message, o)).value.items;
            && InOrder(t)
            && (forall other, m :: other != child && NextUp(s.items, other, m) ==> NextUp(t, other, m))
            && forall other, m :: Owned(s.items, other, m) ==> Owned(t, other, m)
  {
    var i := FirstOpen(s.items, child);
    FoundAt(s.items, i);
    var t := Change(c, s, Finish(message, o)).value.items;
    assert forall j :: 0 <= j < |t| && j != i ==> t[j] == s.items[j];
    forall other, m | other != child && NextUp(s.items, other, m) ensures NextUp(t, other, m) {
      NextUpElsewhere(s.items, t, i, other, m);
    }
    forall other, m | Owned(s.items, other, m) ensures Owned(t, other, m) {
      var j :| 0 <= j < |s.items| && s.items[j].message == m && s.items[j].work.child == other;
      assert t[j].message == m && t[j].work.child == other;
    }
  }

  // ---------- Steps ----------

  lemma EmptyValid(c: Config, deadline: real)
    ensures Valid(c, Inbox(deadline, [])) && InOrder([])
  {
  }

  /** Appending an edit of the latest record keeps the log. */
  lemma AppendLog(c: Config, log: seq<Inbox>, op: Op, proposal: Inbox)
    requires LogOk(c, log) && Derived(c, log, op, |log|, proposal) && InOrder(proposal.items)
    ensures LogOk(c, log + [proposal])
  {
    EmptyValid(c, proposal.deadline);
    ChangeKeeps(c, if log == [] then Inbox(proposal.deadline, []) else log[|log| - 1], op);
    ExtendLog(c, log, proposal);
  }

  lemma ExtendLog(c: Config, log: seq<Inbox>, x: Inbox)
    requires LogOk(c, log) && Valid(c, x) && InOrder(x.items) && (log != [] ==> Later(log[|log| - 1], x))
    ensures LogOk(c, log + [x])
  {
    var all := log + [x];
    forall i | 0 < i < |all| ensures Later(all[i - 1], all[i]) {
      if i < |log| { assert Later(log[i - 1], log[i]); }
    }
  }

  lemma DerivedStays(c: Config, log: seq<Inbox>, x: Inbox, op: Op, base: nat, proposal: Inbox)
    requires Derived(c, log, op, base, proposal)
    ensures Derived(c, log + [x], op, base, proposal)
  {
    assert base > 0 ==> (log + [x])[base - 1] == log[base - 1];
  }

  /** Controllers survive an append that keeps what they chose. */
  ghost predicate KeepsChoices(s: Sys, proposal: Inbox, claimed: set<nat>) {
    s.log != [] ==>
      && (forall child, m :: Owned(s.log[|s.log| - 1].items, child, m) ==> Owned(proposal.items, child, m))
      && forall child, m :: child !in claimed && NextUp(s.log[|s.log| - 1].items, child, m) ==>
           NextUp(proposal.items, child, m)
  }

  lemma ControllerStays(c: Config, s: Sys, proposal: Inbox, claimed: set<nat>, x: Controller)
    requires ControllerOk(c, s, x) && KeepsChoices(s, proposal, claimed)
    requires !x.Editing? && Claims(s, x.child, x.token) ==> x.child !in claimed
    ensures ControllerOk(c, s.(log := s.log + [proposal]), x)
  {
    var t := s.(log := s.log + [proposal]);
    match x
    case Editing(op, base, p) => DerivedStays(c, s.log, proposal, op, base, p);
    case Holding(child, token) =>
    case Picked(child, token, message) =>
    case Finishing(child, token, message, outcome, base, p) =>
      DerivedStays(c, s.log, proposal, Finish(message, outcome), base, p);
  }

  lemma OtherToken(c: Config, s: Sys, k: nat, l: nat)
    requires Inv(c, s) && k in s.controllers && l in s.controllers && k != l
    requires !s.controllers[k].Editing? && !s.controllers[l].Editing?
    requires Claims(s, s.controllers[k].child, s.controllers[k].token)
    requires Claims(s, s.controllers[l].child, s.controllers[l].token)
    ensures s.controllers[k].child != s.controllers[l].child
  {
    assert !HasToken(s.controllers[l], s.controllers[k].token);
  }

  lemma AppendKeeps(c: Config, s: Sys, k: nat)
    requires Inv(c, s) && k in s.controllers && s.controllers[k].Editing? && s.controllers[k].base == |s.log|
    ensures Inv(c, Apply(c, s, Append(k)))
  {
    var x := s.controllers[k];
    var before := if s.log == [] then Inbox(x.proposal.deadline, []) else s.log[|s.log| - 1];
    assert ControllerOk(c, s, x);
    EmptyValid(c, x.proposal.deadline);
    OtherChangeStatus(c, before, x.op);
    SameStatusOrder(before.items, x.proposal.items);
    AppendLog(c, s.log, x.op, x.proposal);
    var t := Apply(c, s, Append(k));
    forall l | l in t.controllers ensures ControllerOk(c, t, t.controllers[l]) {
      ControllerStays(c, s, x.proposal, {}, s.controllers[l]);
    }
  }

  /** The other controllers when `k` appends a result under its valid claim. */
  lemma OthersStay(c: Config, s: Sys, k: nat, proposal: Inbox, l: nat)
    requires Inv(c, s) && k in s.controllers && l in s.controllers && l != k && !s.controllers[k].Editing?
    requires Claims(s, s.controllers[k].child, s.controllers[k].token)
    requires KeepsChoices(s, proposal, {s.controllers[k].child})
    ensures ControllerOk(c, s.(log := s.log + [proposal]), s.controllers[l])
  {
    if !s.controllers[l].Editing? && Claims(s, s.controllers[l].child, s.controllers[l].token) {
      OtherToken(c, s, k, l);
    }
    ControllerStays(c, s, proposal, {s.controllers[k].child}, s.controllers[l]);
  }

  lemma ResultLog(c: Config, s: Sys, x: Controller)
    requires LogOk(c, s.log) && x.Finishing? && ControllerOk(c, s, x)
    requires x.base == |s.log| && Claims(s, x.child, x.token)
    ensures LogOk(c, s.log + [x.proposal]) && KeepsChoices(s, x.proposal, {x.child})
  {
    FinishOrder(c, s.log[|s.log| - 1], x.child, x.message, x.outcome);
    AppendLog(c, s.log, Finish(x.message, x.outcome), x.proposal);
  }

  /** The invariant after an append by `k`, from its parts. */
  lemma AppendedInv(c: Config, s: Sys, k: nat, proposal: Inbox)
    requires Inv(c, s) && LogOk(c, s.log + [proposal])
    requires forall l :: l in s.controllers && l != k ==>
      ControllerOk(c, s.(log := s.log + [proposal]), s.controllers[l])
    ensures Inv(c, Without(s, k).(log := s.log + [proposal]))
  {
    var (t, grown) := (Without(s, k).(log := s.log + [proposal]), s.(log := s.log + [proposal]));
    forall l | l in t.controllers ensures ControllerOk(c, t, t.controllers[l]) {
      assert ControllerOk(c, grown, s.controllers[l]);
      SameLogOk(c, grown, t, s.controllers[l]);
    }
  }

  lemma AppendResultKeeps(c: Config, s: Sys, k: nat)
    requires Inv(c, s) && k in s.controllers && s.controllers[k].Finishing? && s.controllers[k].base == |s.log|
    requires Claims(s, s.controllers[k].child, s.controllers[k].token)
    ensures Inv(c, Without(s, k).(log := s.log + [s.controllers[k].proposal]))
  {
    var x := s.controllers[k];
    assert ControllerOk(c, s, x);
    ResultLog(c, s, x);
    forall l | l in s.controllers && l != k ensures ControllerOk(c, s.(log := s.log + [x.proposal]), s.controllers[l]) {
      OthersStay(c, s, k, x.proposal, l);
    }
    AppendedInv(c, s, k, x.proposal);
  }

  /** Replacing one controller by a sound one that keeps its token. */
  lemma ControllerKeeps(c: Config, s: Sys, k: nat, x: Controller)
    requires Inv(c, s) && ControllerOk(c, s, x)
    requires x.Editing? || (k in s.controllers && HasToken(s.controllers[k], x.token))
    ensures Inv(c, s.(controllers := s.controllers[k := x]))
  {
    var t := s.(controllers := s.controllers[k := x]);
    forall l | l in t.controllers ensures ControllerOk(c, t, t.controllers[l]) {
      assert ControllerOk(c, s, t.controllers[l]);
      SameLogOk(c, s, t, t.controllers[l]);
    }
  }

  lemma SameLogOk(c: Config, s: Sys, t: Sys, x: Controller)
    requires ControllerOk(c, s, x) && t.log == s.log && t.next >= s.next
    requires !x.Editing? && Claims(t, x.child, x.token) ==> Claims(s, x.child, x.token)
    ensures ControllerOk(c, t, x)
  {
  }

  lemma WithoutKeeps(c: Config, s: Sys, k: nat)
    requires Inv(c, s)
    ensures Inv(c, Without(s, k))
  {
    var t := Without(s, k);
    forall l | l in t.controllers ensures ControllerOk(c, t, t.controllers[l]) {
      assert ControllerOk(c, s, s.controllers[l]);
      SameLogOk(c, s, t, s.controllers[l]);
    }
  }

  lemma ClaimKeeps(c: Config, s: Sys, k: nat, child: nat)
    requires Inv(c, s) && k !in s.controllers && child !in s.claims
    ensures Inv(c, Apply(c, s, Claim(k, child)))
  {
    var t := Apply(c, s, Claim(k, child));
    forall l | l in t.controllers ensures ControllerOk(c, t, t.controllers[l]) {
      if l != k {
        assert ControllerOk(c, s, s.controllers[l]);
        SameLogOk(c, s, t, s.controllers[l]);
      }
    }
  }

  lemma ExpireKeeps(c: Config, s: Sys, child: nat)
    requires Inv(c, s)
    ensures Inv(c, Apply(c, s, Expire(child)))
  {
    var t := Apply(c, s, Expire(child));
    forall l | l in t.controllers ensures ControllerOk(c, t, t.controllers[l]) {
      assert ControllerOk(c, s, s.controllers[l]);
      SameLogOk(c, s, t, s.controllers[l]);
    }
  }

  /** An edit of what was read is an edit of the record it was read from. */
  lemma ReadDerived(c: Config, log: seq<Inbox>, op: Op, deadline: real)
    requires Change(c, Current(log, deadline), op).Ok?
    ensures Derived(c, log, op, |log|, Change(c, Current(log, deadline), op).value)
  {
    if log == [] {
      EmptyValid(c, deadline);
      ChangeKeeps(c, Inbox(deadline, []), op);
    }
  }

  lemma ReadKeeps(c: Config, s: Sys, k: nat, op: Op, deadline: real)
    requires Inv(c, s)
    ensures Inv(c, Apply(c, s, Read(k, op, deadline)))
  {
    var r := Change(c, Current(s.log, deadline), op);
    if k !in s.controllers && !op.Finish? && r.Ok? {
      ReadDerived(c, s.log, op, deadline);
      ControllerKeeps(c, s, k, Editing(op, |s.log|, r.value));
    }
  }

  lemma PickKeeps(c: Config, s: Sys, k: nat)
    requires Inv(c, s) && k in s.controllers && s.controllers[k].Holding? && s.log != []
    ensures Inv(c, Apply(c, s, Pick(k)))
  {
    var h := s.controllers[k];
    var items := s.log[|s.log| - 1].items;
    var i := FirstOpen(items, h.child);
    assert ControllerOk(c, s, h);
    if i == |items| {
      WithoutKeeps(c, s, k);
    } else {
      ControllerKeeps(c, s, k, Picked(h.child, h.token, items[i].message));
    }
  }

  lemma ReportedOk(c: Config, s: Sys, h: Controller, outcome: Outcome)
    requires h.Picked? && ControllerOk(c, s, h) && s.log != []
    requires Change(c, s.log[|s.log| - 1], Finish(h.message, outcome)).Ok?
    ensures var proposal := Change(c, s.log[|s.log| - 1], Finish(h.message, outcome)).value;
            ControllerOk(c, s, Finishing(h.child, h.token, h.message, outcome, |s.log|, proposal))
  {
  }

  lemma ReportKeeps(c: Config, s: Sys, k: nat, outcome: Outcome, x: Controller)
    requires Inv(c, s) && k in s.controllers && s.controllers[k].Picked? && s.log != []
    requires Change(c, s.log[|s.log| - 1], Finish(s.controllers[k].message, outcome)).Ok?
    requires x == Finishing(s.controllers[k].child, s.controllers[k].token, s.controllers[k].message, outcome, |s.log|,
                            Change(c, s.log[|s.log| - 1], Finish(s.controllers[k].message, outcome)).value)
    ensures Inv(c, s.(controllers := s.controllers[k := x]))
  {
    ReportedOk(c, s, s.controllers[k], outcome);
    ControllerKeeps(c, s, k, x);
  }

  lemma AppendStepKeeps(c: Config, s: Sys, k: nat)
    requires Inv(c, s)
    ensures Inv(c, Apply(c, s, Append(k)))
  {
    WithoutKeeps(c, s, k);
    if k in s.controllers && s.controllers[k].Editing? && s.controllers[k].base == |s.log| { AppendKeeps(c, s, k); }
  }

  lemma ClaimStepKeeps(c: Config, s: Sys, k: nat, child: nat)
    requires Inv(c, s)
    ensures Inv(c, Apply(c, s, Claim(k, child)))
  {
    if k !in s.controllers && child !in s.claims { ClaimKeeps(c, s, k, child); }
  }

  lemma PickStepKeeps(c: Config, s: Sys, k: nat)
    requires Inv(c, s)
    ensures Inv(c, Apply(c, s, Pick(k)))
  {
    if k in s.controllers && s.controllers[k].Holding? && s.log != [] { PickKeeps(c, s, k); }
  }

  lemma ReportStepKeeps(c: Config, s: Sys, k: nat, outcome: Outcome)
    requires Inv(c, s)
    ensures Inv(c, Apply(c, s, Report(k, outcome)))
  {
    if k in s.controllers && s.controllers[k].Picked? && s.log != [] {
      var h := s.controllers[k];
      var r := Change(c, s.log[|s.log| - 1], Finish(h.message, outcome));
      if r.Err? {
        WithoutKeeps(c, s, k);
      } else {
        ReportKeeps(c, s, k, outcome, Finishing(h.child, h.token, h.message, outcome, |s.log|, r.value));
      }
    }
  }

  lemma StepKeeps(c: Config, s: Sys, step: Step)
    requires Inv(c, s)
    ensures Inv(c, Apply(c, s, step))
  {
    match step
    case Read(k, op, deadline) => ReadKeeps(c, s, k, op, deadline);
    case Append(k) => AppendStepKeeps(c, s, k);
    case Claim(k, child) => ClaimStepKeeps(c, s, k, child);
    case Expire(child) => ExpireKeeps(c, s, child);
    case Pick(k) => PickStepKeeps(c, s, k);
    case Report(k, outcome) => ReportStepKeeps(c, s, k, outcome);
    case AppendResult(k) => ResultKeeps(c, s, k);
    case Crash(k) => WithoutKeeps(c, s, k);
  }

  lemma ResultKeeps(c: Config, s: Sys, k: nat)
    requires Inv(c, s)
    ensures Inv(c, Apply(c, s, AppendResult(k)))
  {
    if k in s.controllers && s.controllers[k].Finishing? {
      var h := s.controllers[k];
      if !Claims(s, h.child, h.token) {
        WithoutKeeps(c, s, k);
      } else if h.base == |s.log| {
        AppendResultKeeps(c, s, k);
      } else {
        RetryKeeps(c, s, k);
      }
    }
  }

  /** A result that met a newer record is worked out again. */
  lemma RetryKeeps(c: Config, s: Sys, k: nat)
    requires Inv(c, s) && k in s.controllers && s.controllers[k].Finishing?
    ensures var h := s.controllers[k];
            Inv(c, s.(controllers := s.controllers[k := Picked(h.child, h.token, h.message)]))
  {
    var h := s.controllers[k];
    assert ControllerOk(c, s, h);
    ControllerKeeps(c, s, k, Picked(h.child, h.token, h.message));
  }

  function After(c: Config, steps: seq<Step>): Sys {
    if steps == [] then Start else Apply(c, After(c, steps[..|steps| - 1]), steps[|steps| - 1])
  }

  lemma {:induction false} InvOverRuns(c: Config, steps: seq<Step>)
    ensures Inv(c, After(c, steps))
  {
    if steps != [] {
      InvOverRuns(c, steps[..|steps| - 1]);
      StepKeeps(c, After(c, steps[..|steps| - 1]), steps[|steps| - 1]);
    }
  }

  // ---------- The main results ----------

  /** Whatever the controllers do, no record ever allocates more than the ceiling of any
      bounded dimension, and a child's results come in the order of its messages. */
  lemma SharedBudgetHolds(c: Config, steps: seq<Step>, i: nat, d: Dimension)
    requires i < |After(c, steps).log|
    ensures var items := After(c, steps).log[i].items;
            && (items != [] && Of(c.budget, d).Some? ==> Total(items, d) <= Of(c.budget, d).value)
            && InOrder(items) && DistinctMessages(items)
  {
    InvOverRuns(c, steps);
  }

  lemma {:induction false} LogLater(c: Config, log: seq<Inbox>, i: nat, j: nat)
    requires LogOk(c, log) && i < j < |log|
    ensures Later(log[i], log[j])
    decreases j
  {
    assert Later(log[j - 1], log[j]);
    if i < j - 1 {
      LogLater(c, log, i, j - 1);
      LaterTransitive(log[i], log[j - 1], log[j]);
    }
  }

  /** The deadline, the accepted work and every terminal result are the same in all later
      records. */
  lemma NothingTakenBack(c: Config, steps: seq<Step>, i: nat, j: nat)
    requires i < j < |After(c, steps).log|
    ensures Later(After(c, steps).log[i], After(c, steps).log[j])
  {
    InvOverRuns(c, steps);
    LogLater(c, After(c, steps).log, i, j);
  }

  // ---------- The retry loop ----------

  class Journal {
    var log: seq<Inbox>

    constructor ()
      ensures log == []
    {
      log := [];
    }

    method TryAppend(expected: nat, state: Inbox) returns (ok: bool)
      modifies this
      ensures ok <==> expected == |old(log)|
      ensures log == if ok then old(log) + [state] else old(log)
    {
      ok := expected == |log|;
      if ok {
        log := log + [state];
      }
    }
  }

  /** The log was only appended to. */
  twostate predicate Grown(j: Journal)
    reads j
  {
    old(j.log) <= j.log
  }

  /** Read, edit, append, and again after a conflict, at most 32 times. `others` are the
      records other controllers append while this one has the record it read. What is
      returned was computed from the record at `n`, and appended right after it unless
      nothing changed. */
  method ApplyChange(c: Config, j: Journal, op: Op, deadline: real, others: nat -> seq<Inbox>)
    returns (r: Option<Result<Inbox>>, ghost n: nat)
    modifies j
    ensures Grown(j) && n <= |j.log|
    ensures r.Some? ==> Change(c, Current(j.log[..n], deadline), op) == r.value
    ensures r.Some? && r.value.Ok? ==>
      if n < |j.log| then j.log[n] == r.value.value else n > 0 && j.log[n - 1] == r.value.value
  {
    n := 0;
    for attempt := 0 to 32
      invariant Grown(j) && n <= |j.log|
    {
      var expected := |j.log|;
      ghost var read := j.log;
      n := expected;
      assert j.log[..n] == read;
      var current := Current(j.log, deadline);
      var result := Change(c, current, op);
      if result.Err? || (result.value == current && expected > 0) {
        return Some(result), n;
      }
      j.log := j.log + others(attempt);
      var ok := j.TryAppend(expected, result.value);
      assert j.log[..n] == read;
      if ok {
        return Some(result), n;
      }
    }
    return None, n;
  }
}
