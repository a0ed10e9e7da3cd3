/**
 Exactly which edits of the child inbox are accepted, and what each of them changes.
 */
module InboxEdits {
  import opened Basics
  import opened ChildInbox

  /** The record with a new message at its end. */
  function Joined(s: Inbox, message: nat, w: Work): Inbox {
    s.(items := s.items + [Item(message, w, Queued, false, false, None)])
  }

  ghost predicate Known(items: seq<Item>, message: nat) {
    exists i :: 0 <= i < |items| && items[i].message == message
  }

  lemma JoinedIs(s: Inbox, message: nat, w: Work)
    ensures var t := Joined(s, message, w).items;
            |t| == |s.items| + 1 && t[..|s.items|] == s.items && t[|s.items|].work == w
  {}

  lemma JoinedFits(c: Config, s: Inbox, message: nat, w: Work, d: Dimension)
    requires WithinBudget(c, Joined(s, message, w).items) && Allocated(c, Joined(s, message, w).items)
    ensures FitsIn(c, s.items, w, d)
  {
    var t := Joined(s, message, w).items;
    JoinedIs(s, message, w);
    if Of(c.budget, d).Some? {
      assert Of(t[|s.items|].work.allocation, d).Some? && Total(t, d) <= Of(c.budget, d).value;
    }
  }

  lemma JoinedSame(s: Inbox, message: nat, w: Work, x: Item)
    requires OneConfiguration(Joined(s, message, w).items) && x in s.items && x.work.child == w.child
    ensures SameConfiguration(x.work, w)
  {
    var t := Joined(s, message, w).items;
    JoinedIs(s, message, w);
    var i :| 0 <= i < |s.items| && s.items[i] == x;
    assert t[i] == x && t[|s.items|].work == w;
  }

  lemma JoinedCounts(c: Config, s: Inbox, message: nat, w: Work)
    requires Valid(c, Joined(s, message, w))
    ensures |s.items| < c.maxMessages && |Children(s.items) + {w.child}| <= c.maxChildren
    ensures PromptBytes(s.items) + |w.prompt| <= c.maxPrompts
  {
    NewCounts(s.items, Item(message, w, Queued, false, false, None));
  }

  lemma NotFound(items: seq<Item>, message: nat)
    requires !Known(items, message)
    ensures Find(items, message) == |items|
  {}

  lemma RoomAdmits(c: Config, s: Inbox, op: Op)
    requires op.Enqueue? && !Known(s.items, op.message) && op.now < s.deadline
    requires op.work.factory in c.factories && op.work.allocation.modelCalls.Some?
    requires forall d :: FitsIn(c, s.items, op.work, d)
    requires forall x :: x in s.items && x.work.child == op.work.child ==> SameConfiguration(x.work, op.work)
    requires |s.items| < c.maxMessages && |Children(s.items) + {op.work.child}| <= c.maxChildren
    requires PromptBytes(s.items) + |op.work.prompt| <= c.maxPrompts
    ensures Admit(c, s, op) == Ok(Joined(s, op.message, op.work))
  {
    NotFound(s.items, op.message);
  }

  lemma FittingAccepted(c: Config, s: Inbox, op: Op)
    requires op.Enqueue? && !Known(s.items, op.message) && op.now < s.deadline
    requires op.work.factory in c.factories && op.work.allocation.modelCalls.Some?
    requires Valid(c, Joined(s, op.message, op.work))
    ensures Admit(c, s, op) == Ok(Joined(s, op.message, op.work))
  {
    forall d ensures FitsIn(c, s.items, op.work, d) {
      JoinedFits(c, s, op.message, op.work, d);
    }
    forall x | x in s.items && x.work.child == op.work.child ensures SameConfiguration(x.work, op.work) {
      JoinedSame(s, op.message, op.work, x);
    }
    JoinedCounts(c, s, op.message, op.work);
    RoomAdmits(c, s, op);
  }

  lemma AcceptedJoins(c: Config, s: Inbox, op: Op)
    requires op.Enqueue? && !Known(s.items, op.message) && Admit(c, s, op).Ok?
    ensures Admit(c, s, op) == Ok(Joined(s, op.message, op.work)) && op.now < s.deadline
    ensures op.work.factory in c.factories && op.work.allocation.modelCalls.Some?
  {
    NotFound(s.items, op.message);
  }

  /** A message with a new id is accepted exactly when it is well-formed, comes before the
      deadline, and the record with it keeps all limits; it then joins the end, queued. */
  lemma AcceptedIff(c: Config, s: Inbox, op: Op)
    requires Valid(c, s) && op.Enqueue? && !Known(s.items, op.message)
    ensures var t := Joined(s, op.message, op.work);
            && (Admit(c, s, op).Ok? ==> Admit(c, s, op) == Ok(t))
            && (Admit(c, s, op).Ok? <==>
                  && op.work.factory in c.factories && op.work.allocation.modelCalls.Some?
                  && op.now < s.deadline && Valid(c, t))
  {
    if Admit(c, s, op).Ok? {
      AcceptedJoins(c, s, op);
      AdmitKeeps(c, s, op);
    } else if op.work.factory in c.factories && op.work.allocation.modelCalls.Some? && op.now < s.deadline
              && Valid(c, Joined(s, op.message, op.work)) {
      FittingAccepted(c, s, op);
    }
  }

  /** Every reason for which a new message is refused is one that holds. */
  lemma RefusedFor(c: Config, s: Inbox, op: Op)
    requires op.Enqueue? && Admit(c, s, op).Err?
    ensures match Admit(c, s, op).error
            case InvalidRequest => op.work.factory !in c.factories || op.work.allocation.modelCalls.None?
            case BoundToDifferentWork =>
              exists i :: 0 <= i < |s.items| && s.items[i].message == op.message && s.items[i].work != op.work
            case DeadlineExpired => op.now >= s.deadline
            case ConfigurationChanged =>
              exists x :: x in s.items && x.work.child == op.work.child && !SameConfiguration(x.work, op.work)
            case InboxFull =>
              |s.items| >= c.maxMessages || |Children(s.items) + {op.work.child}| > c.maxChildren
            case PromptsFull => PromptBytes(s.items) + |op.work.prompt| > c.maxPrompts
            case BudgetExceeded(d) =>
              && Of(c.budget, d).Some?
              && (Of(op.work.allocation, d).None?
                  || Of(op.work.allocation, d).value + Total(s.items, d) > Of(c.budget, d).value)
            case _ => false
  {
    if Find(s.items, op.message) < |s.items| {
      assert s.items[Find(s.items, op.message)].message == op.message;
    }
  }

  /** What an edit other than a new message makes of an item. */
  function Edited(x: Item, op: Op): Item {
    match op
    case Enqueue(_, _, _) => x
    case Acknowledge(m, _) => if x.message == m then x.(acknowledged := true) else x
    case CancelChild(child) =>
      if (child == None || child == Some(x.work.child)) && !Terminal(x.status) then x.(cancelRequested := true) else x
    case Finish(m, o) =>
      if x.message == m && !Terminal(x.status) then x.(status := o.status, result := Some(o), acknowledged := false)
      else x
  }

  /** When an edit other than a new message is refused: its message is not known, the
      acknowledged text is not the one that was delivered, or a final result would be
      replaced. */
  ghost predicate Refused(items: seq<Item>, op: Op) {
    match op
    case Acknowledge(m, delivery) =>
      forall i :: 0 <= i < |items| && items[i].message == m ==> items[i].result != Some(delivery)
    case Finish(m, o) =>
      forall i :: 0 <= i < |items| && items[i].message == m ==>
        Terminal(items[i].status) && items[i].result != Some(o)
    case _ => false
  }

  /** Every other edit: a finished message carries its outcome, text and status; a
      cancellation marks the open messages of its children and no others; an
      acknowledgement marks the delivery it names. */
  lemma EditMeans(c: Config, s: Inbox, op: Op)
    requires Valid(c, s) && !op.Enqueue?
    ensures Change(c, s, op).Err? <==> Refused(s.items, op)
    ensures Change(c, s, op).Ok? ==>
      var t := Change(c, s, op).value;
      && t.deadline == s.deadline && |t.items| == |s.items|
      && forall i :: 0 <= i < |s.items| ==> t.items[i] == Edited(s.items[i], op)
  {
    if op.Acknowledge? || op.Finish? {
      var i := Find(s.items, op.message);
      forall j | 0 <= j < |s.items| && s.items[j].message == op.message ensures j == i {
        FoundAt(s.items, j);
      }
    }
  }
}
