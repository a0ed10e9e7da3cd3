/**
 Failover between model candidates behind one output stream. Events of a candidate are
 held back until it shows visible output; from then on the candidate is committed.

 What a candidate does is a `Behaviour`: its events and how it ends. Cancellation and the
 deadline may end it anywhere, so they are endings like the others.
 */
module ModelRouter {
  import opened Basics

  datatype EventKind = TextDelta | TextEnd | ToolCall | Other

  datatype Ev = Ev(kind: EventKind, text: string, bytes: nat)

  datatype StopReason = Normal | ProviderError(retryable: bool) | Aborted

  datatype Failure = OperationCancelled | DeadlineExceeded | Provider(retryable: bool) | Contract

  /** `Final` is a terminal event with its message; the rest is an exception. */
  datatype Ending = Final(reason: StopReason) | Raised(failure: Failure)

  datatype Behaviour = Behaviour(events: seq<Ev>, ending: Ending)

  /** Tool calls and non-empty text are visible. */
  predicate Visible(e: Ev) {
    e.kind.ToolCall? || ((e.kind.TextDelta? || e.kind.TextEnd?) && e.text != "")
  }

  // ---------- One attempt ----------

  datatype Limits = Limits(maxEvents: nat, maxBytes: nat, maxAttempts: nat)

  datatype Attempt = Attempt(pushed: seq<Ev>, buffered: seq<Ev>, visible: bool, ending: Ending)

  /** The attempt from the given point of its stream on; `pushed` are its further pushes. */
  function Play(l: Limits, events: seq<Ev>, ending: Ending, buffered: seq<Ev>, bytes: nat, visible: bool): Attempt
    decreases |events|
  {
    if events == [] then Attempt([], buffered, visible, ending)
    else
      var e, rest := events[0], events[1..];
      if visible then
        var a := Play(l, rest, ending, buffered, bytes, true);
        a.(pushed := [e] + a.pushed)
      else
        var held := buffered + [e];
        if |held| > l.maxEvents || bytes + e.bytes > l.maxBytes then Attempt([], held, false, Raised(Contract))
        else if Visible(e) then
          var a := Play(l, rest, ending, [], bytes + e.bytes, true);
          a.(pushed := held + a.pushed)
        else Play(l, rest, ending, held, bytes + e.bytes, false)
  }

  /** What an attempt makes of the events held back so far and those to come. */
  ghost predicate Faithful(l: Limits, buffered: seq<Ev>, events: seq<Ev>, ending: Ending, visible: bool, a: Attempt) {
    && a.pushed + a.buffered <= buffered + events
    && (a.pushed + a.buffered == buffered + events || (a.ending == Raised(Contract) && !a.visible))
    && (a.visible ==> a.buffered == [] && a.ending == ending && a.pushed == buffered + events)
    && (!a.visible ==> a.pushed == [] && !visible)
    && |a.buffered| <= l.maxEvents + 1
  }

  /** An attempt that is visible from here on pushes what it held back first. */
  lemma PushedFirst(l: Limits, held: seq<Ev>, rest: seq<Ev>, ending: Ending, visible: bool, a: Attempt)
    requires Faithful(l, [], rest, ending, true, a)
    ensures Faithful(l, held, rest, ending, visible, a.(pushed := held + a.pushed))
  {
    NoneAdded(rest);
    NoneAdded(a.pushed);
    NoneAdded(held + a.pushed);
  }

  /** One more event is held back. */
  lemma HeldBack(l: Limits, buffered: seq<Ev>, e: Ev, rest: seq<Ev>, ending: Ending, a: Attempt)
    requires Faithful(l, buffered + [e], rest, ending, false, a)
    ensures Faithful(l, buffered, [e] + rest, ending, false, a)
  {
    Associative(buffered, [e], rest);
  }

  /** The event that breaks the limits ends the attempt. */
  lemma Overheld(l: Limits, buffered: seq<Ev>, e: Ev, rest: seq<Ev>, ending: Ending)
    requires |buffered| <= l.maxEvents
    ensures Faithful(l, buffered, [e] + rest, ending, false, Attempt([], buffered + [e], false, Raised(Contract)))
  {
    NoneAdded(buffered + [e]);
    Associative(buffered, [e], rest);
  }

  /** Nothing is lost or reordered; nothing is pushed before something is visible, and once
      it is, nothing stays behind; the hold-back buffer never outgrows its limit by more
      than the event that broke it. */
  lemma {:induction false} PlayIs(l: Limits, events: seq<Ev>, ending: Ending, buffered: seq<Ev>, bytes: nat,
                                  visible: bool)
    requires visible ==> buffered == []
    requires |buffered| <= l.maxEvents
    ensures Faithful(l, buffered, events, ending, visible, Play(l, events, ending, buffered, bytes, visible))
    decreases |events|
  {
    if events == [] {
      NoneAdded(buffered);
    } else {
      var e, rest := events[0], events[1..];
      assert events == [e] + rest;
      var held, used := buffered + [e], bytes + e.bytes;
      if visible {
        PlayIs(l, rest, ending, buffered, bytes, true);
        PushedFirst(l, [e], rest, ending, true, Play(l, rest, ending, buffered, bytes, true));
        NoneAdded([e] + rest);
      } else if |held| > l.maxEvents || used > l.maxBytes {
        Overheld(l, buffered, e, rest, ending);
      } else if Visible(e) {
        PlayIs(l, rest, ending, [], used, true);
        PushedFirst(l, held, rest, ending, false, Play(l, rest, ending, [], used, true));
        HeldBack(l, buffered, e, rest, ending, Play(l, events, ending, buffered, bytes, false));
      } else {
        PlayIs(l, rest, ending, held, used, false);
        HeldBack(l, buffered, e, rest, ending, Play(l, events, ending, buffered, bytes, false));
      }
    }
  }

  /** Event `k` is visible and the events up to it fit the hold-back buffer. */
  predicate ShownAt(l: Limits, events: seq<Ev>, k: nat, held: nat, bytes: nat) {
    k < |events| && Visible(events[k]) && Fits(l, events[..k + 1], held, bytes)
  }

  lemma ShownLater(l: Limits, events: seq<Ev>, k: nat, held: nat, bytes: nat)
    requires events != []
    ensures ShownAt(l, events, k, held, bytes) ==> held + 1 <= l.maxEvents && bytes + events[0].bytes <= l.maxBytes
    ensures k > 0 && held + 1 <= l.maxEvents && bytes + events[0].bytes <= l.maxBytes ==>
      (ShownAt(l, events, k, held, bytes) <==> ShownAt(l, events[1..], k - 1, held + 1, bytes + events[0].bytes))
  {
    if k < |events| {
      assert events[..k + 1][0] == events[0] && events[..k + 1][1..] == events[1..][..k];
    }
  }

  /** Commitment is exactly visibility: an attempt commits when one of its events is
      visible and the events up to it fit the buffer. */
  lemma {:induction false} VisibleExactly(l: Limits, events: seq<Ev>, ending: Ending, buffered: seq<Ev>, bytes: nat)
    ensures Play(l, events, ending, buffered, bytes, false).visible <==>
      exists k: nat :: ShownAt(l, events, k, |buffered|, bytes)
    decreases |events|
  {
    if events != [] {
      var e, rest := events[0], events[1..];
      var held, used := |buffered| + 1, bytes + e.bytes;
      var fits := held <= l.maxEvents && used <= l.maxBytes;
      forall k: nat ensures ShownAt(l, events, k, |buffered|, bytes) ==> fits {
        ShownLater(l, events, k, |buffered|, bytes);
      }
      if fits && Visible(e) {
        VisiblePlay(l, rest, ending, bytes + e.bytes);
        assert events[..1] == [e] && [e][1..] == [];
        assert ShownAt(l, events, 0, |buffered|, bytes);
      } else if fits {
        VisibleExactly(l, rest, ending, buffered + [e], bytes + e.bytes);
        if k: nat :| ShownAt(l, events, k, |buffered|, bytes) {
          ShownLater(l, events, k, |buffered|, bytes);
        }
        if k: nat :| ShownAt(l, rest, k, held, used) {
          ShownLater(l, events, k + 1, |buffered|, bytes);
        }
      }
    }
  }

  /** The events fit the hold-back buffer one after another. */
  predicate Fits(l: Limits, events: seq<Ev>, held: nat, bytes: nat)
    decreases |events|
  {
    events == [] || (held + 1 <= l.maxEvents && bytes + events[0].bytes <= l.maxBytes
                     && Fits(l, events[1..], held + 1, bytes + events[0].bytes))
  }

  lemma {:induction false} VisiblePlay(l: Limits, events: seq<Ev>, ending: Ending, bytes: nat)
    ensures Play(l, events, ending, [], bytes, true).visible
    decreases |events|
  {
    if events != [] {
      VisiblePlay(l, events[1..], ending, bytes);
    }
  }

  // ---------- What an attempt means ----------

  datatype Outcome = Success | Cancelled | Deadline | Error(retryable: bool)

  /** A requested cancellation wins over whatever the attempt returned. */
  function OutcomeOf(a: Attempt, cancelled: bool): Outcome {
    if cancelled then Cancelled
    else
      match a.ending
      case Raised(OperationCancelled) => Cancelled
      case Raised(DeadlineExceeded) => Deadline
      case Raised(Provider(retryable)) => Error(retryable)
      case Raised(Contract) => Error(false)
      case Final(Normal) => Success
      case Final(Aborted) => Cancelled
      case Final(ProviderError(retryable)) => Error(retryable)
  }

  // ---------- The route ----------

  /** An output event knows which candidate it came from. */
  datatype Out = Event(candidate: nat, e: Ev) | Done(candidate: nat) | Failed(reason: Terminal)

  datatype Terminal = ByCandidate(candidate: nat) | RouteCancelled | RouteDeadline | Exhausted | Unavailable

  datatype HealthCall = Acquired(c: nat) | RecordSuccess(c: nat) | RecordFailure(c: nat) | RecordCancelled(c: nat)

  /** Everything outside the router. The flags are read before a candidate (`cancelledBefore`,
      `lateBefore`), after its attempt (`cancelledAfter`) and at the end (`lateAtEnd`). */
  datatype World = World(
    behaviour: nat -> Behaviour,
    acquires: nat -> bool,
    cancelledBefore: nat -> bool,
    lateBefore: nat -> bool,
    cancelledAfter: nat -> bool,
    lateAtEnd: bool)

  function Tagged(c: nat, es: seq<Ev>): seq<Out> {
    seq(|es|, i requires 0 <= i < |es| => Event(c, es[i]))
  }

  function AttemptOf(l: Limits, w: World, c: nat): Attempt {
    Play(l, w.behaviour(c).events, w.behaviour(c).ending, [], 0, false)
  }

  datatype Route = Route(output: seq<Out>, contacted: seq<nat>, health: seq<HealthCall>)

  /** One candidate: what it adds to the output and whether the route is over. */
  datatype Turn = Turn(output: seq<Out>, record: HealthCall, over: bool, late: bool)

  function TurnOf(l: Limits, w: World, c: nat): Turn {
    var a := AttemptOf(l, w, c);
    var pushed, rest := Tagged(c, a.pushed), Tagged(c, a.buffered);
    match OutcomeOf(a, w.cancelledAfter(c))
    case Success => Turn(pushed + rest + [Done(c)], RecordSuccess(c), true, false)
    case Cancelled =>
      Turn(pushed + (if a.visible then rest else []) + [Failed(RouteCancelled)], RecordCancelled(c), true, false)
    case Deadline =>
      if a.visible then Turn(pushed + rest + [Failed(RouteDeadline)], RecordFailure(c), true, true)
      else Turn(pushed, RecordFailure(c), false, true)
    case Error(retryable) =>
      if a.visible || !retryable then Turn(pushed + rest + [Failed(ByCandidate(c))], RecordFailure(c), true, false)
      else Turn(pushed, RecordFailure(c), false, false)
  }

  function GiveUp(w: World, tried: nat, late: bool): Out {
    Failed(if late || w.lateAtEnd then RouteDeadline else if tried > 0 then Exhausted else Unavailable)
  }

  /** The loop over the ranked candidates, after `tried` attempts. */
  function Routing(l: Limits, w: World, ranked: seq<nat>, tried: nat): Route
    decreases |ranked|
  {
    if ranked == [] || tried >= l.maxAttempts then Route([GiveUp(w, tried, false)], [], [])
    else
      var c := ranked[0];
      if w.cancelledBefore(c) then Route([Failed(RouteCancelled)], [], [])
      else if w.lateBefore(c) then Route([GiveUp(w, tried, true)], [], [])
      else if !w.acquires(c) then Routing(l, w, ranked[1..], tried)
      else
        var t := TurnOf(l, w, c);
        if t.over then Route(t.output, [c], [Acquired(c), t.record])
        else if t.late then Route(t.output + [GiveUp(w, tried + 1, true)], [c], [Acquired(c), t.record])
        else
          var r := Routing(l, w, ranked[1..], tried + 1);
          Route(t.output + r.output, [c] + r.contacted, [Acquired(c), t.record] + r.health)
  }

  // ---------- No splicing ----------

  ghost predicate IsTerminal(o: Out) {
    !o.Event?
  }

  /** Events of one candidate, the first ones of its stream in order, then one terminal. */
  ghost predicate FromOne(l: Limits, w: World, output: seq<Out>, c: nat, n: nat) {
    && n <= |w.behaviour(c).events| && |output| == n + 1
    && output[..n] == Tagged(c, w.behaviour(c).events[..n]) && IsTerminal(output[n])
    && (output[n].Done? ==> output[n].candidate == c)
    && (output[n].Failed? && output[n].reason.ByCandidate? ==> output[n].reason.candidate == c)
  }

  ghost predicate OneTerminalOnly(output: seq<Out>) {
    |output| == 1 && output[0].Failed? && !output[0].reason.ByCandidate?
  }

  lemma AttemptFacts(l: Limits, w: World, c: nat)
    ensures var a := AttemptOf(l, w, c);
            && a.pushed + a.buffered <= w.behaviour(c).events
            && (a.visible ==> a.buffered == [] && a.pushed == w.behaviour(c).events)
            && (!a.visible ==> a.pushed == [])
  {
    PlayIs(l, w.behaviour(c).events, w.behaviour(c).ending, [], 0, false);
    assert [] + w.behaviour(c).events == w.behaviour(c).events;
  }

  lemma TaggedAppend(c: nat, a: seq<Ev>, b: seq<Ev>)
    ensures Tagged(c, a + b) == Tagged(c, a) + Tagged(c, b)
  {}

  lemma TurnFromOne(l: Limits, w: World, c: nat)
    ensures TurnOf(l, w, c).over ==> FromOne(l, w, TurnOf(l, w, c).output, c, |TurnOf(l, w, c).output| - 1)
    ensures !TurnOf(l, w, c).over ==> TurnOf(l, w, c).output == [] && !AttemptOf(l, w, c).visible
  {
    var a, t := AttemptOf(l, w, c), TurnOf(l, w, c);
    AttemptFacts(l, w, c);
    TaggedAppend(c, a.pushed, a.buffered);
    if t.over {
      var hidden := OutcomeOf(a, w.cancelledAfter(c)).Cancelled? && !a.visible;
      var shown := if hidden then a.pushed else a.pushed + a.buffered;
      assert shown <= w.behaviour(c).events;
      assert t.output == Tagged(c, shown) + [t.output[|t.output| - 1]];
      assert w.behaviour(c).events[..|shown|] == shown;
    }
  }

  /** `sub` is `xs` with some elements left out. */
  ghost predicate Subsequence(sub: seq<nat>, xs: seq<nat>) {
    sub == [] || (xs != [] && ((sub[0] == xs[0] && Subsequence(sub[1..], xs[1..])) || Subsequence(sub, xs[1..])))
  }

  lemma {:induction false} SubsequenceNoRepeats(sub: seq<nat>, xs: seq<nat>)
    requires Subsequence(sub, xs) && NoRepeats(xs)
    ensures NoRepeats(sub) && forall x :: x in sub ==> x in xs
    decreases |xs|
  {
    if sub != [] {
      assert xs == [xs[0]] + xs[1..];
      assert forall i :: 0 <= i < |xs[1..]| ==> xs[1..][i] == xs[i + 1];
      if sub[0] == xs[0] && Subsequence(sub[1..], xs[1..]) {
        SubsequenceNoRepeats(sub[1..], xs[1..]);
        assert sub == [sub[0]] + sub[1..];
        assert xs[0] !in xs[1..];
      } else {
        SubsequenceNoRepeats(sub, xs[1..]);
      }
    }
  }

  /** Every contacted candidate got one record, right after its attempt. */
  ghost predicate Paired(health: seq<HealthCall>, contacted: seq<nat>) {
    && |health| == 2 * |contacted|
    && forall i :: 0 <= i < |contacted| ==>
         health[2 * i] == Acquired(contacted[i]) && !health[2 * i + 1].Acquired? && health[2 * i + 1].c == contacted[i]
  }

  lemma PairedMore(c: nat, record: HealthCall, health: seq<HealthCall>, contacted: seq<nat>)
    requires Paired(health, contacted) && !record.Acquired? && record.c == c
    ensures Paired([Acquired(c), record] + health, [c] + contacted)
  {
    var (h, cs) := ([Acquired(c), record] + health, [c] + contacted);
    forall i | 0 <= i < |cs| ensures h[2 * i] == Acquired(cs[i]) && !h[2 * i + 1].Acquired? && h[2 * i + 1].c == cs[i] {
      if i > 0 {
        assert h[2 * i] == health[2 * (i - 1)] && h[2 * i + 1] == health[2 * (i - 1) + 1];
      }
    }
  }

  /** Candidates are contacted in rank order, each at most once, and no more than the
      limit allows; after visible output none is contacted any more. */
  ghost predicate Contacts(l: Limits, w: World, r: Route, ranked: seq<nat>, tried: nat) {
    && Subsequence(r.contacted, ranked)
    && |r.contacted| + tried <= (if tried > l.maxAttempts then tried else l.maxAttempts)
    && Paired(r.health, r.contacted)
    && forall i :: 0 <= i < |r.contacted| - 1 ==> !AttemptOf(l, w, r.contacted[i]).visible
  }

  /** The output is one terminal alone, or comes from the last candidate contacted. */
  ghost predicate Unspliced(l: Limits, w: World, r: Route) {
    OneTerminalOnly(r.output)
    || (r.contacted != [] && r.output != [] && FromOne(l, w, r.output, r.contacted[|r.contacted| - 1], |r.output| - 1))
  }

  lemma ContactsMore(l: Limits, w: World, c: nat, record: HealthCall, r: Route, rest: seq<nat>, tried: nat)
    requires tried < l.maxAttempts && Contacts(l, w, r, rest, tried + 1)
    requires !AttemptOf(l, w, c).visible && !record.Acquired? && record.c == c
    ensures Contacts(l, w, Route(r.output, [c] + r.contacted, [Acquired(c), record] + r.health), [c] + rest, tried)
  {
    var all := [c] + r.contacted;
    PairedMore(c, record, r.health, r.contacted);
    assert all[1..] == r.contacted && ([c] + rest)[1..] == rest;
    forall i | 0 <= i < |all| - 1 ensures !AttemptOf(l, w, all[i]).visible {
      if i > 0 { assert all[i] == r.contacted[i - 1]; }
    }
  }

  lemma UnsplicedMore(l: Limits, w: World, c: nat, r: Route, health: seq<HealthCall>)
    requires Unspliced(l, w, r)
    ensures Unspliced(l, w, Route(r.output, [c] + r.contacted, health))
  {
    var all := [c] + r.contacted;
    assert r.contacted != [] ==> all[|all| - 1] == r.contacted[|r.contacted| - 1];
  }

  lemma TurnStep(l: Limits, w: World, ranked: seq<nat>, tried: nat, r: Route)
    requires ranked != [] && tried < l.maxAttempts && !TurnOf(l, w, ranked[0]).over
    requires Contacts(l, w, r, ranked[1..], tried + 1) && Unspliced(l, w, r)
    ensures var t := TurnOf(l, w, ranked[0]);
            var all := Route(t.output + r.output, [ranked[0]] + r.contacted,
                             [Acquired(ranked[0]), t.record] + r.health);
            Contacts(l, w, all, ranked, tried) && Unspliced(l, w, all)
  {
    var t, c := TurnOf(l, w, ranked[0]), ranked[0];
    TurnFromOne(l, w, c);
    assert t.output + r.output == r.output;
    assert ranked == [c] + ranked[1..];
    ContactsMore(l, w, c, t.record, r, ranked[1..], tried);
    UnsplicedMore(l, w, c, r, [Acquired(c), t.record] + r.health);
  }

  lemma LastTurn(l: Limits, w: World, ranked: seq<nat>, tried: nat, r: Route)
    requires ranked != [] && tried < l.maxAttempts && r.contacted == [ranked[0]]
    requires r.health == [Acquired(ranked[0]), TurnOf(l, w, ranked[0]).record]
    ensures Contacts(l, w, r, ranked, tried)
  {
    PairedMore(ranked[0], TurnOf(l, w, ranked[0]).record, [], []);
    assert [Acquired(ranked[0]), TurnOf(l, w, ranked[0]).record] + [] == r.health && [ranked[0]] + [] == r.contacted;
    assert r.contacted[1..] == [];
  }

  /** For every behaviour of the candidates and every cancellation or deadline: no two
      models are spliced, every stream ends with one terminal event, and the limit and
      rank order are kept. */
  lemma {:induction false} NoSplicing(l: Limits, w: World, ranked: seq<nat>, tried: nat)
    ensures Contacts(l, w, Routing(l, w, ranked, tried), ranked, tried)
    ensures Unspliced(l, w, Routing(l, w, ranked, tried))
    decreases |ranked|
  {
    if ranked != [] && tried < l.maxAttempts {
      var c := ranked[0];
      var t := TurnOf(l, w, c);
      if !w.cancelledBefore(c) && !w.lateBefore(c) {
        if !w.acquires(c) {
          NoSplicing(l, w, ranked[1..], tried);
        } else {
          TurnFromOne(l, w, c);
          LastTurn(l, w, ranked, tried, Route(t.output, [c], [Acquired(c), t.record]));
          if !t.over && t.late {
            LastTurn(l, w, ranked, tried, Routing(l, w, ranked, tried));
          } else if !t.over {
            NoSplicing(l, w, ranked[1..], tried + 1);
            TurnStep(l, w, ranked, tried, Routing(l, w, ranked[1..], tried + 1));
          }
        }
      }
    }
  }

  lemma EachOnce(l: Limits, w: World, ranked: seq<nat>)
    requires NoRepeats(ranked)
    ensures var contacted := Routing(l, w, ranked, 0).contacted;
            NoRepeats(contacted) && |contacted| <= l.maxAttempts && forall c :: c in contacted ==> c in ranked
  {
    NoSplicing(l, w, ranked, 0);
    SubsequenceNoRepeats(Routing(l, w, ranked, 0).contacted, ranked);
  }

  // ---------- The loops ----------

  method OneAttempt(l: Limits, b: Behaviour) returns (a: Attempt)
    ensures a == Play(l, b.events, b.ending, [], 0, false)
  {
    var pushed: seq<Ev>, buffered: seq<Ev>, bytes: nat, visible := [], [], 0, false;
    assert b.events[0..] == b.events;
    for k := 0 to |b.events|
      invariant visible ==> buffered == []
      invariant var rest := Play(l, b.events[k..], b.ending, buffered, bytes, visible);
                rest.(pushed := pushed + rest.pushed) == Play(l, b.events, b.ending, [], 0, false)
    {
      var e := b.events[k];
      assert b.events[k..][0] == e && b.events[k..][1..] == b.events[k + 1..];
      if visible {
        Associative(pushed, [e], Play(l, b.events[k + 1..], b.ending, buffered, bytes, true).pushed);
        pushed := pushed + [e];
      } else {
        buffered, bytes := buffered + [e], bytes + e.bytes;
        if |buffered| > l.maxEvents || bytes > l.maxBytes {
          assert pushed + [] == pushed;
          return Attempt(pushed, buffered, false, Raised(Contract));
        }
        if Visible(e) {
          visible := true;
          Associative(pushed, buffered, Play(l, b.events[k + 1..], b.ending, [], bytes, true).pushed);
          pushed, buffered := pushed + buffered, [];
        }
      }
    }
    assert pushed + [] == pushed;
    return Attempt(pushed, buffered, visible, b.ending);
  }

  /** What was put out, contacted and recorded so far, and what the rest adds. */
  function Joined(output: seq<Out>, contacted: seq<nat>, health: seq<HealthCall>, rest: Route): Route {
    Route(output + rest.output, contacted + rest.contacted, health + rest.health)
  }

  lemma JoinedToNothing(r: Route)
    ensures Joined([], [], [], r) == r
  {
    NoneAdded(r.output);
    NoneAdded(r.contacted);
    NoneAdded(r.health);
  }

  lemma JoinedLast(output: seq<Out>, contacted: seq<nat>, health: seq<HealthCall>, last: Out)
    ensures Joined(output, contacted, health, Route([last], [], [])) == Route(output + [last], contacted, health)
  {
    NoneAdded(contacted);
    NoneAdded(health);
  }

  /** One contact moves from the rest to what is done. */
  lemma JoinedOn(output: seq<Out>, contacted: seq<nat>, health: seq<HealthCall>, pushed: seq<Out>, c: nat,
                 calls: seq<HealthCall>, rest: Route)
    ensures Joined(output, contacted, health, Route(pushed + rest.output, [c] + rest.contacted, calls + rest.health))
            == Joined(output + pushed, contacted + [c], health + calls, rest)
  {
    Associative(output, pushed, rest.output);
    Associative(contacted, [c], rest.contacted);
    Associative(health, calls, rest.health);
  }

  method RunRoute(l: Limits, w: World, ranked: seq<nat>) returns (r: Route)
    ensures r == Routing(l, w, ranked, 0)
  {
    var output: seq<Out>, contacted: seq<nat>, health: seq<HealthCall> := [], [], [];
    ghost var all := Routing(l, w, ranked, 0);
    JoinedToNothing(all);
    assert ranked[0..] == ranked;
    for k := 0 to |ranked|
      invariant all == Joined(output, contacted, health, Routing(l, w, ranked[k..], |contacted|))
    {
      var c := ranked[k];
      NextOf(ranked, k);
      if |contacted| >= l.maxAttempts || w.cancelledBefore(c) || w.lateBefore(c) {
        var last := if |contacted| >= l.maxAttempts then GiveUp(w, |contacted|, false)
        else if w.cancelledBefore(c) then Failed(RouteCancelled) else GiveUp(w, |contacted|, true);
        JoinedLast(output, contacted, health, last);
        return Route(output + [last], contacted, health);
      }
      if w.acquires(c) {
        var t := Contact(l, w, c);
        if t.over {
          return Route(output + t.output, contacted + [c], health + [Acquired(c), t.record]);
        }
        if t.late {
          var last := GiveUp(w, |contacted| + 1, true);
          Associative(output, t.output, [last]);
          return Route(output + t.output + [last], contacted + [c], health + [Acquired(c), t.record]);
        }
        JoinedOn(output, contacted, health, t.output, c, [Acquired(c), t.record],
                 Routing(l, w, ranked[k + 1..], |contacted| + 1));
        output, contacted, health := output + t.output, contacted + [c], health + [Acquired(c), t.record];
      }
    }
    JoinedLast(output, contacted, health, GiveUp(w, |contacted|, false));
    return Route(output + [GiveUp(w, |contacted|, false)], contacted, health);
  }

  /** The attempt and what follows from it. */
  method Contact(l: Limits, w: World, c: nat) returns (t: Turn)
    ensures t == TurnOf(l, w, c)
  {
    var a := OneAttempt(l, w.behaviour(c));
    var outcome := OutcomeOf(a, w.cancelledAfter(c));
    var pushed, rest := Tagged(c, a.pushed), Tagged(c, a.buffered);
    if outcome.Success? {
      return Turn(pushed + rest + [Done(c)], RecordSuccess(c), true, false);
    }
    if outcome.Cancelled? {
      return Turn(pushed + (if a.visible then rest else []) + [Failed(RouteCancelled)],
                  RecordCancelled(c), true, false);
    }
    if outcome.Deadline? {
      if a.visible {
        return Turn(pushed + rest + [Failed(RouteDeadline)], RecordFailure(c), true, true);
      }
      return Turn(pushed, RecordFailure(c), false, true);
    }
    if a.visible || !outcome.retryable {
      return Turn(pushed + rest + [Failed(ByCandidate(c))], RecordFailure(c), true, false);
    }
    return Turn(pushed, RecordFailure(c), false, false);
  }
}
