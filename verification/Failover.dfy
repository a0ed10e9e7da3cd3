/**
 When a route goes on to the next candidate and how it ends, in terms of what the
 candidates do and of the flags the router reads.
 */
module Failover {
  import opened Basics
  import opened ModelRouter

  // ---------- What a candidate does ----------

  /** Something of the candidate's stream becomes visible. */
  ghost predicate Shows(l: Limits, w: World, c: nat) {
    exists k: nat :: ShownAt(l, w.behaviour(c).events, k, 0, 0)
  }

  /** Nothing became visible before the hold-back buffer was full. */
  ghost predicate Overfull(l: Limits, w: World, c: nat) {
    !Shows(l, w, c) && !ModelRouter.Fits(l, w.behaviour(c).events, 0, 0)
  }

  /** How the candidate's attempt ends. */
  ghost function EndOf(l: Limits, w: World, c: nat): Ending {
    if Overfull(l, w, c) then Raised(Contract) else w.behaviour(c).ending
  }

  predicate CanRetry(e: Ending) {
    e == Raised(Provider(true)) || e == Final(ProviderError(true))
  }

  predicate IsError(e: Ending) {
    e == Raised(Contract) || (e.Raised? && e.failure.Provider?) || (e.Final? && e.reason.ProviderError?)
  }

  predicate IsCancel(e: Ending) {
    e == Raised(OperationCancelled) || e == Final(Aborted)
  }

  /** Another candidate may take over: not cancelled, nothing visible, an error that may go
      away. */
  predicate HandsOver(cancelled: bool, shows: bool, e: Ending) {
    !cancelled && !shows && CanRetry(e)
  }

  ghost predicate FailsOver(l: Limits, w: World, c: nat) {
    HandsOver(w.cancelledAfter(c), Shows(l, w, c), EndOf(l, w, c))
  }

  /** The terminal event of a route that ends with this candidate. */
  function WordOf(c: nat, cancelled: bool, e: Ending): Out {
    if cancelled || IsCancel(e) then Failed(RouteCancelled)
    else if e == Final(Normal) then Done(c)
    else if e == Raised(DeadlineExceeded) then Failed(RouteDeadline)
    else Failed(ByCandidate(c))
  }

  ghost function LastWord(l: Limits, w: World, c: nat): Out {
    WordOf(c, w.cancelledAfter(c), EndOf(l, w, c))
  }

  /** What the health registry is told about it. */
  function RecordFor(c: nat, cancelled: bool, e: Ending): HealthCall {
    if cancelled || IsCancel(e) then RecordCancelled(c)
    else if e == Final(Normal) then RecordSuccess(c)
    else RecordFailure(c)
  }

  ghost function RecordOf(l: Limits, w: World, c: nat): HealthCall {
    RecordFor(c, w.cancelledAfter(c), EndOf(l, w, c))
  }

  // ---------- One attempt ----------

  /** A stream of which nothing becomes visible ends as it will, if all of it can be held back. */
  lemma {:induction false} HiddenEnds(l: Limits, events: seq<Ev>, ending: Ending, buffered: seq<Ev>, bytes: nat)
    ensures var a := Play(l, events, ending, buffered, bytes, false);
            !a.visible ==>
              a.ending == if ModelRouter.Fits(l, events, |buffered|, bytes) then ending else Raised(Contract)
    decreases |events|
  {
    if events != [] {
      var e, rest := events[0], events[1..];
      if |buffered| + 1 <= l.maxEvents && bytes + e.bytes <= l.maxBytes {
        if Visible(e) {
          VisiblePlay(l, rest, ending, bytes + e.bytes);
        } else {
          HiddenEnds(l, rest, ending, buffered + [e], bytes + e.bytes);
        }
      }
    }
  }

  lemma AttemptIs(l: Limits, w: World, c: nat)
    ensures var a := AttemptOf(l, w, c);
            && (a.visible <==> Shows(l, w, c)) && a.ending == EndOf(l, w, c)
            && (!Overfull(l, w, c) ==> a.pushed + a.buffered == w.behaviour(c).events)
  {
    var b := w.behaviour(c);
    VisibleExactly(l, b.events, b.ending, [], 0);
    HiddenEnds(l, b.events, b.ending, [], 0);
    HiddenHolds(l, b.events, b.ending, [], 0);
    PlayIs(l, b.events, b.ending, [], 0, false);
    NoneAdded(b.events);
  }

  lemma {:induction false} HiddenHolds(l: Limits, events: seq<Ev>, ending: Ending, buffered: seq<Ev>, bytes: nat)
    ensures var a := Play(l, events, ending, buffered, bytes, false);
            !a.visible && ModelRouter.Fits(l, events, |buffered|, bytes) ==>
            a.pushed == [] && a.buffered == buffered + events
    decreases |events|
  {
    if events == [] {
      NoneAdded(buffered);
    } else {
      var e, rest := events[0], events[1..];
      if |buffered| + 1 <= l.maxEvents && bytes + e.bytes <= l.maxBytes {
        if Visible(e) {
          VisiblePlay(l, rest, ending, bytes + e.bytes);
        } else {
          HiddenHolds(l, rest, ending, buffered + [e], bytes + e.bytes);
          Associative(buffered, [e], rest);
          assert [e] + rest == events;
        }
      }
    }
  }

  /** The events of the candidate a route ends with that reach the output: all of them if
      it was committed or ended by itself, none if it was cancelled or late before. */
  predicate PartIs(c: nat, events: seq<Ev>, shows: bool, overfull: bool, word: Out, output: seq<Out>) {
    output != [] &&
    var part := output[..|output| - 1];
    && (shows ==> part == Tagged(c, events))
    && (!shows && word in {Failed(RouteCancelled), Failed(RouteDeadline)} ==> part == [])
    && (word.Done? || (word == Failed(ByCandidate(c)) && !overfull) ==> part == Tagged(c, events))
  }

  ghost predicate RightPart(l: Limits, w: World, c: nat, output: seq<Out>) {
    PartIs(c, w.behaviour(c).events, Shows(l, w, c), Overfull(l, w, c), LastWord(l, w, c), output)
  }

  /** What an attempt with this record comes to. */
  lemma TurnSays(l: Limits, w: World, c: nat, shows: bool, e: Ending)
    requires AttemptOf(l, w, c).visible == shows && AttemptOf(l, w, c).ending == e
    ensures var (t, cancelled) := (TurnOf(l, w, c), w.cancelledAfter(c));
            && t.record == RecordFor(c, cancelled, e)
            && (HandsOver(cancelled, shows, e) <==> !t.over && !t.late)
            && (!t.over ==> t.output == [])
            && (t.over ==> t.output != [] && t.output[|t.output| - 1] == WordOf(c, cancelled, e))
            && (!t.over && t.late ==> !shows && WordOf(c, cancelled, e) == Failed(RouteDeadline))
  {
    AttemptFacts(l, w, c);
  }

  lemma TurnPart(l: Limits, w: World, c: nat, shows: bool, overfull: bool, e: Ending)
    requires AttemptOf(l, w, c).visible == shows && AttemptOf(l, w, c).ending == e && TurnOf(l, w, c).over
    requires var a := AttemptOf(l, w, c); !overfull ==> a.pushed + a.buffered == w.behaviour(c).events
    requires overfull ==> e == Raised(Contract)
    ensures PartIs(c, w.behaviour(c).events, shows, overfull, WordOf(c, w.cancelledAfter(c), e), TurnOf(l, w, c).output)
  {
    var a, t := AttemptOf(l, w, c), TurnOf(l, w, c);
    AttemptFacts(l, w, c);
    TaggedAppend(c, a.pushed, a.buffered);
    NoneAdded(a.pushed);
    var shown := if OutcomeOf(a, w.cancelledAfter(c)).Cancelled? && !a.visible then [] else a.pushed + a.buffered;
    TurnOutput(l, w, c);
    assert t.output[..|t.output| - 1] == Tagged(c, shown);
  }

  lemma OverfullEnd(l: Limits, w: World, c: nat)
    ensures Overfull(l, w, c) ==> EndOf(l, w, c) == Raised(Contract)
  {}

  /** One contact: it hands over, or it decides the route. */
  lemma TurnIs(l: Limits, w: World, c: nat)
    ensures var t := TurnOf(l, w, c);
            && t.record == RecordOf(l, w, c)
            && (FailsOver(l, w, c) <==> !t.over && !t.late)
            && (!t.over ==> t.output == [])
            && (t.over ==>
                  t.output != [] && t.output[|t.output| - 1] == LastWord(l, w, c) && RightPart(l, w, c, t.output))
            && (!t.over && t.late ==>
                  LastWord(l, w, c) == Failed(RouteDeadline) && RightPart(l, w, c, [Failed(RouteDeadline)]))
  {
    AttemptIs(l, w, c);
    OverfullEnd(l, w, c);
    TurnSays(l, w, c, Shows(l, w, c), EndOf(l, w, c));
    if TurnOf(l, w, c).over {
      TurnPart(l, w, c, Shows(l, w, c), Overfull(l, w, c), EndOf(l, w, c));
    }
  }

  lemma TurnOutput(l: Limits, w: World, c: nat)
    requires TurnOf(l, w, c).over
    ensures var (a, t) := (AttemptOf(l, w, c), TurnOf(l, w, c));
            && t.output != []
            && t.output == (if OutcomeOf(a, w.cancelledAfter(c)).Cancelled? && !a.visible then []
                            else Tagged(c, a.pushed + a.buffered)) + [t.output[|t.output| - 1]]
  {
    var a := AttemptOf(l, w, c);
    AttemptFacts(l, w, c);
    TaggedAppend(c, a.pushed, a.buffered);
    NoneAdded(Tagged(c, a.pushed));
  }

  // ---------- The whole route ----------

  /** The candidates that can be acquired, in order. */
  function Acquirable(w: World, cs: seq<nat>): seq<nat> {
    if cs == [] then [] else (if w.acquires(cs[0]) then [cs[0]] else []) + Acquirable(w, cs[1..])
  }

  /** The route looked at the first `m` candidates, contacted those it could acquire, and went
      on from each but the last. */
  ghost predicate Walked(l: Limits, w: World, ranked: seq<nat>, m: nat, r: Route) {
    && m <= |ranked| && r.contacted == Acquirable(w, ranked[..m])
    && (forall i :: 0 <= i < m ==> !w.cancelledBefore(ranked[i]) && !w.lateBefore(ranked[i]))
    && (forall i :: 0 <= i < |r.contacted| - 1 ==> FailsOver(l, w, r.contacted[i]))
    && |r.health| == 2 * |r.contacted|
    && forall i :: 0 <= i < |r.contacted| ==> r.health[2 * i + 1] == RecordOf(l, w, r.contacted[i])
  }

  /** Some contacted candidate decided the route. */
  ghost predicate Decided(l: Limits, w: World, r: Route) {
    r.contacted != [] && !FailsOver(l, w, r.contacted[|r.contacted| - 1])
  }

  /** The terminal event of a route that no candidate decided. */
  ghost predicate Undecided(l: Limits, w: World, ranked: seq<nat>, tried: nat, m: nat, r: Route) {
    var all := tried + |r.contacted|;
    |r.output| == 1 && m <= |ranked| &&
    var o := r.output[0];
    if m == |ranked| || all >= l.maxAttempts then
      o == Failed(if w.lateAtEnd then RouteDeadline else if all > 0 then Exhausted else Unavailable)
    else if w.cancelledBefore(ranked[m]) then o == Failed(RouteCancelled)
    else o == Failed(RouteDeadline) && w.lateBefore(ranked[m])
  }

  /** How the route ends. */
  ghost predicate Ends(l: Limits, w: World, ranked: seq<nat>, tried: nat, m: nat, r: Route) {
    if Decided(l, w, r) then
      var c := r.contacted[|r.contacted| - 1];
      && 0 < m <= |ranked| && c == ranked[m - 1] && r.output != []
      && r.output[|r.output| - 1] == LastWord(l, w, c) && RightPart(l, w, c, r.output)
    else Undecided(l, w, ranked, tried, m, r)
  }

  lemma AcquirableHead(w: World, ranked: seq<nat>, m: nat)
    requires m < |ranked|
    ensures Acquirable(w, ranked[..m + 1]) ==
            (if w.acquires(ranked[0]) then [ranked[0]] else []) + Acquirable(w, ranked[1..][..m])
  {
    assert ranked[..m + 1][0] == ranked[0] && ranked[..m + 1][1..] == ranked[1..][..m];
  }

  lemma UndecidedSkip(l: Limits, w: World, ranked: seq<nat>, tried: nat, more: nat, m: nat, r: Route, all: Route)
    requires ranked != [] && all.output == r.output && more + |r.contacted| == tried + |all.contacted|
    requires Undecided(l, w, ranked[1..], more, m, r)
    ensures Undecided(l, w, ranked, tried, m + 1, all)
  {
    if m < |ranked| - 1 { assert ranked[1..][m] == ranked[m + 1]; }
  }

  lemma PathMore(w: World, ranked: seq<nat>, m: nat)
    requires ranked != [] && !w.cancelledBefore(ranked[0]) && !w.lateBefore(ranked[0]) && m < |ranked|
    requires forall i :: 0 <= i < m ==> !w.cancelledBefore(ranked[1..][i]) && !w.lateBefore(ranked[1..][i])
    ensures forall i :: 0 <= i < m + 1 ==> !w.cancelledBefore(ranked[i]) && !w.lateBefore(ranked[i])
  {
    forall i | 0 < i < m + 1 ensures !w.cancelledBefore(ranked[i]) && !w.lateBefore(ranked[i]) {
      assert ranked[i] == ranked[1..][i - 1];
    }
  }

  lemma WalkedSkip(l: Limits, w: World, ranked: seq<nat>, tried: nat, m: nat, r: Route)
    requires ranked != [] && !w.acquires(ranked[0]) && !w.cancelledBefore(ranked[0]) && !w.lateBefore(ranked[0])
    requires Walked(l, w, ranked[1..], m, r) && Ends(l, w, ranked[1..], tried, m, r)
    ensures Walked(l, w, ranked, m + 1, r) && Ends(l, w, ranked, tried, m + 1, r)
  {
    AcquirableHead(w, ranked, m);
    NoneAdded(r.contacted);
    PathMore(w, ranked, m);
    if !Decided(l, w, r) { UndecidedSkip(l, w, ranked, tried, tried, m, r, r); }
  }

  lemma WalkedOn(l: Limits, w: World, ranked: seq<nat>, tried: nat, m: nat, r: Route)
    requires ranked != [] && w.acquires(ranked[0]) && !w.cancelledBefore(ranked[0]) && !w.lateBefore(ranked[0])
    requires FailsOver(l, w, ranked[0])
    requires Walked(l, w, ranked[1..], m, r) && Ends(l, w, ranked[1..], tried + 1, m, r)
    ensures var all := Route(r.output, [ranked[0]] + r.contacted,
                             [Acquired(ranked[0]), RecordOf(l, w, ranked[0])] + r.health);
            Walked(l, w, ranked, m + 1, all) && Ends(l, w, ranked, tried, m + 1, all)
  {
    var c := ranked[0];
    var all := Route(r.output, [c] + r.contacted, [Acquired(c), RecordOf(l, w, c)] + r.health);
    AcquirableHead(w, ranked, m);
    PathMore(w, ranked, m);
    if !Decided(l, w, r) { UndecidedSkip(l, w, ranked, tried, tried + 1, m, r, all); }
    RecordsMore(l, w, c, r);
    if r.contacted != [] {
      assert all.contacted[|all.contacted| - 1] == r.contacted[|r.contacted| - 1];
    }
  }

  lemma RecordsMore(l: Limits, w: World, c: nat, r: Route)
    requires FailsOver(l, w, c) && |r.health| == 2 * |r.contacted|
    requires forall i :: 0 <= i < |r.contacted| - 1 ==> FailsOver(l, w, r.contacted[i])
    requires forall i :: 0 <= i < |r.contacted| ==> r.health[2 * i + 1] == RecordOf(l, w, r.contacted[i])
    ensures var (contacted, health) := ([c] + r.contacted, [Acquired(c), RecordOf(l, w, c)] + r.health);
            && |health| == 2 * |contacted|
            && (forall i :: 0 <= i < |contacted| - 1 ==> FailsOver(l, w, contacted[i]))
            && forall i :: 0 <= i < |contacted| ==> health[2 * i + 1] == RecordOf(l, w, contacted[i])
  {
    var (contacted, health) := ([c] + r.contacted, [Acquired(c), RecordOf(l, w, c)] + r.health);
    forall i | 0 <= i < |contacted| ensures health[2 * i + 1] == RecordOf(l, w, contacted[i]) {
      if i > 0 { assert health[2 * i + 1] == r.health[2 * (i - 1) + 1]; }
    }
    forall i | 0 <= i < |contacted| - 1 ensures FailsOver(l, w, contacted[i]) {
      if i > 0 { assert contacted[i] == r.contacted[i - 1]; }
    }
  }

  lemma WalkedLast(l: Limits, w: World, ranked: seq<nat>, tried: nat, r: Route)
    requires ranked != [] && w.acquires(ranked[0]) && !w.cancelledBefore(ranked[0]) && !w.lateBefore(ranked[0])
    requires !FailsOver(l, w, ranked[0]) && r.contacted == [ranked[0]] && r.output != []
    requires r.output[|r.output| - 1] == LastWord(l, w, ranked[0]) && RightPart(l, w, ranked[0], r.output)
    requires r.health == [Acquired(ranked[0]), RecordOf(l, w, ranked[0])]
    ensures Walked(l, w, ranked, 1, r) && Ends(l, w, ranked, tried, 1, r)
  {
    assert ranked[..1] == [ranked[0]] && [ranked[0]][1..] == [];
  }

  lemma WalkedNone(l: Limits, w: World, ranked: seq<nat>, tried: nat, r: Route)
    requires r.contacted == [] && r.health == [] && Undecided(l, w, ranked, tried, 0, r)
    ensures Walked(l, w, ranked, 0, r) && Ends(l, w, ranked, tried, 0, r)
  {
    assert ranked[..0] == [];
  }

  /** What the first contact makes of the route. */
  lemma ContactIs(l: Limits, w: World, ranked: seq<nat>, tried: nat)
    requires ranked != [] && tried < l.maxAttempts && w.acquires(ranked[0])
    requires !w.cancelledBefore(ranked[0]) && !w.lateBefore(ranked[0])
    ensures var (c, r) := (ranked[0], Routing(l, w, ranked, tried));
            var (rest, calls) := (Routing(l, w, ranked[1..], tried + 1), [Acquired(c), RecordOf(l, w, c)]);
            if FailsOver(l, w, c) then r == Route(rest.output, [c] + rest.contacted, calls + rest.health)
            else r.contacted == [c] && r.health == calls && r.output != []
                 && r.output[|r.output| - 1] == LastWord(l, w, c) && RightPart(l, w, c, r.output)
  {
    TurnIs(l, w, ranked[0]);
    NoneAdded(Routing(l, w, ranked[1..], tried + 1).output);
    NoneAdded([GiveUp(w, tried + 1, true)]);
  }

  /** A route that looked at `m` candidates. */
  ghost predicate RouteIs(l: Limits, w: World, ranked: seq<nat>, tried: nat, m: nat) {
    var r := Routing(l, w, ranked, tried);
    Walked(l, w, ranked, m, r) && Ends(l, w, ranked, tried, m, r)
  }

  lemma RouteSkips(l: Limits, w: World, ranked: seq<nat>, tried: nat, m: nat)
    requires ranked != [] && tried < l.maxAttempts && !w.acquires(ranked[0])
    requires !w.cancelledBefore(ranked[0]) && !w.lateBefore(ranked[0]) && RouteIs(l, w, ranked[1..], tried, m)
    ensures RouteIs(l, w, ranked, tried, m + 1)
  {
    assert Routing(l, w, ranked, tried) == Routing(l, w, ranked[1..], tried);
    WalkedSkip(l, w, ranked, tried, m, Routing(l, w, ranked[1..], tried));
  }

  lemma RouteGoesOn(l: Limits, w: World, ranked: seq<nat>, tried: nat, m: nat)
    requires ranked != [] && tried < l.maxAttempts && w.acquires(ranked[0]) && FailsOver(l, w, ranked[0])
    requires !w.cancelledBefore(ranked[0]) && !w.lateBefore(ranked[0]) && RouteIs(l, w, ranked[1..], tried + 1, m)
    ensures RouteIs(l, w, ranked, tried, m + 1)
  {
    ContactIs(l, w, ranked, tried);
    WalkedOn(l, w, ranked, tried, m, Routing(l, w, ranked[1..], tried + 1));
  }

  lemma RouteStops(l: Limits, w: World, ranked: seq<nat>, tried: nat)
    requires ranked != [] && tried < l.maxAttempts && w.acquires(ranked[0]) && !FailsOver(l, w, ranked[0])
    requires !w.cancelledBefore(ranked[0]) && !w.lateBefore(ranked[0])
    ensures RouteIs(l, w, ranked, tried, 1)
  {
    ContactIs(l, w, ranked, tried);
    WalkedLast(l, w, ranked, tried, Routing(l, w, ranked, tried));
  }

  lemma RouteEnds(l: Limits, w: World, ranked: seq<nat>, tried: nat)
    requires ranked == [] || tried >= l.maxAttempts || w.cancelledBefore(ranked[0]) || w.lateBefore(ranked[0])
    ensures RouteIs(l, w, ranked, tried, 0)
  {
    WalkedNone(l, w, ranked, tried, Routing(l, w, ranked, tried));
  }

  /** Every route: it contacts exactly the candidates it can acquire, goes on from one to the
      next exactly when the first fails over, and ends as its last candidate says, or, when
      none decided it, for want of candidates, attempts or time. */
  lemma {:induction false} RouteExact(l: Limits, w: World, ranked: seq<nat>, tried: nat) returns (m: nat)
    ensures RouteIs(l, w, ranked, tried, m)
    decreases |ranked|
  {
    if ranked == [] || tried >= l.maxAttempts || w.cancelledBefore(ranked[0]) || w.lateBefore(ranked[0]) {
      m := 0;
      RouteEnds(l, w, ranked, tried);
    } else if !w.acquires(ranked[0]) {
      m := RouteExact(l, w, ranked[1..], tried);
      RouteSkips(l, w, ranked, tried, m);
      m := m + 1;
    } else if FailsOver(l, w, ranked[0]) {
      m := RouteExact(l, w, ranked[1..], tried + 1);
      RouteGoesOn(l, w, ranked, tried, m);
      m := m + 1;
    } else {
      m := 1;
      RouteStops(l, w, ranked, tried);
    }
  }

  lemma {:induction false} AcquirableOnly(w: World, cs: seq<nat>)
    ensures forall c :: c in Acquirable(w, cs) <==> c in cs && w.acquires(c)
  {
    if cs != [] {
      AcquirableOnly(w, cs[1..]);
      assert cs == [cs[0]] + cs[1..];
    }
  }

  /** What the terminal event says: success of the last candidate contacted, an error of it
      that came too late or may not go away, or that nobody else could be tried. */
  ghost predicate Tells(l: Limits, w: World, ranked: seq<nat>, c: nat, o: Out, r: Route) {
    var n := |r.contacted|;
    && |r.health| == 2 * n
    && (o == Done(c) <==>
          n > 0 && r.contacted[n - 1] == c && !w.cancelledAfter(c) && EndOf(l, w, c) == Final(Normal))
    && (o == Done(c) ==> n > 0 && r.health[2 * n - 1] == RecordSuccess(c))
    && (o == Failed(ByCandidate(c)) <==>
          && n > 0 && r.contacted[n - 1] == c && !w.cancelledAfter(c) && IsError(EndOf(l, w, c))
          && (Shows(l, w, c) || !CanRetry(EndOf(l, w, c))))
    && (o == Failed(Exhausted) || o == Failed(Unavailable) ==>
          && (o == Failed(Unavailable) <==> n == 0)
          && (forall i :: 0 <= i < n ==> FailsOver(l, w, r.contacted[i]))
          && (n < l.maxAttempts ==> forall d :: d in ranked && w.acquires(d) ==> d in r.contacted))
  }

  /** What a caller can read off the terminal event of a route. */
  lemma TerminalMeans(l: Limits, w: World, ranked: seq<nat>, c: nat)
    ensures var r := Routing(l, w, ranked, 0);
            r.output != [] && Tells(l, w, ranked, c, r.output[|r.output| - 1], r)
  {
    var m := RouteExact(l, w, ranked, 0);
    var r := Routing(l, w, ranked, 0);
    if Decided(l, w, r) {
      DecidedTells(l, w, ranked, m, r, c);
    } else {
      UndecidedTells(l, w, ranked, m, r, c);
    }
  }

  lemma DecidedTells(l: Limits, w: World, ranked: seq<nat>, m: nat, r: Route, c: nat)
    requires Walked(l, w, ranked, m, r) && Ends(l, w, ranked, 0, m, r) && Decided(l, w, r)
    ensures Tells(l, w, ranked, c, r.output[|r.output| - 1], r)
  {
    var n := |r.contacted|;
    assert r.health[2 * (n - 1) + 1] == RecordOf(l, w, r.contacted[n - 1]);
  }

  lemma UndecidedTells(l: Limits, w: World, ranked: seq<nat>, m: nat, r: Route, c: nat)
    requires Walked(l, w, ranked, m, r) && Undecided(l, w, ranked, 0, m, r) && !Decided(l, w, r)
    ensures Tells(l, w, ranked, c, r.output[0], r)
  {
    AcquirableOnly(w, ranked[..m]);
    UndecidedOutput(l, w, ranked, m, r);
    if m == |ranked| { assert ranked[..m] == ranked; }
    AllFailOver(l, w, r);
  }

  lemma UndecidedOutput(l: Limits, w: World, ranked: seq<nat>, m: nat, r: Route)
    requires Undecided(l, w, ranked, 0, m, r)
    ensures var (o, n) := (r.output[0], |r.contacted|);
            && o in {Failed(RouteCancelled), Failed(RouteDeadline), Failed(Exhausted), Failed(Unavailable)}
            && (o in {Failed(Exhausted), Failed(Unavailable)} ==>
                  (m == |ranked| || n >= l.maxAttempts) && (o == Failed(Unavailable) <==> n == 0))
  {}

  lemma AllFailOver(l: Limits, w: World, r: Route)
    requires forall i :: 0 <= i < |r.contacted| - 1 ==> FailsOver(l, w, r.contacted[i])
    requires !Decided(l, w, r)
    ensures forall i :: 0 <= i < |r.contacted| ==> FailsOver(l, w, r.contacted[i])
    ensures r.contacted != [] ==>
      var c := r.contacted[|r.contacted| - 1]; !w.cancelledAfter(c) && !Shows(l, w, c) && CanRetry(EndOf(l, w, c))
  {}
}
