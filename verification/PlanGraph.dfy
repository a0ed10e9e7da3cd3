/**
 The dependency graph of a plan. The check before a run is a depth-first search; it
 accepts exactly the plans without a cycle. A task is its position in the sorted order of
 task ids.
 */
module PlanGraph {

  type Plan = map<nat, set<nat>>

  /** Every dependency is a task of the plan. */
  ghost predicate Complete(p: Plan) {
    forall x, y :: x in p && y in p[x] ==> y in p
  }

  /** A walk along dependencies. */
  ghost predicate Path(p: Plan, path: seq<nat>) {
    && (forall i :: 0 <= i < |path| ==> path[i] in p)
    && forall i :: 0 <= i < |path| - 1 ==> path[i + 1] in p[path[i]]
  }

  ghost predicate Cycle(p: Plan, path: seq<nat>) {
    Path(p, path) && |path| >= 2 && path[0] == path[|path| - 1]
  }

  ghost predicate Acyclic(p: Plan) {
    forall path :: !Cycle(p, path)
  }

  /** An order in which every task comes after its dependencies. */
  ghost predicate Sorted(p: Plan, order: seq<nat>) {
    && (forall i :: 0 <= i < |order| ==> order[i] in p)
    && (forall i, j :: 0 <= i < j < |order| ==> order[i] != order[j])
    && forall i, y :: 0 <= i < |order| && y in p[order[i]] ==> y in order[..i]
  }

  /** Along a walk the positions in a sorted order go down. */
  lemma {:induction false} PositionsDecrease(p: Plan, order: seq<nat>, path: seq<nat>, at: nat) returns (last: nat)
    requires Sorted(p, order) && Path(p, path) && path != [] && at < |order| && order[at] == path[0]
    ensures last < |order| && order[last] == path[|path| - 1] && last <= at && (|path| > 1 ==> last < at)
    decreases |path|
  {
    if |path| == 1 {
      last := at;
    } else {
      assert path[1] in p[path[0]] && path[1] in order[..at];
      var next :| 0 <= next < at && order[next] == path[1];
      assert forall i :: 0 <= i < |path| - 1 ==> path[1..][i] == path[i + 1];
      last := PositionsDecrease(p, order, path[1..], next);
    }
  }

  /** A plan whose tasks can be sorted has no cycle. */
  lemma SortedAcyclic(p: Plan, order: seq<nat>)
    requires Sorted(p, order) && forall x :: x in p ==> x in order
    ensures Acyclic(p)
  {
    forall path ensures !Cycle(p, path) {
      if Cycle(p, path) {
        assert path[0] in order;
        var at :| 0 <= at < |order| && order[at] == path[0];
        var last := PositionsDecrease(p, order, path, at);
      }
    }
  }

  // ---------- The search ----------

  /** The tasks being visited, as the call stack lists them; each depends on the next. */
  ghost predicate Stack(p: Plan, stack: seq<nat>, visiting: set<nat>) {
    Path(p, stack) && forall x :: x in visiting <==> x in stack
  }

  /** The finished tasks, in the order they were finished. */
  ghost predicate Finished(p: Plan, order: seq<nat>, visited: set<nat>) {
    Sorted(p, order) && forall x :: x in visited <==> x in order
  }

  lemma FinishOne(p: Plan, order: seq<nat>, visited: set<nat>, x: nat)
    requires Finished(p, order, visited) && x in p && x !in visited && p[x] <= visited
    ensures Finished(p, order + [x], visited + {x})
  {
    var all := order + [x];
    forall i, y | 0 <= i < |all| && y in p[all[i]] ensures y in all[..i] {
      if i < |order| {
        assert all[..i] == order[..i];
      } else {
        assert all[..i] == order;
      }
    }
  }

  /** Meeting a task that is still being visited closes a cycle. */
  lemma MeetsItself(p: Plan, stack: seq<nat>, x: nat) returns (cycle: seq<nat>)
    requires Path(p, stack) && x in p && x in stack && stack != [] && x in p[stack[|stack| - 1]]
    ensures Cycle(p, cycle)
  {
    var at :| 0 <= at < |stack| && stack[at] == x;
    cycle := stack[at..] + [x];
  }

  /** Without a cycle a task and all it depends on can be added to any sorted order. */
  lemma {:induction false} SortOne(p: Plan, x: nat, visiting: set<nat>, stack: seq<nat>, order: seq<nat>)
    returns (sorted: seq<nat>)
    requires Complete(p) && Acyclic(p) && x in p && visiting <= p.Keys
    requires Stack(p, stack, visiting) && Sorted(p, order)
    requires stack != [] ==> x in p[stack[|stack| - 1]]
    ensures Sorted(p, sorted) && x in sorted && forall y :: y in order ==> y in sorted
    decreases p.Keys - visiting
  {
    sorted := order;
    if x in visiting {
      var cycle := MeetsItself(p, stack, x);
    }
    if x !in order {
      var here := stack + [x];
      assert Stack(p, here, visiting + {x});
      var remaining := p[x];
      while remaining != {}
        invariant remaining <= p[x] && Sorted(p, sorted) && forall y :: y in order ==> y in sorted
        invariant forall y :: y in p[x] && y !in remaining ==> y in sorted
        decreases remaining
      {
        var y :| y in remaining;
        remaining := remaining - {y};
        sorted := SortOne(p, y, visiting + {x}, here, sorted);
      }
      if x !in sorted {
        var done := set y | y in sorted;
        FinishOne(p, sorted, done, x);
        sorted := sorted + [x];
      }
    }
  }

  /** The tasks of a plan without a cycle can be put after their dependencies. */
  lemma Sorts(p: Plan) returns (order: seq<nat>)
    requires Complete(p) && Acyclic(p)
    ensures Sorted(p, order) && forall x :: x in p ==> x in order
  {
    order := [];
    var remaining := p.Keys;
    while remaining != {}
      invariant remaining <= p.Keys && Sorted(p, order)
      invariant forall x :: x in p && x !in remaining ==> x in order
      decreases remaining
    {
      var x :| x in remaining;
      remaining := remaining - {x};
      order := SortOne(p, x, {}, [], order);
    }
  }

  /** `visit` of the search: it sorts `x` and all it depends on, or meets a cycle. */
  method Visit(p: Plan, x: nat, visiting: set<nat>, visited: set<nat>, ghost stack: seq<nat>, ghost order: seq<nat>)
    returns (ok: bool, seen: set<nat>, ghost sorted: seq<nat>)
    requires Complete(p) && x in p && visiting <= p.Keys
    requires Stack(p, stack, visiting) && Finished(p, order, visited)
    requires stack != [] ==> x in p[stack[|stack| - 1]]
    ensures ok ==> visited <= seen && x in seen && Finished(p, sorted, seen)
    ensures !ok ==> !Acyclic(p)
    decreases p.Keys - visiting
  {
    sorted := order;
    if x in visited {
      return true, visited, order;
    }
    if x in visiting {
      ghost var cycle := MeetsItself(p, stack, x);
      return false, visited, order;
    }
    ghost var here := stack + [x];
    assert Stack(p, here, visiting + {x});
    var remaining := p[x];
    seen := visited;
    while remaining != {}
      invariant remaining <= p[x] && Finished(p, sorted, seen) && visited <= seen
      invariant forall y :: y in p[x] && y !in remaining ==> y in seen
      decreases remaining
    {
      var y :| y in remaining;
      remaining := remaining - {y};
      ok, seen, sorted := Visit(p, y, visiting + {x}, seen, here, sorted);
      if !ok {
        return;
      }
    }
    if x !in seen {
      FinishOne(p, sorted, seen, x);
      sorted := sorted + [x];
    }
    ok, seen := true, seen + {x};
  }

  /** The check accepts a plan exactly when its dependencies have no cycle. */
  method AssertAcyclic(p: Plan) returns (ok: bool)
    requires Complete(p)
    ensures ok <==> Acyclic(p)
  {
    var visited: set<nat> := {};
    ghost var order: seq<nat> := [];
    var remaining := p.Keys;
    while remaining != {}
      invariant remaining <= p.Keys && Finished(p, order, visited)
      invariant forall x :: x in p && x !in remaining ==> x in visited
      decreases remaining
    {
      var x :| x in remaining;
      remaining := remaining - {x};
      ok, visited, order := Visit(p, x, {}, visited, [], order);
      if !ok {
        return;
      }
    }
    SortedAcyclic(p, order);
    ok := true;
  }
}
