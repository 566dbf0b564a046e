/** Depth-first topological sort with cycle detection (internal/common/slice.go). */
module TopologicalSort {

  /** The edges out of `x`; a missing key reads as no edges, as a Go map does. */
  function Deps<T(==)>(deps: map<T, seq<T>>, x: T): seq<T> {
    if x in deps then deps[x] else []
  }

  ghost predicate IsPath<T>(deps: map<T, seq<T>>, p: seq<T>) {
    |p| > 0 && forall i :: 0 <= i < |p| - 1 ==> p[i + 1] in Deps(deps, p[i])
  }

  ghost predicate Reaches<T(!new)>(deps: map<T, seq<T>>, a: T, b: T) {
    exists p :: IsPath(deps, p) && p[0] == a && p[|p| - 1] == b
  }

  ghost predicate ReachableFrom<T(!new)>(items: seq<T>, deps: map<T, seq<T>>, x: T) {
    exists a :: a in items && Reaches(deps, a, x)
  }

  ghost predicate IsReachableCycle<T(!new)>(items: seq<T>, deps: map<T, seq<T>>, p: seq<T>) {
    IsPath(deps, p) && |p| >= 2 && p[0] == p[|p| - 1] && ReachableFrom(items, deps, p[0])
  }

  ghost predicate HasReachableCycle<T(!new)>(items: seq<T>, deps: map<T, seq<T>>) {
    exists p :: IsReachableCycle(items, deps, p)
  }

  predicate Distinct<T(==)>(s: seq<T>) {
    forall i, j :: 0 <= i < j < |s| ==> s[i] != s[j]
  }

  /** No element of `r` is listed after one of its dependencies. */
  predicate ConsumersFirst<T(==)>(deps: map<T, seq<T>>, r: seq<T>) {
    forall i, j :: 0 <= i < |r| && 0 <= j < |r| && r[j] in Deps(deps, r[i]) ==> i < j
  }

  ghost predicate IsTopologicalOrder<T(!new)>(items: seq<T>, deps: map<T, seq<T>>, r: seq<T>) {
    && Distinct(r)
    && ConsumersFirst(deps, r)
    && forall x :: x in r <==> ReachableFrom(items, deps, x)
  }

  lemma ReachesSelf<T(!new)>(deps: map<T, seq<T>>, a: T)
    ensures Reaches(deps, a, a)
  {
    assert IsPath(deps, [a]);
  }

  lemma ReachesStep<T(!new)>(deps: map<T, seq<T>>, a: T, b: T, c: T)
    requires Reaches(deps, a, b) && c in Deps(deps, b)
    ensures Reaches(deps, a, c)
  {
    var p :| IsPath(deps, p) && p[0] == a && p[|p| - 1] == b;
    assert IsPath(deps, p + [c]);
  }

  lemma ReachableStep<T(!new)>(items: seq<T>, deps: map<T, seq<T>>, b: T, c: T)
    requires ReachableFrom(items, deps, b) && c in Deps(deps, b)
    ensures ReachableFrom(items, deps, c)
  {
    var a :| a in items && Reaches(deps, a, b);
    ReachesStep(deps, a, b, c);
  }

  lemma RootReachable<T(!new)>(items: seq<T>, deps: map<T, seq<T>>, a: T)
    requires a in items
    ensures ReachableFrom(items, deps, a)
  {
    ReachesSelf(deps, a);
  }

  ghost predicate IsClosed<T>(deps: map<T, seq<T>>, s: set<T>) {
    forall x, d :: x in s && d in Deps(deps, x) ==> d in s
  }

  /** A set holding the start of a path and closed under edges holds the whole path. */
  lemma {:induction false} ClosedUnderPath<T(!new)>(deps: map<T, seq<T>>, s: set<T>, p: seq<T>)
    requires IsPath(deps, p) && p[0] in s && IsClosed(deps, s)
    ensures forall i :: 0 <= i < |p| ==> p[i] in s
  {
    if |p| > 1 {
      assert IsPath(deps, p[..|p| - 1]) by {
        var q := p[..|p| - 1];
        forall i | 0 <= i < |q| - 1 ensures q[i + 1] in Deps(deps, q[i]) {
          assert p[i + 1] in Deps(deps, p[i]);
        }
      }
      ClosedUnderPath(deps, s, p[..|p| - 1]);
      assert forall i :: 0 <= i < |p| - 1 ==> p[i] == p[..|p| - 1][i];
      assert p[|p| - 2 + 1] in Deps(deps, p[|p| - 2]);
    }
  }

  /** Along a path inside a consumers-first list the positions never go back. */
  lemma {:induction false} PathAscends<T(!new)>(deps: map<T, seq<T>>, r: seq<T>, p: seq<T>, i: nat, j: nat)
    requires ConsumersFirst(deps, r)
    requires IsPath(deps, p)
    requires forall k :: 0 <= k < |p| ==> p[k] in r
    requires i < |r| && j < |r| && r[i] == p[0] && r[j] == p[|p| - 1]
    requires |p| >= 2
    ensures i < j
  {
    var m := |p| - 2;
    assert p[m + 1] in Deps(deps, p[m]);
    var k :| 0 <= k < |r| && r[k] == p[m];
    assert k < j;
    if m > 0 {
      var q := p[..m + 1];
      assert IsPath(deps, q) by {
        forall l | 0 <= l < |q| - 1 ensures q[l + 1] in Deps(deps, q[l]) {
          assert p[l + 1] in Deps(deps, p[l]);
        }
      }
      PathAscends(deps, r, q, i, k);
    } else {
      assert r[j] in Deps(deps, r[i]);
    }
  }

  /** A topological order of the reachable items exists only where no cycle is reachable. */
  lemma OrderExcludesCycle<T(!new)>(items: seq<T>, deps: map<T, seq<T>>, r: seq<T>)
    requires IsTopologicalOrder(items, deps, r)
    ensures !HasReachableCycle(items, deps)
  {
    if HasReachableCycle(items, deps) {
      var p :| IsReachableCycle(items, deps, p);
      var s := set x | x in r;
      forall x, d | x in s && d in Deps(deps, x) ensures d in s {
        ReachableStep(items, deps, x, d);
      }
      ClosedUnderPath(deps, s, p);
      var i :| 0 <= i < |r| && r[i] == p[0];
      PathAscends(deps, r, p, i, i);
      assert false;
    }
  }

  function Reversed<T>(s: seq<T>): (r: seq<T>)
    ensures |r| == |s|
    ensures forall i :: 0 <= i < |s| ==> r[i] == s[|s| - 1 - i]
  {
    seq(|s|, i requires 0 <= i < |s| => s[|s| - 1 - i])
  }

  predicate IsIn<T(==)>(state: map<T, int>, x: T, v: int) {
    x in state && state[x] == v
  }

  /**
    What the visit keeps while no cycle has been met: `stack` lists the items being visited
    (state 1), outermost first, and `sorted` the finished ones (state 2), dependencies first.
   */
  ghost predicate Acyclic<T(!new)>(roots: seq<T>, deps: map<T, seq<T>>,
                                   state: map<T, int>, sorted: seq<T>, stack: seq<T>) {
    && Distinct(stack) && Distinct(sorted)
    && (forall x :: x in stack <==> IsIn(state, x, 1))
    && (forall x :: x in sorted <==> IsIn(state, x, 2))
    && (stack != [] ==> IsPath(deps, stack))
    && (forall x :: x in state ==> ReachableFrom(roots, deps, x))
    && DependenciesFirst(deps, sorted)
  }

  ghost predicate DependenciesFirst<T>(deps: map<T, seq<T>>, sorted: seq<T>) {
    forall i, d :: 0 <= i < |sorted| && d in Deps(deps, sorted[i]) ==> d in sorted[..i]
  }

  lemma EnterKeepsAcyclic<T(!new)>(roots: seq<T>, deps: map<T, seq<T>>,
                                   state: map<T, int>, sorted: seq<T>, stack: seq<T>, item: T)
    requires Acyclic(roots, deps, state, sorted, stack)
    requires item !in state && ReachableFrom(roots, deps, item)
    requires stack != [] ==> item in Deps(deps, stack[|stack| - 1])
    ensures Acyclic(roots, deps, state[item := 1], sorted, stack + [item])
  {
    var state' := state[item := 1];
    var stack' := stack + [item];
    assert item !in stack by { assert !IsIn(state, item, 1); }
    forall x ensures x in stack' <==> IsIn(state', x, 1) {
      assert x in stack <==> IsIn(state, x, 1);
    }
    forall x ensures x in sorted <==> IsIn(state', x, 2) {
      assert x in sorted <==> IsIn(state, x, 2);
    }
  }

  lemma LeaveKeepsAcyclic<T(!new)>(roots: seq<T>, deps: map<T, seq<T>>,
                                   state: map<T, int>, sorted: seq<T>, stack: seq<T>, item: T)
    requires Acyclic(roots, deps, state, sorted, stack + [item])
    requires forall d :: d in Deps(deps, item) ==> IsIn(state, d, 2)
    ensures Acyclic(roots, deps, state[item := 2], sorted + [item], stack)
  {
    var state' := state[item := 2];
    var sorted' := sorted + [item];
    var grey := stack + [item];
    assert grey[|stack|] == item;
    assert item !in stack by {
      assert forall k :: 0 <= k < |stack| ==> grey[k] == stack[k] && grey[k] != grey[|stack|];
    }
    assert IsIn(state, item, 1) by { assert item in grey; }
    assert item !in sorted by { assert !IsIn(state, item, 2); }
    forall x ensures x in stack <==> IsIn(state', x, 1) {
      assert x in grey <==> IsIn(state, x, 1);
      assert x in grey <==> x in stack || x == item;
      assert x == item ==> x !in stack;
    }
    forall x ensures x in sorted' <==> IsIn(state', x, 2) {
      assert x in sorted <==> IsIn(state, x, 2);
    }
    if stack != [] {
      forall i | 0 <= i < |stack| - 1 ensures stack[i + 1] in Deps(deps, stack[i]) {
        assert grey[i + 1] in Deps(deps, grey[i]);
      }
    }
    forall i, d | 0 <= i < |sorted'| && d in Deps(deps, sorted'[i]) ensures d in sorted'[..i] {
      if i < |sorted| {
        assert sorted'[..i] == sorted[..i];
      } else {
        assert sorted'[..i] == sorted;
        assert d in sorted <==> IsIn(state, d, 2);
      }
    }
    assert DependenciesFirst(deps, sorted');
    assert Distinct(stack) by { assert forall i :: 0 <= i < |stack| ==> stack[i] == grey[i]; }
    assert stack != [] ==> IsPath(deps, stack);
  }

  /** Meeting an item that is still being visited closes a cycle through the visit stack. */
  lemma StackCycle<T(!new)>(roots: seq<T>, deps: map<T, seq<T>>,
                            state: map<T, int>, sorted: seq<T>, stack: seq<T>, item: T)
    requires Acyclic(roots, deps, state, sorted, stack) && IsIn(state, item, 1)
    requires stack != [] ==> item in Deps(deps, stack[|stack| - 1])
    ensures HasReachableCycle(roots, deps)
  {
    assert item in stack;
    var k :| 0 <= k < |stack| && stack[k] == item;
    var p := stack[k..] + [item];
    assert IsPath(deps, p) by {
      forall i | 0 <= i < |p| - 1 ensures p[i + 1] in Deps(deps, p[i]) {
        if i < |p| - 2 {
          assert stack[k + i + 1] in Deps(deps, stack[k + i]);
        }
      }
    }
    assert IsReachableCycle(roots, deps, p);
  }

  ghost function Universe<T>(roots: seq<T>, deps: map<T, seq<T>>): set<T> {
    (set x | x in roots) + deps.Keys + (set x, d | x in deps && d in deps[x] :: d)
  }

  lemma DependencyInUniverse<T>(roots: seq<T>, deps: map<T, seq<T>>, x: T, d: T)
    requires d in Deps(deps, x)
    ensures d in Universe(roots, deps)
  {
  }

  /** The variables captured by the recursive closure: `state`, `sorted` and `hasCycle`. */
  class Sorter<T(==, !new)> {
    const deps: map<T, seq<T>>
    const roots: seq<T>
    var state: map<T, int>
    var sorted: seq<T>
    var hasCycle: bool
    ghost var stack: seq<T>

    constructor (items: seq<T>, deps: map<T, seq<T>>)
      ensures this.deps == deps && roots == items
      ensures state == map[] && sorted == [] && !hasCycle && stack == []
      ensures Valid()
    {
      this.deps := deps;
      this.roots := items;
      state := map[];
      sorted := [];
      hasCycle := false;
      stack := [];
    }

    ghost predicate Valid()
      reads this
    {
      && state.Keys <= Universe(roots, deps)
      && (forall x :: x in state ==> state[x] == 1 || state[x] == 2)
      && (hasCycle ==> HasReachableCycle(roots, deps))
      && (!hasCycle ==> Acyclic(roots, deps, state, sorted, stack))
    }

    method Visit(item: T)
      requires Valid() && item in Universe(roots, deps)
      requires ReachableFrom(roots, deps, item)
      requires !hasCycle && stack != [] ==> item in Deps(deps, stack[|stack| - 1])
      modifies this
      ensures Valid() && stack == old(stack)
      ensures old(state).Keys <= state.Keys
      ensures old(hasCycle) ==> hasCycle
      ensures !hasCycle ==> IsIn(state, item, 2)
      ensures !hasCycle ==> forall x :: IsIn(old(state), x, 2) ==> IsIn(state, x, 2)
      decreases Universe(roots, deps) - state.Keys
    {
      hide Acyclic, HasReachableCycle, ReachableFrom, Universe;
      if hasCycle {
        return;
      }
      if item in state {
        if state[item] == 1 {
          StackCycle(roots, deps, state, sorted, stack, item);
          hasCycle := true;
        }
        return;
      }
      EnterKeepsAcyclic(roots, deps, state, sorted, stack, item);
      ghost var before := stack;
      state := state[item := 1];
      stack := stack + [item];
      var ds := Deps(deps, item);
      for i := 0 to |ds|
        invariant Valid() && stack == before + [item]
        invariant old(state).Keys + {item} <= state.Keys
        invariant !hasCycle ==> forall j :: 0 <= j < i ==> IsIn(state, ds[j], 2)
        invariant !hasCycle ==> forall x :: IsIn(old(state), x, 2) ==> IsIn(state, x, 2)
      {
        ReachableStep(roots, deps, item, ds[i]);
        DependencyInUniverse(roots, deps, item, ds[i]);
        Visit(ds[i]);
      }
      if !hasCycle {
        LeaveKeepsAcyclic(roots, deps, state, sorted, before, item);
      }
      state := state[item := 2];
      sorted := sorted + [item];
      stack := before;
    }
  }

  /** The two-index swap loop that turns the finished list round. */
  method Reverse<T>(s: seq<T>) returns (r: seq<T>)
    ensures r == Reversed(s)
  {
    r := s;
    var i, j := 0, |r| - 1;
    while i < j
      invariant 0 <= i <= |s| && i + j == |s| - 1 && |r| == |s|
      invariant forall k :: 0 <= k < i ==> r[k] == s[|s| - 1 - k] && r[|s| - 1 - k] == s[k]
      invariant forall k :: i <= k <= j ==> r[k] == s[k]
    {
      r := r[i := r[j]][j := r[i]];
      i, j := i + 1, j - 1;
    }
  }

  /**
    The sorted list is empty exactly when there is nothing to sort or a cycle is reachable;
    otherwise it lists every reachable item once, before all its dependencies.
   */
  method Sort<T(==, !new)>(items: seq<T>, deps: map<T, seq<T>>) returns (r: seq<T>)
    ensures r == [] <==> items == [] || HasReachableCycle(items, deps)
    ensures r != [] ==> IsTopologicalOrder(items, deps, r)
  {
    hide Acyclic, HasReachableCycle, ReachableFrom, Reversed, IsTopologicalOrder;
    var s := new Sorter(items, deps);
    for i := 0 to |items|
      invariant s.Valid() && s.stack == [] && s.deps == deps && s.roots == items
      invariant !s.hasCycle ==> forall j :: 0 <= j < i ==> IsIn(s.state, items[j], 2)
      invariant fresh(s)
    {
      if items[i] !in s.state {
        RootReachable(items, deps, items[i]);
        assert items[i] in Universe(items, deps);
        s.Visit(items[i]);
      } else if !s.hasCycle {
        NothingVisiting(items, deps, s.state, s.sorted, items[i]);
      }
    }
    if s.hasCycle {
      return [];
    }
    ghost var done := s.sorted;
    r := s.sorted;
    r := Reverse(r);
    FinishedIsOrder(items, deps, s.state, done);
    OrderExcludesCycle(items, deps, r);
  }

  lemma ReversedMembers<T>(s: seq<T>)
    ensures forall x :: x in s <==> x in Reversed(s)
  {
    forall x | x in s ensures x in Reversed(s) {
      var i :| 0 <= i < |s| && s[i] == x;
      assert Reversed(s)[|s| - 1 - i] == x;
    }
  }

  lemma ReversedConsumersFirst<T>(deps: map<T, seq<T>>, done: seq<T>)
    requires Distinct(done) && DependenciesFirst(deps, done)
    ensures ConsumersFirst(deps, Reversed(done))
  {
    var n, r := |done|, Reversed(done);
    forall i, j | 0 <= i < n && 0 <= j < n && r[j] in Deps(deps, r[i]) ensures i < j {
      assert r[j] in done[..n - 1 - i];
      var k :| 0 <= k < n - 1 - i && done[k] == r[j];
      assert done[n - 1 - j] == done[k];
    }
  }

  lemma DoneIsClosed<T>(deps: map<T, seq<T>>, done: seq<T>, y: T, d: T)
    requires DependenciesFirst(deps, done) && y in done && d in Deps(deps, y)
    ensures d in done
  {
    var i :| 0 <= i < |done| && done[i] == y;
    assert d in done[..i];
  }

  lemma ReachableInClosed<T(!new)>(items: seq<T>, deps: map<T, seq<T>>, s: set<T>, x: T)
    requires IsClosed(deps, s) && ReachableFrom(items, deps, x)
    requires forall a :: a in items ==> a in s
    ensures x in s
  {
    var a :| a in items && Reaches(deps, a, x);
    var p :| IsPath(deps, p) && p[0] == a && p[|p| - 1] == x;
    ClosedUnderPath(deps, s, p);
  }

  /** A finished dependencies-first list, reversed, is a topological order. */
  lemma ReversedIsOrder<T(!new)>(items: seq<T>, deps: map<T, seq<T>>, done: seq<T>)
    requires Distinct(done) && DependenciesFirst(deps, done)
    requires forall a :: a in items ==> a in done
    requires forall x :: x in done ==> ReachableFrom(items, deps, x)
    ensures IsTopologicalOrder(items, deps, Reversed(done))
  {
    hide ConsumersFirst, ReachableFrom;
    ReversedMembers(done);
    ReversedConsumersFirst(deps, done);
    var s := set y | y in done;
    forall y, d | y in s && d in Deps(deps, y) ensures d in s {
      DoneIsClosed(deps, done, y, d);
    }
    hide DependenciesFirst, Distinct, Reversed;
    assert IsClosed(deps, s);
    hide IsClosed, IsPath;
    forall x | ReachableFrom(items, deps, x) ensures x in done {
      ReachableInClosed(items, deps, s, x);
    }
  }

  lemma NothingVisiting<T(!new)>(roots: seq<T>, deps: map<T, seq<T>>, state: map<T, int>, sorted: seq<T>, x: T)
    requires Acyclic(roots, deps, state, sorted, [])
    requires x in state && (state[x] == 1 || state[x] == 2)
    ensures IsIn(state, x, 2)
  {
    assert x in [] <==> IsIn(state, x, 1);
  }

  lemma FinishedIsOrder<T(!new)>(items: seq<T>, deps: map<T, seq<T>>, state: map<T, int>, done: seq<T>)
    requires Acyclic(items, deps, state, done, [])
    requires forall j :: 0 <= j < |items| ==> IsIn(state, items[j], 2)
    ensures IsTopologicalOrder(items, deps, Reversed(done))
    ensures items != [] <==> done != []
  {
    hide Acyclic, IsTopologicalOrder, Distinct, DependenciesFirst, ReachableFrom, Reversed, IsIn;
    FinishedMembers(items, deps, state, done);
    ReversedIsOrder(items, deps, done);
    assert items != [] ==> items[0] in done;
    if done != [] {
      assert done[0] in done;
      SomeRoot(items, deps, done[0]);
    }
  }

  lemma SomeRoot<T(!new)>(items: seq<T>, deps: map<T, seq<T>>, x: T)
    requires ReachableFrom(items, deps, x)
    ensures items != []
  {
  }

  lemma FinishedMembers<T(!new)>(items: seq<T>, deps: map<T, seq<T>>, state: map<T, int>, done: seq<T>)
    requires Acyclic(items, deps, state, done, [])
    requires forall j :: 0 <= j < |items| ==> IsIn(state, items[j], 2)
    ensures Distinct(done) && DependenciesFirst(deps, done)
    ensures forall a :: a in items ==> a in done
    ensures forall x :: x in done ==> ReachableFrom(items, deps, x)
  {
    hide ReachableFrom;
    forall a | a in items ensures a in done {
      assert IsIn(state, a, 2);
    }
    forall x | x in done ensures ReachableFrom(items, deps, x) {
      assert IsIn(state, x, 2);
    }
  }
}
