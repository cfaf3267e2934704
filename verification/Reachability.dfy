/** Finite directed graphs: what a walk with a visited set must compute. */
module Reachability {

  type Graph<T(==)> = map<T, set<T>>

  /** Every edge of the graph ends at one of its nodes. */
  ghost predicate Contained<T>(g: Graph<T>) {
    forall x | x in g :: g[x] <= g.Keys
  }

  ghost predicate Closed<T>(g: Graph<T>, s: set<T>) {
    forall x | x in s && x in g :: g[x] <= s
  }

  /** The nodes at most `n` edges away from `roots`. */
  ghost function Within<T>(g: Graph<T>, roots: set<T>, n: nat): set<T> {
    if n == 0 then roots
    else
      var inner := Within(g, roots, n - 1);
      inner + set x, y | x in inner && x in g && y in g[x] :: y
  }

  ghost predicate Reaches<T>(g: Graph<T>, roots: set<T>, x: T) {
    exists n: nat :: x in Within(g, roots, n)
  }

  ghost function ReachSet<T>(g: Graph<T>, roots: set<T>): set<T> {
    set x | x in g && Reaches(g, roots, x)
  }

  lemma {:induction false} ClosedHoldsWithin<T>(g: Graph<T>, roots: set<T>, s: set<T>, n: nat)
    requires Closed(g, s) && roots <= s
    ensures Within(g, roots, n) <= s
  {
    if n > 0 {
      ClosedHoldsWithin(g, roots, s, n - 1);
    }
  }

  /** A node within reach lies at the end of a path of edges from the roots. */
  lemma {:induction false} PathTo<T>(g: Graph<T>, roots: set<T>, n: nat, x: T) returns (path: seq<T>)
    requires x in Within(g, roots, n) && Contained(g) && roots <= g.Keys
    ensures path != [] && path[0] in roots && path[|path| - 1] == x
    ensures forall i | 0 <= i < |path| :: path[i] in g && Reaches(g, roots, path[i])
    ensures forall i | 0 <= i < |path| - 1 :: path[i + 1] in g[path[i]]
  {
    assert Reaches(g, roots, x);
    if n == 0 {
      path := [x];
    } else if x in Within(g, roots, n - 1) {
      path := PathTo(g, roots, n - 1, x);
    } else {
      var y :| y in Within(g, roots, n - 1) && y in g && x in g[y];
      var init := PathTo(g, roots, n - 1, y);
      path := init + [x];
    }
  }

  /** The reachable nodes form the least closed set around the roots. */
  lemma ReachSetIsLeastClosed<T>(g: Graph<T>, roots: set<T>)
    requires Contained(g) && roots <= g.Keys
    ensures Closed(g, ReachSet(g, roots)) && roots <= ReachSet(g, roots)
    ensures forall s | Closed(g, s) && roots <= s :: ReachSet(g, roots) <= s
  {
    var reach := ReachSet(g, roots);
    forall x, y | x in reach && x in g && y in g[x]
      ensures y in reach
    {
      var n: nat :| x in Within(g, roots, n);
      assert y in Within(g, roots, n + 1);
    }
    forall x | x in roots
      ensures x in reach
    {
      assert x in Within(g, roots, 0);
    }
    forall s, x | Closed(g, s) && roots <= s && x in reach
      ensures x in s
    {
      var n: nat :| x in Within(g, roots, n);
      ClosedHoldsWithin(g, roots, s, n);
    }
  }
}
