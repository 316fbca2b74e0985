/** Dependency graphs: paths, cycles and what can be reached. */
module Graphs {
  import opened Status

  /** Each node's edges, in the order they are declared. */
  type Graph = map<Name, seq<Name>>

  predicate Edge(g: Graph, a: Name, b: Name) {
    a in g && b in g[a]
  }

  predicate IsPath(g: Graph, p: seq<Name>) {
    |p| >= 1 && forall i | 0 <= i < |p| - 1 :: Edge(g, p[i], p[i + 1])
  }

  /** A path of at least one edge. */
  predicate Joins(g: Graph, p: seq<Name>, a: Name, b: Name) {
    IsPath(g, p) && |p| >= 2 && p[0] == a && p[|p| - 1] == b
  }

  /** `b` can be reached from `a` by one edge or more. */
  ghost predicate Reaches(g: Graph, a: Name, b: Name) {
    exists p :: Joins(g, p, a, b)
  }

  predicate IsCycle(g: Graph, p: seq<Name>) {
    IsPath(g, p) && |p| >= 2 && p[0] == p[|p| - 1]
  }

  ghost predicate HasCycle(g: Graph) {
    exists p :: IsCycle(g, p)
  }

  /** Every node mentioned. */
  function Mentioned(g: Graph): set<Name> {
    g.Keys + set n, d | n in g && d in g[n] :: d
  }

  lemma EdgeReaches(g: Graph, a: Name, b: Name)
    requires Edge(g, a, b)
    ensures Reaches(g, a, b)
  {
    assert Joins(g, [a, b], a, b);
  }

  lemma ReachesTrans(g: Graph, a: Name, b: Name, c: Name)
    requires Reaches(g, a, b) && Reaches(g, b, c)
    ensures Reaches(g, a, c)
  {
    var p :| Joins(g, p, a, b);
    var q :| Joins(g, q, b, c);
    var r := p + q[1..];
    forall i | 0 <= i < |r| - 1 ensures Edge(g, r[i], r[i + 1]) {
      if i < |p| - 1 {
        assert Edge(g, p[i], p[i + 1]);
      } else {
        assert Edge(g, q[i - |p| + 1], q[i - |p| + 2]);
      }
    }
    assert Joins(g, r, a, c);
  }

  /** A set closed under edges that has everything next to `a` has everything `a` reaches. */
  lemma {:induction false} ClosedHasPath(g: Graph, s: set<Name>, p: seq<Name>)
    requires IsPath(g, p) && |p| >= 2
    requires forall x :: Edge(g, p[0], x) ==> x in s
    requires forall x, y :: x in s && Edge(g, x, y) ==> y in s
    ensures p[|p| - 1] in s
    decreases |p|
  {
    assert Edge(g, p[0], p[1]);
    if |p| > 2 {
      var q := p[1..];
      forall i | 0 <= i < |q| - 1 ensures Edge(g, q[i], q[i + 1]) { assert Edge(g, p[i + 1], p[i + 2]); }
      ClosedHasPath(g, s, q);
    }
  }

  lemma ClosedHasReach(g: Graph, s: set<Name>, a: Name, b: Name)
    requires Reaches(g, a, b)
    requires forall x :: Edge(g, a, x) ==> x in s
    requires forall x, y :: x in s && Edge(g, x, y) ==> y in s
    ensures b in s
  {
    var p :| Joins(g, p, a, b);
    ClosedHasPath(g, s, p);
  }

  /** Reaching oneself is being on a cycle. */
  lemma SelfReachIsCycle(g: Graph, a: Name)
    requires Reaches(g, a, a)
    ensures HasCycle(g)
  {
    var p :| Joins(g, p, a, a);
    assert IsCycle(g, p);
  }

  // ------------------------------------------------------------------
  // Orders

  /** Where `x` stands in a list. */
  function IndexOf(xs: seq<Name>, x: Name): (i: nat)
    requires x in xs
    ensures i < |xs| && xs[i] == x
    ensures forall j | 0 <= j < i :: xs[j] != x
  {
    if xs[0] == x then 0 else 1 + IndexOf(xs[1..], x)
  }

  predicate Distinct(xs: seq<Name>) {
    forall i, j | 0 <= i < j < |xs| :: xs[i] != xs[j]
  }

  /** Every node's edges lead to nodes before it. */
  ghost predicate EdgesBack(g: Graph, xs: seq<Name>) {
    forall i, d | 0 <= i < |xs| && Edge(g, xs[i], d) :: d in xs[..i]
  }

  lemma {:induction false} PathGoesBack(g: Graph, xs: seq<Name>, p: seq<Name>)
    requires Distinct(xs) && EdgesBack(g, xs) && IsPath(g, p) && p[0] in xs
    ensures p[|p| - 1] in xs
    ensures |p| >= 2 ==> IndexOf(xs, p[|p| - 1]) < IndexOf(xs, p[0])
    decreases |p|
  {
    if |p| >= 2 {
      var i := IndexOf(xs, p[0]);
      assert Edge(g, xs[i], p[1]);
      var j :| 0 <= j < i && xs[j] == p[1];
      assert IndexOf(xs, p[1]) == j;
      var q := p[1..];
      forall k | 0 <= k < |q| - 1 ensures Edge(g, q[k], q[k + 1]) { assert Edge(g, p[k + 1], p[k + 2]); }
      PathGoesBack(g, xs, q);
    }
  }

  /** A graph listed with every edge leading back has no cycle through a listed node. */
  lemma OrderHasNoCycle(g: Graph, xs: seq<Name>, p: seq<Name>)
    requires Distinct(xs) && EdgesBack(g, xs) && IsPath(g, p) && |p| >= 2 && p[0] in xs
    ensures p[0] != p[|p| - 1]
  {
    PathGoesBack(g, xs, p);
  }

  // ------------------------------------------------------------------
  // The reverse graph

  ghost predicate Reverses(g: Graph, r: Graph) {
    forall a, b :: Edge(r, b, a) <==> Edge(g, a, b)
  }

  lemma ReverseReaches(g: Graph, r: Graph, a: Name, b: Name)
    requires Reverses(g, r) && Reaches(g, a, b)
    ensures Reaches(r, b, a)
  {
    var p :| Joins(g, p, a, b);
    var q := seq(|p|, i requires 0 <= i < |p| => p[|p| - 1 - i]);
    forall i | 0 <= i < |q| - 1 ensures Edge(r, q[i], q[i + 1]) {
      assert Edge(g, p[|p| - 2 - i], p[|p| - 1 - i]);
    }
    assert Joins(r, q, b, a);
  }

  lemma ReverseIsSymmetric(g: Graph, r: Graph)
    requires Reverses(g, r)
    ensures Reverses(r, g)
  {
  }

  /** Reaching forwards and being reached backwards are the same. */
  lemma ReachesBothWays(g: Graph, r: Graph, a: Name, b: Name)
    requires Reverses(g, r)
    ensures Reaches(g, a, b) <==> Reaches(r, b, a)
  {
    if Reaches(g, a, b) { ReverseReaches(g, r, a, b); }
    if Reaches(r, b, a) {
      ReverseIsSymmetric(g, r);
      ReverseReaches(r, g, b, a);
    }
  }

  /** How many nodes can be reached from a node. */
  ghost function Height(g: Graph, a: Name): nat {
    |set b | b in g && Reaches(g, a, b)|
  }

  /** Without cycles, what an edge leads to reaches less. */
  lemma HeightDrops(g: Graph, a: Name, b: Name)
    requires Edge(g, a, b) && b in g && !HasCycle(g)
    ensures Height(g, b) < Height(g, a)
  {
    hide Edge, IsPath;
    var above := set c | c in g && Reaches(g, a, c);
    var below := set c | c in g && Reaches(g, b, c);
    EdgeReaches(g, a, b);
    forall c | c in below ensures c in above {
      ReachesTrans(g, a, b, c);
    }
    if Reaches(g, b, b) {
      SelfReachIsCycle(g, b);
    }
    assert b in above && b !in below;
    Fewer(below, above, b);
  }

  lemma Fewer(small: set<Name>, big: set<Name>, x: Name)
    requires small <= big && x in big && x !in small
    ensures |small| < |big|
  {
    assert big == (big - small) + small;
    assert |big| == |big - small| + |small|;
  }
}
