/** What a resolved plan is asked: what a node needs and what needs it, which
    changed nodes to signal, and in what waves to stop. */
module PlanGraph {
  import opened Status
  import opened Graphs

  // ------------------------------------------------------------------
  // Dependents

  /** Every edge turned round. `names` lists the plan's nodes. */
  method BuildDependents(dependsOn: Graph, names: seq<Name>) returns (dependents: Graph)
    requires forall n :: n in names <==> n in dependsOn
    ensures Reverses(dependsOn, dependents)
    ensures forall n <- names :: n in dependents
  {
    dependents := map[];
    for i := 0 to |names|
      invariant forall j | 0 <= j < i :: names[j] in dependents
      invariant forall a, b :: Edge(dependents, b, a) <==> a in names[..i] && Edge(dependsOn, a, b)
    {
      var n := names[i];
      ghost var before := dependents;
      dependents := Entry(dependents, n);
      var deps := dependsOn[n];
      for k := 0 to |deps|
        invariant forall j | 0 <= j <= i :: names[j] in dependents
        invariant forall a, b :: Edge(dependents, b, a) <==> Edge(before, b, a) || (a == n && b in deps[..k])
      {
        ghost var was := dependents;
        dependents := Entry(dependents, deps[k]);
        dependents := dependents[deps[k] := dependents[deps[k]] + [n]];
        assert deps[..k + 1] == deps[..k] + [deps[k]];
      }
      assert deps[..|deps|] == deps;
      assert names[..i + 1] == names[..i] + [n];
    }
    assert names[..|names|] == names;
  }

  /** The map with an entry for `n`, empty if it had none. */
  function Entry(g: Graph, n: Name): (h: Graph)
    ensures n in h && forall a, b :: Edge(h, a, b) <==> Edge(g, a, b)
    ensures forall m <- g :: m in h && h[m] == g[m]
  {
    if n in g then g else g[n := []]
  }

  // ------------------------------------------------------------------
  // Reachability

  /** Everything reachable from `from` by one edge or more. */
  method Reach(g: Graph, from: Name) returns (seen: set<Name>)
    ensures forall x :: x in seen <==> Reaches(g, from, x)
  {
    seen := {};
    var stack := EdgesOf(g, from);
    ghost var all := Mentioned(g);
    forall x <- stack ensures Reaches(g, from, x) { EdgeReaches(g, from, x); }
    while stack != []
      invariant forall x <- stack :: x in all && Reaches(g, from, x)
      invariant seen <= all && forall x <- seen :: Reaches(g, from, x)
      invariant forall x :: Edge(g, from, x) ==> x in seen || x in stack
      invariant forall x, y :: x in seen && Edge(g, x, y) ==> y in seen || y in stack
      decreases all - seen, |stack|
    {
      var n := stack[|stack|-1];
      assert stack == stack[..|stack|-1] + [n];
      stack := stack[..|stack|-1];
      if n !in seen {
        seen := seen + {n};
        forall x <- EdgesOf(g, n) ensures Reaches(g, from, x) {
          EdgeReaches(g, n, x);
          ReachesTrans(g, from, n, x);
        }
        stack := stack + EdgesOf(g, n);
      }
    }
    forall x | Reaches(g, from, x) ensures x in seen { ClosedHasReach(g, seen, from, x); }
  }

  function EdgesOf(g: Graph, n: Name): (xs: seq<Name>)
    ensures forall x :: x in xs <==> Edge(g, n, x)
    ensures forall x <- xs :: x in Mentioned(g)
  {
    if n in g then g[n] else []
  }

  /** `a` is among what `b` needs exactly when `b` is among what needs `a`. */
  lemma NeedsAndNeeded(dependsOn: Graph, dependents: Graph, needs: set<Name>, needed: set<Name>, a: Name, b: Name)
    requires Reverses(dependsOn, dependents)
    requires forall x :: x in needs <==> Reaches(dependsOn, b, x)
    requires forall x :: x in needed <==> Reaches(dependents, a, x)
    ensures a in needs <==> b in needed
  {
    ReachesBothWays(dependsOn, dependents, b, a);
  }

  // ------------------------------------------------------------------
  // Dispatch

  ghost predicate NeedsAHit(g: Graph, hits: seq<Name>, h: Name) {
    exists d :: d in hits && Reaches(g, h, d)
  }

  /** Of the nodes a change matched, the upstream-most ones, in the order given. */
  ghost function Roots(g: Graph, hits: seq<Name>, of: seq<Name>): seq<Name> {
    if of == [] then []
    else Roots(g, hits, of[..|of|-1]) + (if NeedsAHit(g, hits, of[|of|-1]) then [] else [of[|of|-1]])
  }

  method DispatchRoots(g: Graph, hits: seq<Name>) returns (roots: seq<Name>)
    ensures roots == Roots(g, hits, hits)
  {
    roots := [];
    for i := 0 to |hits|
      invariant roots == Roots(g, hits, hits[..i])
    {
      var needs := Reach(g, hits[i]);
      var some := false;
      for k := 0 to |hits|
        invariant some <==> exists j :: 0 <= j < k && hits[j] in needs
      {
        if hits[k] in needs {
          some := true;
        }
      }
      assert some <==> NeedsAHit(g, hits, hits[i]);
      assert hits[..i + 1][..i] == hits[..i];
      if !some {
        roots := roots + [hits[i]];
      }
    }
    assert hits[..|hits|] == hits;
  }

  lemma {:induction false} RootsAre(g: Graph, hits: seq<Name>, of: seq<Name>)
    ensures forall r :: r in Roots(g, hits, of) <==> r in of && !NeedsAHit(g, hits, r)
    decreases |of|
  {
    if of != [] {
      RootsAre(g, hits, of[..|of|-1]);
      assert of == of[..|of|-1] + [of[|of|-1]];
    }
  }

  /** No root needs another: nothing is signalled twice by one change. */
  lemma RootsAreAntichain(g: Graph, hits: seq<Name>, a: Name, b: Name)
    requires a in Roots(g, hits, hits) && b in Roots(g, hits, hits)
    ensures !Reaches(g, a, b)
  {
    RootsAre(g, hits, hits);
    assert Reaches(g, a, b) ==> NeedsAHit(g, hits, a);
  }

  /** In an acyclic plan every hit is a root or needs one. */
  lemma {:induction false} EveryHitHasARoot(g: Graph, order: seq<Name>, hits: seq<Name>, h: Name) returns (root: Name)
    requires Distinct(order) && EdgesBack(g, order) && h in order && h in hits
    ensures root in Roots(g, hits, hits) && (h == root || Reaches(g, h, root))
    decreases IndexOf(order, h)
  {
    RootsAre(g, hits, hits);
    if NeedsAHit(g, hits, h) {
      var d :| d in hits && Reaches(g, h, d);
      var p :| Joins(g, p, h, d);
      PathGoesBack(g, order, p);
      root := EveryHitHasARoot(g, order, hits, d);
      if d != root { ReachesTrans(g, h, d, root); }
    } else {
      root := h;
    }
  }

  // ------------------------------------------------------------------
  // What a change affects

  predicate IsGlobal(path: string) {
    || path == "Cargo.lock" || path == "turborust.toml" || path == ".turborust.toml"
    || path == "rust-toolchain.toml" || path == "rust-toolchain"
  }

  ghost predicate Hit(changed: seq<string>, matches: (Name, string) -> bool, n: Name) {
    exists p :: p in changed && matches(n, p)
  }

  /** The nodes that changed paths make stale. */
  method Select(order: seq<Name>, dependents: Graph, changed: seq<string>, matches: (Name, string) -> bool)
    returns (selected: set<Name>)
    ensures (exists p :: p in changed && IsGlobal(p)) ==> selected == set n | n in order
    ensures !(exists p :: p in changed && IsGlobal(p)) ==>
              forall x :: x in selected <==>
                exists h :: h in order && Hit(changed, matches, h) && (x == h || Reaches(dependents, h, x))
  {
    for i := 0 to |changed|
      invariant forall j | 0 <= j < i :: !IsGlobal(changed[j])
    {
      if IsGlobal(changed[i]) {
        return set n | n in order;
      }
    }
    var hit: seq<Name> := [];
    for i := 0 to |order|
      invariant forall x :: x in hit <==> x in order[..i] && Hit(changed, matches, x)
    {
      var any := false;
      for k := 0 to |changed|
        invariant any <==> exists j :: 0 <= j < k && matches(order[i], changed[j])
      {
        if matches(order[i], changed[k]) {
          any := true;
        }
      }
      assert any <==> Hit(changed, matches, order[i]);
      assert order[..i + 1] == order[..i] + [order[i]];
      if any {
        hit := hit + [order[i]];
      }
    }
    assert order[..|order|] == order;
    selected := set n | n in hit;
    for i := 0 to |hit|
      invariant forall x :: x in selected <==> x in hit || exists h :: h in hit[..i] && Reaches(dependents, h, x)
    {
      var more := Reach(dependents, hit[i]);
      assert hit[..i + 1] == hit[..i] + [hit[i]];
      selected := selected + more;
    }
    assert hit[..|hit|] == hit;
  }

  /** Closed under "depends on something in it". */
  ghost predicate DependentsClosed(dependents: Graph, s: set<Name>) {
    forall x, y :: x in s && Edge(dependents, x, y) ==> y in s
  }

  /** What is selected is closed under dependents, and is within every closed set
      that has the hits: the least one. */
  lemma SelectedIsLeast(order: seq<Name>, dependents: Graph, changed: seq<string>,
                        matches: (Name, string) -> bool, selected: set<Name>, s: set<Name>)
    requires forall x :: x in selected <==>
               exists h :: h in order && Hit(changed, matches, h) && (x == h || Reaches(dependents, h, x))
    ensures DependentsClosed(dependents, selected)
    ensures DependentsClosed(dependents, s) && (forall h <- order :: Hit(changed, matches, h) ==> h in s) ==> selected <= s
  {
    forall x, y | x in selected && Edge(dependents, x, y) ensures y in selected {
      var h :| h in order && Hit(changed, matches, h) && (x == h || Reaches(dependents, h, x));
      EdgeReaches(dependents, x, y);
      if x != h { ReachesTrans(dependents, h, x, y); }
    }
    if DependentsClosed(dependents, s) && forall h <- order :: Hit(changed, matches, h) ==> h in s {
      forall x <- selected ensures x in s {
        var h :| h in order && Hit(changed, matches, h) && (x == h || Reaches(dependents, h, x));
        if x != h { ClosedHasReach(dependents, s, h, x); }
      }
    }
  }
}
