/** Cycle detection and dependency order, as the configuration computes them:
    a three-colour walk that reports the cycle it meets, and a depth-first
    closure that puts every dependency first. */
module ConfigGraph {
  import opened Status
  import opened Graphs

  /** The edges the walk follows: to nodes that are declared, and not to one
      whose name is empty, which it reads as "no such node". */
  function Walked(adj: Graph): Graph {
    map n | n in adj :: Followable(adj, adj[n])
  }

  function Followable(adj: Graph, names: seq<Name>): (kept: seq<Name>)
    ensures forall d :: d in kept <==> d in names && d in adj && d != ""
  {
    if names == [] then []
    else (if names[0] in adj && names[0] != "" then [names[0]] else []) + Followable(adj, names[1..])
  }

  /** The three colours: nothing, 1 on the stack, 2 done; the stack is a path, and
      everything done leads only to things done before it. */
  ghost predicate Coloured(adj: Graph, state: map<Name, nat>, stack: seq<Name>, done: seq<Name>) {
    && state.Keys <= adj.Keys
    && (forall x <- state :: state[x] == 1 || state[x] == 2)
    && (forall x :: x in stack <==> x in state && state[x] == 1)
    && Distinct(stack)
    && (forall i | 0 <= i < |stack| - 1 :: Edge(Walked(adj), stack[i], stack[i + 1]))
    && (forall x :: x in done <==> x in state && state[x] == 2)
    && Distinct(done)
    && EdgesBack(Walked(adj), done)
  }

  lemma Pushed(adj: Graph, state: map<Name, nat>, stack: seq<Name>, done: seq<Name>, n: Name)
    requires Coloured(adj, state, stack, done) && n in adj && n !in state
    requires stack != [] ==> Edge(Walked(adj), stack[|stack|-1], n)
    ensures Coloured(adj, state[n := 1], stack + [n], done)
  {
  }

  lemma Popped(adj: Graph, state: map<Name, nat>, stack: seq<Name>, done: seq<Name>, n: Name)
    requires Coloured(adj, state, stack + [n], done) && n in adj
    requires forall d <- adj[n] :: d in adj && d != "" ==> d in state && state[d] == 2
    ensures n in state && Coloured(adj, state[n := 2], stack, done + [n])
  {
    hide Distinct, EdgesBack, Edge, Walked;
    ghost var full := stack + [n];
    assert full[|stack|] == n;
    assert n in state && state[n] == 1;
    StackBelow(Walked(adj), stack, n);
    forall x ensures x in stack <==> x in state[n := 2] && state[n := 2][x] == 1 {
      assert x in full <==> x in stack || x == n;
    }
    forall x ensures x in done + [n] <==> x in state[n := 2] && state[n := 2][x] == 2 {
    }
    FinishedLast(adj, state, done, n);
  }

  lemma StackBelow(adj: Graph, stack: seq<Name>, n: Name)
    requires Distinct(stack + [n])
    requires forall i | 0 <= i < |stack + [n]| - 1 :: Edge(adj, (stack + [n])[i], (stack + [n])[i + 1])
    ensures n !in stack && Distinct(stack)
    ensures forall i | 0 <= i < |stack| - 1 :: Edge(adj, stack[i], stack[i + 1])
  {
    hide Edge;
    var full := stack + [n];
    assert full[|stack|] == n;
    forall i | 0 <= i < |stack| ensures stack[i] != n { assert full[i] != full[|stack|]; }
    forall i | 0 <= i < |stack| - 1 ensures Edge(adj, stack[i], stack[i + 1]) {
      assert full[i] == stack[i] && full[i + 1] == stack[i + 1];
    }
    forall i, j | 0 <= i < j < |stack| ensures stack[i] != stack[j] { assert full[i] != full[j]; }
  }

  lemma FinishedLast(adj: Graph, state: map<Name, nat>, done: seq<Name>, n: Name)
    requires n in adj && n !in done
    requires forall x :: x in done <==> x in state && state[x] == 2
    requires forall d <- adj[n] :: d in adj && d != "" ==> d in state && state[d] == 2
    requires Distinct(done) && EdgesBack(Walked(adj), done)
    ensures Distinct(done + [n]) && EdgesBack(Walked(adj), done + [n])
  {
    forall d | Edge(Walked(adj), n, d) ensures d in done {
    }
    hide EdgesBack;
    DoneLast(Walked(adj), done, n);
  }

  class CycleFinder {
    const adj: Graph
    var state: map<Name, nat>    // 1 on the stack, 2 done
    var stack: seq<Name>
    ghost var done: seq<Name>    // in the order they were done

    ghost predicate Valid()
      reads this
    {
      Coloured(adj, state, stack, done)
    }

    constructor (adj: Graph)
      ensures Valid() && this.adj == adj && stack == [] && state == map[]
    {
      this.adj := adj;
      state := map[];
      stack := [];
      done := [];
    }

    method Walk(n: Name) returns (cycle: Option<seq<Name>>)
      requires Valid() && n in adj
      requires stack != [] ==> Edge(Walked(adj), stack[|stack|-1], n)
      modifies this
      ensures cycle.Some? ==> IsCycle(Walked(adj), cycle.value)
      ensures cycle.None? ==>
                && Valid() && stack == old(stack) && n in state && state[n] == 2
                && old(state).Keys <= state.Keys && forall x <- old(state) :: state[x] == old(state)[x]
      decreases adj.Keys - state.Keys
    {
      hide Coloured, IsCycle, Edge, Walked;
      if n in state && state[n] == 2 {
        return None;
      }
      if n in state {
        MetAgain(adj, state, stack, done, n);
        var at := IndexOf(stack, n);
        return Some(stack[at..] + [n]);
      }
      ghost var before := state;
      Pushed(adj, state, stack, done, n);
      state := state[n := 1];
      stack := stack + [n];
      var deps := adj[n];
      for i := 0 to |deps|
        invariant Valid() && stack == old(stack) + [n]
        invariant before.Keys + {n} <= state.Keys
        invariant forall x <- before :: state[x] == before[x]
        invariant forall j | 0 <= j < i :: deps[j] in adj && deps[j] != "" ==> deps[j] in state && state[deps[j]] == 2
      {
        var d := deps[i];
        if d in adj && d != "" {
          WalkedEdge(adj, n, d);
          cycle := Walk(d);
          if cycle.Some? {
            return;
          }
        }
      }
      Popped(adj, state, old(stack), done, n);
      stack := stack[..|stack|-1];
      state := state[n := 2];
      done := done + [n];
      return None;
    }
  }

  lemma MetAgain(adj: Graph, state: map<Name, nat>, stack: seq<Name>, done: seq<Name>, n: Name)
    requires Coloured(adj, state, stack, done) && n in state && state[n] != 2
    requires stack != [] ==> Edge(Walked(adj), stack[|stack|-1], n)
    ensures n in stack && IsCycle(Walked(adj), stack[IndexOf(stack, n)..] + [n])
  {
    CycleOnStack(Walked(adj), stack, IndexOf(stack, n), n);
  }

  lemma WalkedEdge(adj: Graph, n: Name, d: Name)
    requires n in adj && d in adj[n] && d in adj && d != ""
    ensures Edge(Walked(adj), n, d)
  {
  }

  /** The stack from `at` on, closed by an edge back to it, is a cycle. */
  lemma CycleOnStack(g: Graph, stack: seq<Name>, at: nat, n: Name)
    requires at < |stack| && stack[at] == n
    requires forall i | 0 <= i < |stack| - 1 :: Edge(g, stack[i], stack[i + 1])
    requires Edge(g, stack[|stack|-1], n)
    ensures IsCycle(g, stack[at..] + [n])
  {
    var p := stack[at..] + [n];
    forall i | 0 <= i < |p| - 1 ensures Edge(g, p[i], p[i + 1]) {
      if i < |stack| - at - 1 { assert Edge(g, stack[at + i], stack[at + i + 1]); }
    }
  }

  lemma DoneLast(g: Graph, done: seq<Name>, n: Name)
    requires EdgesBack(g, done) && forall d :: Edge(g, n, d) ==> d in done
    ensures EdgesBack(g, done + [n])
  {
    var xs := done + [n];
    forall i, d | 0 <= i < |xs| && Edge(g, xs[i], d) ensures d in xs[..i] {
      if i < |done| {
        assert xs[..i] == done[..i];
      } else {
        assert xs[..i] == done;
      }
    }
  }

  /** Fails exactly when the walked edges have a cycle, and then reports a real one.
      `keys` is whatever order the map lists its keys in. */
  method DetectCycle(adj: Graph, keys: seq<Name>) returns (cycle: Option<seq<Name>>)
    requires forall k :: k in keys <==> k in adj
    ensures cycle.Some? ==> IsCycle(Walked(adj), cycle.value)
    ensures cycle.None? <==> !HasCycle(Walked(adj))
  {
    var finder := new CycleFinder(adj);
    for i := 0 to |keys|
      invariant finder.Valid() && finder.stack == [] && finder.adj == adj
      invariant forall j | 0 <= j < i :: keys[j] in finder.state && finder.state[keys[j]] == 2
    {
      cycle := finder.Walk(keys[i]);
      if cycle.Some? {
        return;
      }
    }
    forall p | IsCycle(Walked(adj), p) ensures false {
      assert Edge(Walked(adj), p[0], p[1]);
      assert p[0] in finder.done;
      OrderHasNoCycle(Walked(adj), finder.done, p);
    }
    return None;
  }

  /** The cycles the walk can find are those that avoid a node with an empty name. */
  lemma WalkedCycles(adj: Graph, p: seq<Name>)
    ensures IsCycle(Walked(adj), p) <==> IsCycle(adj, p) && "" !in p
  {
    var w := Walked(adj);
    forall a, b ensures Edge(w, a, b) <==> Edge(adj, a, b) && b in adj && b != "" {
    }
    if IsCycle(w, p) {
      forall i | 0 <= i < |p| ensures p[i] != "" {
        if i == 0 { assert Edge(w, p[|p| - 2], p[|p| - 1]); } else { assert Edge(w, p[i - 1], p[i]); }
      }
      forall i | 0 <= i < |p| - 1 ensures Edge(adj, p[i], p[i + 1]) { assert Edge(w, p[i], p[i + 1]); }
    }
    if IsCycle(adj, p) && "" !in p {
      forall i | 0 <= i < |p| - 1 ensures Edge(w, p[i], p[i + 1]) {
        assert Edge(adj, p[i], p[i + 1]);
        if i + 1 < |p| - 1 { assert Edge(adj, p[i + 1], p[i + 2]); } else { assert Edge(adj, p[0], p[1]); }
        assert p[i + 1] in p;
      }
    }
  }

  /** A cycle is missed exactly when every cycle there is goes through the empty name. */
  lemma MissedCycles(adj: Graph)
    ensures !HasCycle(Walked(adj)) <==> forall p :: IsCycle(adj, p) ==> "" in p
  {
    forall p ensures IsCycle(Walked(adj), p) <==> IsCycle(adj, p) && "" !in p { WalkedCycles(adj, p); }
  }

  /** A node with an empty name that depends on itself is such a miss. */
  lemma EmptyNameIsMissed()
    ensures var adj: Graph := map["" := [""]];
            HasCycle(adj) && !HasCycle(Walked(adj))
  {
    var adj: Graph := map["" := [""]];
    assert Edge(adj, "", "");
    assert IsCycle(adj, ["", ""]);
    forall p | IsCycle(adj, p) ensures "" in p {
      assert Edge(adj, p[0], p[1]);
      assert p[0] == "";
    }
    MissedCycles(adj);
  }

  // ------------------------------------------------------------------
  // The closure, dependencies first

  function DepsOf(adj: Graph, n: Name): seq<Name> {
    if n in adj then adj[n] else []
  }

  class Closure {
    const adj: Graph
    var seen: set<Name>
    var out: seq<Name>

    constructor (adj: Graph)
      ensures this.adj == adj && seen == {} && out == []
    {
      this.adj := adj;
      seen, out := {}, [];
    }

    /** Seen and not yet listed: the nodes whose visit is still going on. */
    ghost function Open(): set<Name>
      reads this
    {
      set x | x in seen && x !in out
    }

    ghost predicate Valid()
      reads this
    {
      && Distinct(out)
      && (forall x :: x in out ==> x in seen)
      && (forall x, d :: x in out && Edge(adj, x, d) ==> d in seen)
      && (forall i, d :: 0 <= i < |out| && Edge(adj, out[i], d) ==> d in out[..i] || Reaches(adj, d, out[i]))
    }

    /** Lists `n` and what it needs, after what it needs. */
    method Visit(n: Name)
      requires Valid() && n in Mentioned(adj)
      requires forall y <- Open() :: Reaches(adj, y, n)
      modifies this
      ensures Valid() && Open() == old(Open()) && n in seen
      ensures old(out) <= out && old(seen) <= seen
      ensures forall x | x in out && x !in old(out) :: x == n || Reaches(adj, n, x)
      decreases Mentioned(adj) - seen
    {
      if n in seen {
        return;
      }
      ghost var open, out0, seen0 := Open(), out, seen;
      seen := seen + {n};
      assert Open() == open + {n};
      var deps := DepsOf(adj, n);
      for i := 0 to |deps|
        invariant Valid() && Open() == open + {n} && n !in out
        invariant out0 <= out && seen0 + {n} <= seen
        invariant forall x | x in out && x !in out0 :: Reaches(adj, n, x)
        invariant forall j | 0 <= j < i :: deps[j] in seen
      {
        var d := deps[i];
        assert Edge(adj, n, d);
        EdgeReaches(adj, n, d);
        forall y | y in Open() ensures Reaches(adj, y, d) {
          if y != n { ReachesTrans(adj, y, n, d); }
        }
        ghost var was := out;
        Visit(d);
        forall x | x in out && x !in out0 ensures Reaches(adj, n, x) {
          if x !in was && x != d { ReachesTrans(adj, n, d, x); }
        }
      }
      ghost var last := out;
      out := out + [n];
      assert Open() == open;
      ListedLast(adj, last, n, open + {n}, seen);
    }
  }

  /** Listing a node after its visit keeps the order, but for edges to open nodes. */
  lemma ListedLast(adj: Graph, out: seq<Name>, n: Name, open: set<Name>, seen: set<Name>)
    requires forall i, d :: 0 <= i < |out| && Edge(adj, out[i], d) ==> d in out[..i] || Reaches(adj, d, out[i])
    requires forall d :: Edge(adj, n, d) ==> d in seen
    requires open == set x | x in seen && x !in out
    requires forall y <- open :: y == n || Reaches(adj, y, n)
    ensures var xs := out + [n];
            forall i, d :: 0 <= i < |xs| && Edge(adj, xs[i], d) ==> d in xs[..i] || Reaches(adj, d, xs[i])
  {
    var xs := out + [n];
    forall i, d | 0 <= i < |xs| && Edge(adj, xs[i], d) ensures d in xs[..i] || Reaches(adj, d, xs[i]) {
      if i < |out| {
        assert xs[..i] == out[..i];
      } else {
        assert xs[..i] == out;
        if d == n { EdgeReaches(adj, n, d); }
      }
    }
  }

  datatype Resolved = Order(names: seq<Name>) | UnknownTarget(name: Name)

  /** What the closure promises of a list: the roots and all they reach, once
      each, and in an acyclic graph every dependency before its dependents. */
  ghost predicate IsClosure(adj: Graph, roots: seq<Name>, out: seq<Name>) {
    && Distinct(out)
    && (forall x :: x in out <==> x in roots || exists r :: r in roots && Reaches(adj, r, x))
    && (!HasCycle(adj) ==> EdgesBack(adj, out))
  }

  method TopoClosure(adj: Graph, roots: seq<Name>) returns (r: Resolved)
    ensures r.Order? <==> forall t <- roots :: t in adj
    ensures r.UnknownTarget? ==> r.name in roots && r.name !in adj
    ensures r.Order? ==> IsClosure(adj, roots, r.names)
  {
    var c := new Closure(adj);
    for i := 0 to |roots|
      invariant c.Valid() && c.Open() == {} && c.adj == adj
      invariant forall j | 0 <= j < i :: roots[j] in c.seen && roots[j] in adj
      invariant forall x <- c.out :: x in roots || exists t :: t in roots && Reaches(adj, t, x)
    {
      if roots[i] !in adj {
        return UnknownTarget(roots[i]);
      }
      ghost var was := c.out;
      c.Visit(roots[i]);
    }
    forall x | x in c.seen ensures x in c.out { assert x !in c.Open(); }
    ListedAll(adj, roots, c.seen, c.out);
    return Order(c.out);
  }

  lemma ListedAll(adj: Graph, roots: seq<Name>, seen: set<Name>, out: seq<Name>)
    requires forall x :: x in seen <==> x in out
    requires Distinct(out)
    requires forall t <- roots :: t in seen
    requires forall x, d :: x in out && Edge(adj, x, d) ==> d in seen
    requires forall i, d :: 0 <= i < |out| && Edge(adj, out[i], d) ==> d in out[..i] || Reaches(adj, d, out[i])
    requires forall x <- out :: x in roots || exists t :: t in roots && Reaches(adj, t, x)
    ensures IsClosure(adj, roots, out)
  {
    forall x, t | t in roots && Reaches(adj, t, x) ensures x in out {
      ClosedHasReach(adj, seen, t, x);
    }
    if !HasCycle(adj) {
      forall i, d | 0 <= i < |out| && Edge(adj, out[i], d) ensures d in out[..i] {
        if Reaches(adj, d, out[i]) {
          EdgeReaches(adj, out[i], d);
          ReachesTrans(adj, d, out[i], d);
          SelfReachIsCycle(adj, d);
        }
      }
    }
  }
}
