/** Stopping a plan in waves: within one, nodes may stop together; between two,
    dependents come before what they need; and there are no more than it takes. */
module StopWaves {
  import opened Status
  import opened Graphs

  /** Every node's dependents come after it in the order. */
  ghost predicate DependentsLater(dependents: Graph, order: seq<Name>) {
    forall i, d | 0 <= i < |order| && Edge(dependents, order[i], d) :: d in order[i + 1..]
  }

  /** An order with dependencies first has dependents later. */
  lemma OrderedForStop(dependsOn: Graph, dependents: Graph, order: seq<Name>)
    requires Reverses(dependsOn, dependents) && Distinct(order) && EdgesBack(dependsOn, order)
    requires forall n :: n in dependsOn ==> n in order
    ensures DependentsLater(dependents, order)
  {
    forall i, d | 0 <= i < |order| && Edge(dependents, order[i], d) ensures d in order[i + 1..] {
      assert Edge(dependsOn, d, order[i]);
      var j := IndexOf(order, d);
      assert order[i] in order[..j];
      var k :| 0 <= k < j && order[k] == order[i];
      assert k == i;
      assert order[i + 1..][j - i - 1] == d;
    }
  }

  /** A node's wave is just after the last of its dependents', or the first. */
  ghost predicate JustAfter(dependents: Graph, wave: map<Name, nat>, n: Name)
    requires n in wave
  {
    && (forall d :: Edge(dependents, n, d) ==> d in wave && wave[d] < wave[n])
    && (wave[n] > 0 ==> exists d :: Edge(dependents, n, d) && d in wave && wave[d] + 1 == wave[n])
  }

  method Levels(order: seq<Name>, dependents: Graph) returns (wave: map<Name, nat>)
    requires Distinct(order) && DependentsLater(dependents, order)
    ensures forall n :: n in wave <==> n in order
    ensures forall n <- wave :: JustAfter(dependents, wave, n)
  {
    wave := map[];
    var i := |order|;
    while i > 0
      invariant 0 <= i <= |order|
      invariant forall n :: n in wave <==> n in order[i..]
      invariant forall n <- wave :: JustAfter(dependents, wave, n)
    {
      i := i - 1;
      var name := order[i];
      var w := LastOf(dependents, wave, name);
      assert name !in order[i + 1..];
      ghost var was := wave;
      wave := wave[name := w];
      assert order[i..] == [name] + order[i + 1..];
      forall n <- wave ensures JustAfter(dependents, wave, n) {
        if n != name {
          assert JustAfter(dependents, was, n);
          if wave[n] > 0 {
            var d :| Edge(dependents, n, d) && d in was && was[d] + 1 == was[n];
            assert d in wave && wave[d] + 1 == wave[n];
          }
        } else {
          forall d | Edge(dependents, n, d) ensures d in wave && wave[d] < wave[n] {
            assert d in order[i + 1..];
            assert d in was;
          }
        }
      }
    }
  }

  /** One past the latest wave among the dependents already placed; 0 if none is. */
  method LastOf(dependents: Graph, wave: map<Name, nat>, name: Name) returns (w: nat)
    ensures forall d :: Edge(dependents, name, d) && d in wave ==> wave[d] < w
    ensures w > 0 ==> exists d :: Edge(dependents, name, d) && d in wave && wave[d] + 1 == w
  {
    w := 0;
    if name in dependents {
      var ds := dependents[name];
      for k := 0 to |ds|
        invariant forall j | 0 <= j < k :: ds[j] in wave ==> wave[ds[j]] < w
        invariant w > 0 ==> exists d :: Edge(dependents, name, d) && d in wave && wave[d] + 1 == w
      {
        if ds[k] in wave && wave[ds[k]] + 1 > w {
          w := wave[ds[k]] + 1;
          assert Edge(dependents, name, ds[k]);
        }
      }
    }
  }

  /** The nodes of `from`, last first, whose wave is `w`. */
  function Of(from: seq<Name>, wave: map<Name, nat>, w: nat): seq<Name>
    requires forall n <- from :: n in wave
  {
    if from == [] then [] else Here(from[|from|-1], wave, w) + Of(from[..|from|-1], wave, w)
  }

  function Here(n: Name, wave: map<Name, nat>, w: nat): seq<Name>
    requires n in wave
  {
    if wave[n] == w then [n] else []
  }

  /** What `Of` holds of the part of the order from `i` on. */
  lemma {:induction false} OfFront(order: seq<Name>, wave: map<Name, nat>, w: nat)
    requires order != [] && forall n <- order :: n in wave
    ensures Of(order, wave, w) == Of(order[1..], wave, w) + Here(order[0], wave, w)
    decreases |order|
  {
    if |order| > 1 {
      var front, rest := order[..|order|-1], order[1..];
      var middle := rest[..|rest|-1];
      assert front[1..] == middle;
      assert front[0] == order[0] && rest[|rest|-1] == order[|order|-1];
      OfFront(front, wave, w);
      var first, last := Here(order[0], wave, w), Here(order[|order|-1], wave, w);
      assert Of(order, wave, w) == last + Of(front, wave, w);
      assert Of(front, wave, w) == Of(middle, wave, w) + first;
      assert Of(rest, wave, w) == last + Of(middle, wave, w);
    } else {
      assert order[..0] == [] && order[1..] == [];
    }
  }

  /** The waves as they stand when `from`, the end of the order, has been placed. */
  ghost predicate Filled(waves: seq<seq<Name>>, from: seq<Name>, wave: map<Name, nat>) {
    && (forall n <- from :: n in wave && wave[n] < |waves|)
    && (forall w | 0 <= w < |waves| :: waves[w] == Of(from, wave, w) && waves[w] != [])
  }

  lemma {:induction false} OfNone(from: seq<Name>, wave: map<Name, nat>, w: nat)
    requires forall n <- from :: n in wave && wave[n] != w
    ensures Of(from, wave, w) == []
    decreases |from|
  {
    if from != [] {
      assert from[|from|-1] in from;
      OfNone(from[..|from|-1], wave, w);
    }
  }

  lemma Placed(waves: seq<seq<Name>>, from: seq<Name>, wave: map<Name, nat>)
    requires from != [] && from[0] in wave && Filled(waves, from[1..], wave) && wave[from[0]] <= |waves|
    ensures var name := from[0];
            var wide := if |waves| == wave[name] then waves + [[]] else waves;
            Filled(wide[wave[name] := wide[wave[name]] + [name]], from, wave)
  {
    var name := from[0];
    var wide := if |waves| == wave[name] then waves + [[]] else waves;
    var next := wide[wave[name] := wide[wave[name]] + [name]];
    assert from == [name] + from[1..];
    forall n <- from ensures n in wave && wave[n] < |next| { }
    if |waves| == wave[name] { OfNone(from[1..], wave, wave[name]); }
    forall w | 0 <= w < |next| ensures next[w] == Of(from, wave, w) && next[w] != [] {
      OfFront(from, wave, w);
    }
  }

  /** No wave is skipped: a dependent is placed already, one wave before. */
  lemma NextWave(waves: seq<seq<Name>>, order: seq<Name>, dependents: Graph, wave: map<Name, nat>, i: nat)
    requires i < |order| && DependentsLater(dependents, order)
    requires order[i] in wave && JustAfter(dependents, wave, order[i])
    requires Filled(waves, order[i + 1..], wave)
    ensures wave[order[i]] <= |waves|
  {
    if wave[order[i]] > 0 {
      var d :| Edge(dependents, order[i], d) && d in wave && wave[d] + 1 == wave[order[i]];
      assert d in order[i + 1..];
    }
  }

  /** The waves, first to stop first. */
  method Waves(order: seq<Name>, dependents: Graph) returns (waves: seq<seq<Name>>, wave: map<Name, nat>)
    requires Distinct(order) && DependentsLater(dependents, order)
    ensures forall n :: n in wave <==> n in order
    ensures forall n <- wave :: JustAfter(dependents, wave, n)
    ensures Filled(waves, order, wave)
  {
    var level := Levels(order, dependents);
    wave := level;
    waves := [];
    hide Filled, JustAfter, DependentsLater;
    var i := |order|;
    FilledNone(level);
    assert order[i..] == [];
    while i > 0
      invariant 0 <= i <= |order|
      invariant Filled(waves, order[i..], level)
    {
      i := i - 1;
      var w := level[order[i]];
      assert order[i..][1..] == order[i + 1..];
      NextWave(waves, order, dependents, level, i);
      Placed(waves, order[i..], level);
      if |waves| <= w {
        waves := waves + [[]];
      }
      waves := waves[w := waves[w] + [order[i]]];
    }
    assert order[0..] == order;
  }

  lemma FilledNone(wave: map<Name, nat>)
    ensures Filled([], [], wave)
  {
  }

  // ------------------------------------------------------------------
  // What the waves are

  lemma OnFront(last: Name, rest: seq<Name>, wave: map<Name, nat>, w: nat)
    requires last in wave && last !in rest && Distinct(rest)
    ensures Distinct(Here(last, wave, w) + rest)
  {
    var all := Here(last, wave, w) + rest;
    forall i, j | 0 <= i < j < |all| ensures all[i] != all[j] {
      assert all[j] == rest[j - |Here(last, wave, w)|];
    }
  }

  lemma {:induction false} OfHolds(from: seq<Name>, wave: map<Name, nat>, w: nat)
    requires forall n <- from :: n in wave
    requires Distinct(from)
    ensures forall n :: n in Of(from, wave, w) <==> n in from && wave[n] == w
    ensures Distinct(Of(from, wave, w))
    decreases |from|
  {
    if from != [] {
      var front, last := from[..|from|-1], from[|from|-1];
      OfHolds(front, wave, w);
      assert from == front + [last];
      assert last !in front;
      forall n ensures n in Of(from, wave, w) <==> n in from && wave[n] == w {
        assert n in Of(front, wave, w) <==> n in front && wave[n] == w;
      }
      OnFront(last, Of(front, wave, w), wave, w);
    }
  }

  /** The waves partition the plan: each node stands in exactly one, once. */
  lemma WavesPartition(order: seq<Name>, wave: map<Name, nat>, waves: seq<seq<Name>>, n: Name)
    requires Distinct(order) && n in order
    requires forall m :: m in wave <==> m in order
    requires Filled(waves, order, wave)
    ensures wave[n] < |waves| && Distinct(waves[wave[n]])
    ensures forall w | 0 <= w < |waves| :: n in waves[w] <==> w == wave[n]
  {
    forall w | 0 <= w < |waves| ensures n in waves[w] <==> w == wave[n] { OfHolds(order, wave, w); }
    OfHolds(order, wave, wave[n]);
  }

  /** A schedule that stops every dependent strictly before what it needs. */
  ghost predicate Schedule(dependents: Graph, order: seq<Name>, at: Name -> nat) {
    forall n, d :: n in order && Edge(dependents, n, d) ==> at(d) < at(n)
  }

  /** No wave is empty, so there are as many waves as the latest needs. */
  lemma NoEmptyWave(order: seq<Name>, wave: map<Name, nat>, waves: seq<seq<Name>>, w: nat) returns (n: Name)
    requires Distinct(order) && Filled(waves, order, wave) && w < |waves|
    ensures n in order && wave[n] == w
  {
    OfHolds(order, wave, w);
    n := waves[w][0];
  }

  /** No schedule stops a node earlier: the waves are as few as any allows. */
  lemma {:induction false} WavesAreEarliest(dependents: Graph, order: seq<Name>, wave: map<Name, nat>, at: Name -> nat, n: Name)
    requires forall m :: m in wave <==> m in order
    requires forall m <- wave :: JustAfter(dependents, wave, m)
    requires Schedule(dependents, order, at) && n in wave
    ensures wave[n] <= at(n)
    decreases wave[n]
  {
    if wave[n] > 0 {
      assert JustAfter(dependents, wave, n);
      var d :| Edge(dependents, n, d) && d in wave && wave[d] + 1 == wave[n];
      WavesAreEarliest(dependents, order, wave, at, d);
    }
  }

  /** The longest chain of dependents above a node is as long as its wave is late. */
  lemma {:induction false} ChainAbove(dependents: Graph, wave: map<Name, nat>, n: Name) returns (chain: seq<Name>)
    requires forall m <- wave :: JustAfter(dependents, wave, m)
    requires n in wave
    ensures |chain| == wave[n] + 1 && chain[0] == n && IsPath(dependents, chain)
    decreases wave[n]
  {
    chain := [n];
    if wave[n] > 0 {
      assert JustAfter(dependents, wave, n);
      var d :| Edge(dependents, n, d) && d in wave && wave[d] + 1 == wave[n];
      var rest := ChainAbove(dependents, wave, d);
      chain := [n] + rest;
      forall i | 0 <= i < |chain| - 1 ensures Edge(dependents, chain[i], chain[i + 1]) {
        if i > 0 { assert Edge(dependents, rest[i - 1], rest[i]); }
      }
    }
  }

  /** And no chain of dependents is longer than there are waves. */
  lemma {:induction false} ChainsFit(dependents: Graph, wave: map<Name, nat>, chain: seq<Name>)
    requires forall m <- wave :: JustAfter(dependents, wave, m)
    requires IsPath(dependents, chain) && chain[0] in wave
    ensures |chain| <= wave[chain[0]] + 1
    decreases |chain|
  {
    if |chain| > 1 {
      assert JustAfter(dependents, wave, chain[0]);
      assert Edge(dependents, chain[0], chain[1]);
      var rest := chain[1..];
      forall i | 0 <= i < |rest| - 1 ensures Edge(dependents, rest[i], rest[i + 1]) {
        assert Edge(dependents, chain[i + 1], chain[i + 2]);
      }
      ChainsFit(dependents, wave, rest);
    }
  }

  // ------------------------------------------------------------------
  // Shutting down

  /** What a shutdown does: sends a stop, or sees a supervisor end or overrun its grace. */
  datatype Act = SendStop(node: Name) | Ended(node: Name) | GraceOut(node: Name)

  /** A node's supervisor has ended, or its grace ran out. */
  predicate Over(acts: seq<Act>, n: Name) {
    Ended(n) in acts || GraceOut(n) in acts
  }

  /** Every node in the waves before `w` is over. */
  ghost predicate GoneBefore(acts: seq<Act>, waves: seq<seq<Name>>, w: nat) {
    forall v, a :: 0 <= v < w && v < |waves| && a in waves[v] ==> Over(acts, a)
  }

  /** Each stop is sent only when every earlier wave is over. */
  ghost predicate Orderly(acts: seq<Act>, waves: seq<seq<Name>>, wave: map<Name, nat>) {
    forall i | 0 <= i < |acts| && acts[i].SendStop? ::
      acts[i].node in wave && GoneBefore(acts[..i], waves, wave[acts[i].node])
  }

  lemma OneMoreAct(acts: seq<Act>, a: Act, waves: seq<seq<Name>>, wave: map<Name, nat>, w: nat)
    requires Orderly(acts, waves, wave) && GoneBefore(acts, waves, w)
    requires a.SendStop? ==> a.node in wave && wave[a.node] == w
    ensures Orderly(acts + [a], waves, wave) && GoneBefore(acts + [a], waves, w)
    ensures forall n :: Over(acts, n) ==> Over(acts + [a], n)
  {
    var xs := acts + [a];
    forall n | Over(acts, n) ensures Over(xs, n) { }
    forall v, n | 0 <= v < w && v < |waves| && n in waves[v] ensures Over(xs, n) { assert Over(acts, n); }
    forall i | 0 <= i < |xs| && xs[i].SendStop?
      ensures xs[i].node in wave && GoneBefore(xs[..i], waves, wave[xs[i].node])
    {
      if i < |acts| { assert xs[..i] == acts[..i]; } else { assert xs[..i] == acts; }
    }
  }

  /** Sends a wave its stops and waits for that wave's supervisors before the next. `ends` says which supervisors end within their grace. */
  method Shutdown(waves: seq<seq<Name>>, ghost wave: map<Name, nat>, ends: Name -> bool) returns (acts: seq<Act>)
    requires forall w, n :: 0 <= w < |waves| && n in waves[w] ==> n in wave && wave[n] == w
    ensures Orderly(acts, waves, wave)
    ensures GoneBefore(acts, waves, |waves|)
    ensures forall w, n :: 0 <= w < |waves| && n in waves[w] ==> SendStop(n) in acts
  {
    acts := [];
    hide Orderly, GoneBefore, Over;
    NothingYet(waves, wave);
    for w := 0 to |waves|
      invariant Orderly(acts, waves, wave) && GoneBefore(acts, waves, w)
      invariant forall v, n :: 0 <= v < w && n in waves[v] ==> SendStop(n) in acts
    {
      var now := waves[w];
      ghost var before := acts;
      for k := 0 to |now|
        invariant before <= acts
        invariant Orderly(acts, waves, wave) && GoneBefore(acts, waves, w)
        invariant forall j | 0 <= j < k :: SendStop(now[j]) in acts
      {
        OneMoreAct(acts, SendStop(now[k]), waves, wave, w);
        acts := acts + [SendStop(now[k])];
      }
      ghost var sent := acts;
      for k := 0 to |now|
        invariant sent <= acts
        invariant Orderly(acts, waves, wave) && GoneBefore(acts, waves, w)
        invariant forall j | 0 <= j < k :: Over(acts, now[j])
      {
        var a := if ends(now[k]) then Ended(now[k]) else GraceOut(now[k]);
        OneMoreAct(acts, a, waves, wave, w);
        OverNow(acts, a);
        acts := acts + [a];
      }
      WaveOver(acts, waves, w);
    }
  }

  lemma NothingYet(waves: seq<seq<Name>>, wave: map<Name, nat>)
    ensures Orderly([], waves, wave) && GoneBefore([], waves, 0)
  {
  }

  lemma OverNow(acts: seq<Act>, a: Act)
    requires !a.SendStop?
    ensures Over(acts + [a], a.node)
  {
    assert (acts + [a])[|acts|] == a;
  }

  lemma WaveOver(acts: seq<Act>, waves: seq<seq<Name>>, w: nat)
    requires w < |waves| && GoneBefore(acts, waves, w) && forall n <- waves[w] :: Over(acts, n)
    ensures GoneBefore(acts, waves, w + 1)
  {
  }

  /** A node is told to stop only after each of its dependents' supervisors has
      ended, or its grace ran out. */
  lemma StoppedAfterDependents(acts: seq<Act>, waves: seq<seq<Name>>, wave: map<Name, nat>,
                               order: seq<Name>, dependents: Graph, i: nat, d: Name)
    requires Distinct(order) && (forall n :: n in wave <==> n in order)
    requires Filled(waves, order, wave) && forall n <- wave :: JustAfter(dependents, wave, n)
    requires Orderly(acts, waves, wave)
    requires i < |acts| && acts[i].SendStop? && Edge(dependents, acts[i].node, d)
    ensures Over(acts[..i], d)
  {
    assert JustAfter(dependents, wave, acts[i].node);
    WavesPartition(order, wave, waves, d);
  }
}
