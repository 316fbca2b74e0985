/**
  The lifecycle history: facts applied to the live nodes as they are recorded,
  kept in a bounded list whose oldest entries are folded into a summary.
 */
module LifeHistory {
  import opened Status

  datatype Fact =
    | Became(status: Status)
    | Reason(why: string)
    | Restarted(why: string)
    | Spawned(pid: Option<nat>)
    | Pid(pid: Option<nat>)

  /** The lifecycle half of a node. */
  datatype Life = Life(status: Status, reason: Option<string>, restarts: nat, pid: Option<nat>,
                       startedAt: Option<Instant>, generation: nat)

  /** The other half is what a node's output has shown; no history holds it. */
  datatype NodeState = NodeState(life: Life, logReady: bool, errors: nat)

  datatype Entry = Entry(seqNo: nat, at: Instant, node: Name, fact: Fact)

  datatype Tally = Tally(restarts: nat, failures: nat)

  type Nodes = map<Name, NodeState>

  /** A node after one more fact about it. */
  function Apply(n: NodeState, fact: Fact, at: Instant): NodeState {
    match fact
    case Became(status) =>
      var life := n.life.(status := status,
                          generation := n.life.generation + (if status.IsReady() then 1 else 0));
      if status.Running? || status.Starting? then NodeState(life, false, 0) else n.(life := life)
    case Reason(why) => n.(life := n.life.(reason := Some(why)))
    case Restarted(why) => n.(life := n.life.(restarts := n.life.restarts + 1, reason := Some(why)))
    case Spawned(pid) => n.(life := n.life.(pid := pid, startedAt := Some(at)))
    case Pid(pid) => n.(life := n.life.(pid := pid))
  }

  function ApplyTo(nodes: Nodes, e: Entry): Nodes {
    if e.node in nodes then nodes[e.node := Apply(nodes[e.node], e.fact, e.at)] else nodes
  }

  /** Every fact applied in turn. */
  function Replay(seed: Nodes, all: seq<Entry>): Nodes {
    if all == [] then seed else ApplyTo(Replay(seed, all[..|all| - 1]), all[|all| - 1])
  }

  function Lives(nodes: Nodes): map<Name, Life> {
    map n | n in nodes :: nodes[n].life
  }

  lemma {:induction false} ReplayJoins(seed: Nodes, a: seq<Entry>, b: seq<Entry>)
    ensures Replay(seed, a + b) == Replay(Replay(seed, a), b)
  {
    hide ApplyTo;
    if b == [] {
      assert a + b == a;
    } else {
      ReplayJoins(seed, a, b[..|b| - 1]);
      assert (a + b)[..|a + b| - 1] == a + b[..|b| - 1];
    }
  }

  lemma {:induction false} ReplayNames(seed: Nodes, all: seq<Entry>)
    ensures Replay(seed, all).Keys == seed.Keys
  {
    hide Apply;
    if all != [] {
      ReplayNames(seed, all[..|all| - 1]);
    }
  }

  /** Lives are a matter of lives alone: what output has shown never enters. */
  lemma LivesStep(a: Nodes, b: Nodes, e: Entry)
    requires Lives(a) == Lives(b)
    ensures Lives(ApplyTo(a, e)) == Lives(ApplyTo(b, e))
  {
    assert a.Keys == Lives(a).Keys == Lives(b).Keys == b.Keys;
    forall n | n in a ensures a[n].life == b[n].life {
      assert Lives(a)[n] == Lives(b)[n];
    }
    var a', b' := ApplyTo(a, e), ApplyTo(b, e);
    forall n | n in a' ensures n in b' && a'[n].life == b'[n].life {
    }
  }

  function RestartsOf(node: Name, all: seq<Entry>): nat {
    if all == [] then 0
    else RestartsOf(node, all[..|all| - 1])
         + (var e := all[|all| - 1]; if e.node == node && e.fact.Restarted? then 1 else 0)
  }

  function FailuresOf(node: Name, all: seq<Entry>): nat {
    if all == [] then 0
    else FailuresOf(node, all[..|all| - 1])
         + (var e := all[|all| - 1];
            if e.node == node && e.fact.Became? && (e.fact.status.Failed? || e.fact.status.Unhealthy?) then 1 else 0)
  }

  /** A node's restarts are its restart facts. */
  lemma {:induction false} RestartsAreFacts(seed: Nodes, all: seq<Entry>, node: Name)
    requires node in seed
    ensures node in Replay(seed, all)
    ensures Replay(seed, all)[node].life.restarts == seed[node].life.restarts + RestartsOf(node, all)
  {
    if all != [] {
      RestartsAreFacts(seed, all[..|all| - 1], node);
    }
  }

  predicate StatusFact(e: Entry, node: Name) {
    e.node == node && e.fact.Became?
  }

  lemma {:induction false} GenerationGrows(nodes: Nodes, more: seq<Entry>, node: Name)
    requires node in nodes
    ensures node in Replay(nodes, more)
    ensures var was, now := nodes[node].life, Replay(nodes, more)[node].life;
            && was.generation <= now.generation
            && (now.generation == was.generation && now.status.IsReady() ==> forall e :: e in more ==> !StatusFact(e, node))
            && ((forall e :: e in more ==> !StatusFact(e, node)) ==>
                  now.generation == was.generation && now.status == was.status)
  {
    if more != [] {
      var front, last := more[..|more| - 1], more[|more| - 1];
      GenerationGrows(nodes, front, node);
      assert more == front + [last];
      assert forall e :: e in more <==> e in front || e == last;
      if !StatusFact(last, node) {
        LastIsNoStatus(nodes, front, last, node);
      }
    }
  }

  lemma LastIsNoStatus(nodes: Nodes, front: seq<Entry>, last: Entry, node: Name)
    requires node in Replay(nodes, front) && !StatusFact(last, node)
    ensures var before, after := Replay(nodes, front), ApplyTo(Replay(nodes, front), last);
            && node in after
            && after[node].life.status == before[node].life.status
            && after[node].life.generation == before[node].life.generation
  {
  }

  /** A node seen ready twice with one generation has not had its status
      written in between, so it never left ready; and only then. */
  lemma SameGenerationMeansStayed(seed: Nodes, all: seq<Entry>, i: nat, j: nat, node: Name)
    requires i <= j <= |all| && node in seed
    ensures node in Replay(seed, all[..i]) && node in Replay(seed, all[..j])
    ensures var a, b := Replay(seed, all[..i])[node].life, Replay(seed, all[..j])[node].life;
            b.status.IsReady() ==>
              (a.generation == b.generation <==> forall k :: i <= k < j ==> !StatusFact(all[k], node))
    ensures var a, b := Replay(seed, all[..i])[node].life, Replay(seed, all[..j])[node].life;
            b.status.IsReady() && a.generation == b.generation ==>
              forall k :: i <= k <= j ==> node in Replay(seed, all[..k]) && Replay(seed, all[..k])[node].life.status == a.status
  {
    hide ApplyTo;
    ReplayNames(seed, all[..i]);
    ReplayNames(seed, all[..j]);
    var more := all[i..j];
    assert all[..j] == all[..i] + more;
    ReplayJoins(seed, all[..i], more);
    GenerationGrows(Replay(seed, all[..i]), more, node);
    assert forall k :: i <= k < j ==> all[k] == more[k - i];
    var a, b := Replay(seed, all[..i])[node].life, Replay(seed, all[..j])[node].life;
    if b.status.IsReady() && a.generation == b.generation {
      forall k | i <= k <= j
        ensures node in Replay(seed, all[..k]) && Replay(seed, all[..k])[node].life.status == a.status
      {
        assert all[..k] == all[..i] + all[i..k];
        ReplayJoins(seed, all[..i], all[i..k]);
        assert forall e :: e in all[i..k] ==> e in more;
        GenerationGrows(Replay(seed, all[..i]), all[i..k], node);
      }
    }
  }

  // ------------------------------------------------------------------
  // What a node is, from the facts about it

  /** What a fact may settle. */
  datatype Kind = OfStatus | OfPid | OfStart | OfReason

  predicate Settles(e: Entry, kind: Kind, node: Name) {
    && e.node == node
    && match kind
       case OfStatus => e.fact.Became?
       case OfPid => e.fact.Spawned? || e.fact.Pid?
       case OfStart => e.fact.Spawned?
       case OfReason => e.fact.Reason? || e.fact.Restarted?
  }

  ghost predicate Newest(all: seq<Entry>, i: int, kind: Kind, node: Name) {
    && 0 <= i < |all| && Settles(all[i], kind, node)
    && forall j :: i < j < |all| ==> !Settles(all[j], kind, node)
  }

  ghost predicate Unsettled(all: seq<Entry>, kind: Kind, node: Name) {
    forall j :: 0 <= j < |all| ==> !Settles(all[j], kind, node)
  }

  /** One more fact is the newest of its kind, and leaves the others. */
  lemma NewestStep(front: seq<Entry>, e: Entry, kind: Kind, node: Name)
    ensures Unsettled(front + [e], kind, node) <==> Unsettled(front, kind, node) && !Settles(e, kind, node)
    ensures Newest(front + [e], |front|, kind, node) <==> Settles(e, kind, node)
    ensures forall i :: i != |front| ==>
      (Newest(front + [e], i, kind, node) <==> Newest(front, i, kind, node) && !Settles(e, kind, node))
  {
    hide Settles;
    var all := front + [e];
    assert all[|front|] == e;
    assert forall i :: 0 <= i < |front| ==> all[i] == front[i];
  }

  /** A new attempt, from which what output has shown starts over. */
  predicate Attempt(fact: Fact) {
    fact.Became? && (fact.status.Running? || fact.status.Starting?)
  }

  predicate AttemptFact(e: Entry, node: Name) {
    e.node == node && Attempt(e.fact)
  }

  function ResultsOf(node: Name, all: seq<Entry>): nat {
    if all == [] then 0
    else ResultsOf(node, all[..|all| - 1])
         + (var e := all[|all| - 1]; if StatusFact(e, node) && e.fact.status.IsReady() then 1 else 0)
  }

  /** Each part of a node is what the newest fact of its kind says, or the seed's if
      there is none. */
  ghost predicate FromFacts(was: NodeState, all: seq<Entry>, node: Name, n: NodeState) {
    && StatusFrom(was, all, node, n) && PidFrom(was, all, node, n)
    && StartFrom(was, all, node, n) && ReasonFrom(was, all, node, n)
    && CountsFrom(was, all, node, n) && OutputFrom(was, all, node, n)
  }

  predicate CountsFrom(was: NodeState, all: seq<Entry>, node: Name, n: NodeState) {
    && n.life.restarts == was.life.restarts + RestartsOf(node, all)
    && n.life.generation == was.life.generation + ResultsOf(node, all)
  }

  ghost predicate OutputFrom(was: NodeState, all: seq<Entry>, node: Name, n: NodeState) {
    if exists i :: 0 <= i < |all| && AttemptFact(all[i], node) then !n.logReady && n.errors == 0
    else n.logReady == was.logReady && n.errors == was.errors
  }

  ghost predicate StatusFrom(was: NodeState, all: seq<Entry>, node: Name, n: NodeState) {
    && (forall i :: Newest(all, i, OfStatus, node) ==> n.life.status == all[i].fact.status)
    && (Unsettled(all, OfStatus, node) ==> n.life.status == was.life.status)
  }

  ghost predicate PidFrom(was: NodeState, all: seq<Entry>, node: Name, n: NodeState) {
    && (forall i :: Newest(all, i, OfPid, node) ==> n.life.pid == all[i].fact.pid)
    && (Unsettled(all, OfPid, node) ==> n.life.pid == was.life.pid)
  }

  ghost predicate StartFrom(was: NodeState, all: seq<Entry>, node: Name, n: NodeState) {
    && (forall i :: Newest(all, i, OfStart, node) ==> n.life.startedAt == Some(all[i].at))
    && (Unsettled(all, OfStart, node) ==> n.life.startedAt == was.life.startedAt)
  }

  ghost predicate ReasonFrom(was: NodeState, all: seq<Entry>, node: Name, n: NodeState) {
    && (forall i :: Newest(all, i, OfReason, node) ==> n.life.reason == Some(all[i].fact.why))
    && (Unsettled(all, OfReason, node) ==> n.life.reason == was.life.reason)
  }

  lemma NewestWithin(all: seq<Entry>, kind: Kind, node: Name)
    ensures forall i :: Newest(all, i, kind, node) ==> 0 <= i < |all| && Settles(all[i], kind, node)
  {
  }

  lemma StatusStep(was: NodeState, front: seq<Entry>, e: Entry, node: Name, n: NodeState)
    requires StatusFrom(was, front, node, n)
    ensures StatusFrom(was, front + [e], node, if e.node == node then Apply(n, e.fact, e.at) else n)
  {
    NewestStep(front, e, OfStatus, node);
    hide Newest, Unsettled;
    assert forall i :: 0 <= i < |front| ==> (front + [e])[i] == front[i];
    assert forall i :: Newest(front, i, OfStatus, node) ==> 0 <= i < |front| by { NewestWithin(front, OfStatus, node); }
  }

  lemma PidStep(was: NodeState, front: seq<Entry>, e: Entry, node: Name, n: NodeState)
    requires PidFrom(was, front, node, n)
    ensures PidFrom(was, front + [e], node, if e.node == node then Apply(n, e.fact, e.at) else n)
  {
    NewestStep(front, e, OfPid, node);
    hide Newest, Unsettled;
    assert forall i :: 0 <= i < |front| ==> (front + [e])[i] == front[i];
    assert forall i :: Newest(front, i, OfPid, node) ==> 0 <= i < |front| by { NewestWithin(front, OfPid, node); }
  }

  lemma StartStep(was: NodeState, front: seq<Entry>, e: Entry, node: Name, n: NodeState)
    requires StartFrom(was, front, node, n)
    ensures StartFrom(was, front + [e], node, if e.node == node then Apply(n, e.fact, e.at) else n)
  {
    NewestStep(front, e, OfStart, node);
    hide Newest, Unsettled;
    assert forall i :: 0 <= i < |front| ==> (front + [e])[i] == front[i];
    assert forall i :: Newest(front, i, OfStart, node) ==> 0 <= i < |front| by { NewestWithin(front, OfStart, node); }
  }

  lemma ReasonStep(was: NodeState, front: seq<Entry>, e: Entry, node: Name, n: NodeState)
    requires ReasonFrom(was, front, node, n)
    ensures ReasonFrom(was, front + [e], node, if e.node == node then Apply(n, e.fact, e.at) else n)
  {
    NewestStep(front, e, OfReason, node);
    hide Newest, Unsettled;
    assert forall i :: 0 <= i < |front| ==> (front + [e])[i] == front[i];
    assert forall i :: Newest(front, i, OfReason, node) ==> 0 <= i < |front| by { NewestWithin(front, OfReason, node); }
  }

  lemma CountsStep(was: NodeState, front: seq<Entry>, e: Entry, node: Name, n: NodeState)
    requires CountsFrom(was, front, node, n)
    ensures CountsFrom(was, front + [e], node, if e.node == node then Apply(n, e.fact, e.at) else n)
  {
    RestartsSnoc(front, e, node);
    ResultsSnoc(front, e, node);
    hide RestartsOf, ResultsOf;
  }

  lemma RestartsSnoc(front: seq<Entry>, e: Entry, node: Name)
    ensures RestartsOf(node, front + [e]) == RestartsOf(node, front) + (if e.node == node && e.fact.Restarted? then 1 else 0)
  {
    assert (front + [e])[..|front + [e]| - 1] == front;
  }

  lemma ResultsSnoc(front: seq<Entry>, e: Entry, node: Name)
    ensures ResultsOf(node, front + [e])
         == ResultsOf(node, front) + (if StatusFact(e, node) && e.fact.status.IsReady() then 1 else 0)
  {
    assert (front + [e])[..|front + [e]| - 1] == front;
  }

  lemma OutputStep(was: NodeState, front: seq<Entry>, e: Entry, node: Name, n: NodeState)
    requires OutputFrom(was, front, node, n)
    ensures OutputFrom(was, front + [e], node, if e.node == node then Apply(n, e.fact, e.at) else n)
  {
    var all := front + [e];
    assert forall i :: 0 <= i < |front| ==> all[i] == front[i];
    if AttemptFact(e, node) { assert AttemptFact(all[|front|], node); }
    if i :| 0 <= i < |front| && AttemptFact(front[i], node) { assert AttemptFact(all[i], node); }
  }

  lemma FactsStep(was: NodeState, front: seq<Entry>, e: Entry, node: Name, n: NodeState)
    requires FromFacts(was, front, node, n)
    ensures FromFacts(was, front + [e], node, if e.node == node then Apply(n, e.fact, e.at) else n)
  {
    hide StatusFrom, PidFrom, StartFrom, ReasonFrom, CountsFrom, OutputFrom, Apply;
    StatusStep(was, front, e, node, n);
    PidStep(was, front, e, node, n);
    StartStep(was, front, e, node, n);
    ReasonStep(was, front, e, node, n);
    CountsStep(was, front, e, node, n);
    OutputStep(was, front, e, node, n);
  }

  /** Over every sequence of facts: a node's status is that of the newest status
      fact about it, its process and start time are those of the newest facts about
      those, its reason is the newest given; restarts and results are counted; and
      what its output had shown is forgotten exactly if a new attempt began. */
  lemma {:induction false} NodeIsItsFacts(seed: Nodes, all: seq<Entry>, node: Name)
    requires node in seed
    ensures node in Replay(seed, all) && FromFacts(seed[node], all, node, Replay(seed, all)[node])
  {
    hide FromFacts, Apply;
    if all == [] {
      SeedHasNoFacts(seed[node], node);
    } else {
      var front, e := all[..|all| - 1], all[|all| - 1];
      NodeIsItsFacts(seed, front, node);
      FactsStep(seed[node], front, e, node, Replay(seed, front)[node]);
      assert all == front + [e];
    }
  }

  lemma SeedHasNoFacts(was: NodeState, node: Name)
    ensures FromFacts(was, [], node, was)
  {
  }

  function Count(t: Tally, fact: Fact): Tally {
    match fact
    case Restarted(_) => t.(restarts := t.restarts + 1)
    case Became(status) => if status.Failed? || status.Unhealthy? then t.(failures := t.failures + 1) else t
    case _ => t
  }

  function TallyAt(tallies: map<Name, Tally>, node: Name): Tally {
    if node in tallies then tallies[node] else Tally(0, 0)
  }

  ghost predicate Tallied(tallies: map<Name, Tally>, all: seq<Entry>) {
    forall n :: TallyAt(tallies, n) == Tally(RestartsOf(n, all), FailuresOf(n, all))
  }

  lemma TallyStep(tallies: map<Name, Tally>, all: seq<Entry>, e: Entry)
    requires Tallied(tallies, all)
    ensures Tallied(tallies[e.node := Count(TallyAt(tallies, e.node), e.fact)], all + [e])
  {
    assert (all + [e])[..|all + [e]| - 1] == all;
    assert (all + [e])[|all + [e]| - 1] == e;
    forall n
      ensures TallyAt(tallies[e.node := Count(TallyAt(tallies, e.node), e.fact)], n)
           == Tally(RestartsOf(n, all + [e]), FailuresOf(n, all + [e]))
    {
      assert TallyAt(tallies, n) == Tally(RestartsOf(n, all), FailuresOf(n, all));
    }
  }

  lemma ReplayStep(seed: Nodes, all: seq<Entry>, i: nat)
    requires i < |all|
    ensures Replay(seed, all[..i + 1]) == ApplyTo(Replay(seed, all[..i]), all[i])
  {
    assert all[..i + 1][..i] == all[..i];
  }

  lemma OnlyStep(entries: seq<Entry>, i: nat, node: Option<Name>)
    requires i < |entries|
    ensures Only(entries[..i + 1], node) == Only(entries[..i], node) + (if About(node, entries[i]) then [entries[i]] else [])
  {
    assert entries[..i + 1][..i] == entries[..i];
  }

  predicate About(node: Option<Name>, e: Entry) {
    node.None? || e.node == node.value
  }

  /** The entries about a node, or about any. */
  function Only(entries: seq<Entry>, node: Option<Name>): seq<Entry> {
    if entries == [] then []
    else
      var last := entries[|entries| - 1];
      Only(entries[..|entries| - 1], node) + (if About(node, last) then [last] else [])
  }

  class History {
    var base: Nodes
    var entries: seq<Entry>
    var cap: nat
    var next: nat
    var tallies: map<Name, Tally>
    ghost var seed: Nodes
    ghost var all: seq<Entry>

    /** The summary and the kept entries are the whole history. */
    ghost predicate Valid()
      reads this
    {
      && cap >= 1
      && |entries| == Min(|all|, cap)
      && entries == all[|all| - |entries|..]
      && base == Replay(seed, all[..|all| - |entries|])
      && next == |all| + 1
      && (forall i :: 0 <= i < |all| ==> all[i].seqNo == i + 1)
      && Tallied(tallies, all)
    }

    constructor (seed: Nodes, cap: nat)
      ensures Valid() && this.seed == seed && all == []
      ensures this.cap == if cap == 0 then 1 else cap
    {
      base, entries, next, tallies := seed, [], 1, map[];
      this.cap := if cap == 0 then 1 else cap;
      this.seed, all := seed, [];
    }

    method Push(node: Name, fact: Fact, at: Instant)
      requires Valid()
      modifies this
      ensures Valid() && cap == old(cap) && seed == old(seed)
      ensures all == old(all) + [Entry(old(next), at, node, fact)]
    {
      hide ApplyTo, Tallied, Replay;
      ghost var was, gone := all, |all| - |entries|;
      ghost var e := Entry(next, at, node, fact);
      if |entries| == cap {
        var oldest := entries[0];
        ReplayStep(seed, was, gone);
        entries := entries[1..];
        base := ApplyTo(base, oldest);
        gone := gone + 1;
      }
      TallyStep(tallies, was, e);
      tallies := tallies[node := Count(TallyAt(tallies, node), fact)];
      entries := entries + [Entry(next, at, node, fact)];
      next := next + 1;
      all := all + [e];
      assert all[..gone] == was[..gone] && all[gone..] == was[gone..] + [e];
    }

    /** The node states the history describes, rebuilt from nothing but it. */
    method Project() returns (lives: map<Name, Life>)
      requires Valid()
      ensures lives == Lives(Replay(seed, all))
    {
      hide ApplyTo, Tallied, Replay;
      var nodes := base;
      ghost var gone := |all| - |entries|;
      for i := 0 to |entries|
        invariant nodes == Replay(seed, all[..gone + i])
      {
        ReplayStep(seed, all, gone + i);
        assert all[gone + i] == entries[i];
        nodes := ApplyTo(nodes, entries[i]);
      }
      assert all[..gone + |entries|] == all;
      lives := map n | n in nodes :: nodes[n].life;
    }

    /** The newest entries about a node, or any, oldest first. */
    method Recent(node: Option<Name>, limit: nat) returns (out: seq<Entry>)
      requires Valid()
      ensures var matching := Only(entries, node);
              out == matching[|matching| - Min(limit, |matching|)..]
    {
      hide About, Only, Valid;
      out := [];
      var i := |entries|;
      assert entries[..i] == entries;
      while i > 0 && |out| < limit
        invariant 0 <= i <= |entries| && |out| <= limit
        invariant Only(entries, node) == Only(entries[..i], node) + out
      {
        i := i - 1;
        OnlyStep(entries, i, node);
        if About(node, entries[i]) {
          out := [entries[i]] + out;
        }
      }
      if i == 0 {
        OnlyEmpty(entries, node);
      }
    }
  }

  lemma OnlyEmpty(entries: seq<Entry>, node: Option<Name>)
    ensures Only(entries[..0], node) == []
  {
  }

  /** The live nodes and their history. */
  class AppState {
    var nodes: Nodes
    const history: History

    /** The live lifecycles are the ones the history describes. */
    ghost predicate Valid()
      reads this, history
    {
      && history.Valid()
      && nodes.Keys == history.seed.Keys
      && Lives(nodes) == Lives(Replay(history.seed, history.all))
    }

    constructor (seed: Nodes, cap: nat)
      ensures Valid() && fresh(history) && nodes == seed && history.seed == seed && history.all == []
    {
      var h := new History(seed, cap);
      nodes := seed;
      history := h;
    }

    /** One fact, applied to the live node and kept in the history; unknown nodes
        have neither. */
    method Record(name: Name, fact: Fact, at: Instant)
      requires Valid()
      modifies this, history
      ensures Valid() && history.seed == old(history.seed)
      ensures name !in old(nodes) ==> nodes == old(nodes) && history.all == old(history.all)
      ensures name in old(nodes) ==>
        && nodes == old(nodes)[name := Apply(old(nodes)[name], fact, at)]
        && history.all == old(history.all) + [Entry(old(history.next), at, name, fact)]
      ensures name in old(nodes) ==>
        && nodes[name].logReady == (old(nodes)[name].logReady && !Attempt(fact))
        && nodes[name].errors == (if Attempt(fact) then 0 else old(nodes)[name].errors)
    {
      if name in nodes {
        ghost var e := Entry(history.next, at, name, fact);
        LivesStep(nodes, Replay(history.seed, history.all), e);
        assert (history.all + [e])[..|history.all + [e]| - 1] == history.all;
        nodes := nodes[name := Apply(nodes[name], fact, at)];
        history.Push(name, fact, at);
      }
    }

    /** A line of output changes the half of a node no history holds. */
    method Observe(name: Name, logReady: bool, errors: nat)
      requires Valid()
      modifies this
      ensures Valid() && Lives(nodes) == Lives(old(nodes)) && history.all == old(history.all)
    {
      if name in nodes {
        nodes := nodes[name := nodes[name].(logReady := logReady, errors := errors)];
        assert Lives(nodes) == Lives(old(nodes));
      }
    }
  }

  /** The live nodes too are what the facts about them say. */
  lemma LiveNodesAreFacts(app: AppState, node: Name)
    requires app.Valid() && node in app.nodes
    ensures node in app.history.seed
    ensures var was, now, all := app.history.seed[node], app.nodes[node], app.history.all;
            && StatusFrom(was, all, node, now) && PidFrom(was, all, node, now)
            && StartFrom(was, all, node, now) && ReasonFrom(was, all, node, now)
            && CountsFrom(was, all, node, now)
  {
    var h := app.history;
    NodeIsItsFacts(h.seed, h.all, node);
    assert Lives(app.nodes)[node] == Lives(Replay(h.seed, h.all))[node];
    hide ApplyTo, Replay;
  }

  /** However much has been summarised, the history describes the live nodes,
      keeps its newest entries numbered in a row, and counts what they count. */
  lemma NothingForgotten(app: AppState, node: Name)
    requires app.Valid() && node in app.nodes
    ensures Lives(Replay(app.history.base, app.history.entries)) == Lives(app.nodes)
    ensures |app.history.entries| == Min(app.history.next - 1, app.history.cap)
    ensures forall i :: 0 <= i < |app.history.entries| ==>
      app.history.entries[i].seqNo == app.history.next - |app.history.entries| + i
    ensures node in app.history.seed
    ensures app.nodes[node].life.restarts
         == app.history.seed[node].life.restarts + TallyAt(app.history.tallies, node).restarts
  {
    hide ApplyTo;
    var h := app.history;
    var gone := |h.all| - |h.entries|;
    ReplayJoins(h.seed, h.all[..gone], h.entries);
    assert h.all == h.all[..gone] + h.entries;
    RestartsAreFacts(h.seed, h.all, node);
    assert Lives(app.nodes)[node] == Lives(Replay(h.seed, h.all))[node];
    assert TallyAt(h.tallies, node) == Tally(RestartsOf(node, h.all), FailuresOf(node, h.all));
  }
}
