/** Building sessions step by step: one node that depends on another, and what
    each move does to the two of them. */
module TwoNodeRuns {
  import opened Status
  import opened Lifecycle
  import opened Supervisor
  import opened World
  import opened WorldInvariant
  import opened Progress

  lemma {:induction false} LegalSnoc(plan: Plan, w: World, moves: seq<Move>, mv: Move)
    requires Legal(plan, w, moves) && Enabled(plan, EndOf(plan, w, moves), mv)
    ensures Legal(plan, w, moves + [mv])
    ensures EndOf(plan, w, moves + [mv]) == Next(plan, EndOf(plan, w, moves), mv)
    decreases |moves|
  {
    hide Enabled, Next;
    if moves == [] {
      assert moves + [mv] == [mv];
      assert [mv][1..] == [];
    } else {
      assert (moves + [mv])[1..] == moves[1..] + [mv];
      LegalSnoc(plan, Next(plan, w, moves[0]), moves[1..], mv);
    }
  }

  /** One more move of a run. */
  lemma Go(plan: Plan, w: World, mv: Move) returns (w1: World)
    requires Reachable(plan, w) && Enabled(plan, w, mv)
    ensures Reachable(plan, w1) && w1 == Next(plan, w, mv)
  {
    hide Enabled, Next;
    var machines: map<Name, Machine>, moves: seq<Move> :|
      && machines.Keys == plan.deps.Keys && plan.Closed()
      && (forall n <- machines :: Initial(machines[n]))
      && Legal(plan, Start(plan, machines), moves)
      && EndOf(plan, Start(plan, machines), moves) == w;
    LegalSnoc(plan, Start(plan, machines), moves, mv);
    w1 := Next(plan, w, mv);
  }

  const DEP: Name := "dep"
  const APP: Name := "app"

  const TwoNodes := Plan(map[DEP := [], APP := [DEP]], 1)

  const NoDeps := Deps(None, [], [])
  const BeforeDep := Deps(Some(DEP), [0], [DEP])

  /** The two nodes and the board they share. */
  datatype Scene = Scene(dep: Node, app: Node, version: nat, free: nat, clock: Instant)

  ghost predicate Shows(w: World, sc: Scene) {
    && Reachable(TwoNodes, w)
    && w.nodes.Keys == {DEP, APP} && w.nodes[DEP] == sc.dep && w.nodes[APP] == sc.app
    && w.version == sc.version && w.free == sc.free && w.clock == sc.clock
  }

  /** What the second node sees of the first. */
  function ViewOf(dep: Node): Deps {
    Deps(if dep.status.IsReady() then None else Some(DEP), [dep.generation], [DEP])
  }

  lemma Opens(dep: Machine, app: Machine) returns (w: World, sc: Scene)
    requires Initial(dep) && Initial(app)
    ensures sc == Scene(NewNode(dep, NoDeps), NewNode(app, BeforeDep), 0, 1, 0) && Shows(w, sc)
  {
    var machines := map[DEP := dep, APP := app];
    w := Start(TwoNodes, machines);
    sc := Scene(NewNode(dep, NoDeps), NewNode(app, BeforeDep), 0, 1, 0);
    StartsSo(machines);
    hide Start, Initial;
    assert Legal(TwoNodes, w, []) && EndOf(TwoNodes, w, []) == w;
  }

  lemma StartsSo(machines: map<Name, Machine>)
    requires machines.Keys == {DEP, APP}
    ensures var w := Start(TwoNodes, machines);
            && w.nodes.Keys == {DEP, APP}
            && w.nodes[DEP] == NewNode(machines[DEP], NoDeps) && w.nodes[APP] == NewNode(machines[APP], BeforeDep)
  {
    hide NewNode;
    assert StartView([]) == NoDeps;
    assert StartView([DEP]) == BeforeDep;
  }

  // ------------------------------------------------------------------
  // Moves of the first node

  /** It takes an event and decides on it. */
  lemma DepTurns(w: World, sc: Scene, src: Source) returns (w1: World, sc1: Scene)
    requires Shows(w, sc) && CanTake(sc.dep, src, sc.version, false, sc.clock)
    ensures sc1 == sc.(dep := Decide(Take(sc.dep, src, sc.version), NoDeps, sc.clock)) && Shows(w1, sc1)
  {
    hide Reachable, Take, Decide;
    TakesOne(sc.dep, src, sc.version, false, sc.clock);
    w1 := Go(TwoNodes, w, TakeEvent(DEP, src));
    assert DepView(w1, []) == NoDeps;
    w1 := Go(TwoNodes, w1, DecideOn(DEP));
    sc1 := sc.(dep := Decide(Take(sc.dep, src, sc.version), NoDeps, sc.clock));
  }

  lemma TakesOne(n: Node, src: Source, version: nat, hasDeps: bool, now: Instant)
    requires CanTake(n, src, version, hasDeps, now)
    ensures Take(n, src, version).taken.Some?
  {
  }

  lemma DepDoes(w: World, sc: Scene, ans: Answer) returns (w1: World, sc1: Scene)
    requires Shows(w, sc) && CanRun(sc.dep, ans, sc.free)
    ensures var e := RunStep(sc.dep, ans, sc.free);
            sc1 == sc.(dep := e.node, version := if e.ticked then sc.version + 1 else sc.version, free := e.free)
    ensures Shows(w1, sc1)
  {
    hide Reachable, RunStep, CanRun;
    w1 := Go(TwoNodes, w, DoNext(DEP, ans));
    var e := RunStep(sc.dep, ans, sc.free);
    sc1 := sc.(dep := e.node, version := if e.ticked then sc.version + 1 else sc.version, free := e.free);
  }

  lemma DepAsked(w: World, sc: Scene) returns (w1: World, sc1: Scene)
    requires Shows(w, sc)
    ensures sc1 == sc.(dep := QueueRestart(sc.dep, "")) && Shows(w1, sc1)
  {
    hide Reachable, QueueRestart;
    w1 := Go(TwoNodes, w, RestartOf(DEP, ""));
    sc1 := sc.(dep := QueueRestart(sc.dep, ""));
  }

  // ------------------------------------------------------------------
  // Moves of the second

  lemma AppTurns(w: World, sc: Scene, src: Source) returns (w1: World, sc1: Scene)
    requires Shows(w, sc) && CanTake(sc.app, src, sc.version, true, sc.clock)
    ensures sc1 == sc.(app := Decide(Take(sc.app, src, sc.version), ViewOf(sc.dep), sc.clock)) && Shows(w1, sc1)
  {
    hide Reachable, Take, Decide;
    TakesOne(sc.app, src, sc.version, true, sc.clock);
    w1 := Go(TwoNodes, w, TakeEvent(APP, src));
    assert DepView(w1, [DEP]) == ViewOf(sc.dep);
    w1 := Go(TwoNodes, w1, DecideOn(APP));
    sc1 := sc.(app := Decide(Take(sc.app, src, sc.version), ViewOf(sc.dep), sc.clock));
  }

  lemma AppDoes(w: World, sc: Scene, ans: Answer) returns (w1: World, sc1: Scene)
    requires Shows(w, sc) && CanRun(sc.app, ans, sc.free)
    ensures var e := RunStep(sc.app, ans, sc.free);
            sc1 == sc.(app := e.node, version := if e.ticked then sc.version + 1 else sc.version, free := e.free)
    ensures Shows(w1, sc1)
  {
    hide Reachable, RunStep, CanRun;
    w1 := Go(TwoNodes, w, DoNext(APP, ans));
    var e := RunStep(sc.app, ans, sc.free);
    sc1 := sc.(app := e.node, version := if e.ticked then sc.version + 1 else sc.version, free := e.free);
  }

  lemma AppAsked(w: World, sc: Scene) returns (w1: World, sc1: Scene)
    requires Shows(w, sc)
    ensures sc1 == sc.(app := QueueRestart(sc.app, "")) && Shows(w1, sc1)
  {
    hide Reachable, QueueRestart;
    w1 := Go(TwoNodes, w, RestartOf(APP, ""));
    sc1 := sc.(app := QueueRestart(sc.app, ""));
  }

  lemma TimePasses(w: World, sc: Scene, passed: Duration) returns (w1: World, sc1: Scene)
    requires Shows(w, sc)
    ensures sc1 == sc.(clock := sc.clock + passed) && Shows(w1, sc1)
  {
    hide Reachable;
    w1 := Go(TwoNodes, w, PassTime(passed));
    sc1 := sc.(clock := sc.clock + passed);
  }

  // ------------------------------------------------------------------
  // A first node that is served in process, and its results

  const ServedConfig := ServiceConfig(
    false, None, false, 0, 0, 0, Always, RestartIt, None, ByRestart, false, None, 0, 0, None)

  function Served1(generation: nat, tick: nat): Node {
    NewNode(Svc(NewService(ServedConfig).(phase := Served)), NoDeps)
      .(status := Status.Healthy, generation := generation, queue := [], tick := tick)
  }

  function Opening(generation: nat, tick: nat): Node {
    Served1(generation, tick).(
      status := if generation == 0 then Status.Pending else Status.Healthy,
      machine := Svc(NewService(ServedConfig).(phase := AtGate(Draining))), queue := [Drained(false)])
  }

  /** From a drained control queue to the next result. */
  lemma DepPublishes(w: World, sc: Scene, generation: nat) returns (w1: World, sc1: Scene)
    requires Shows(w, sc) && sc.dep == Opening(generation, sc.dep.tick)
    ensures sc1 == sc.(dep := Served1(generation + 1, sc.version), version := sc.version + 1) && Shows(w1, sc1)
  {
    hide Shows, StepService, StepStartup, StepSpawning, StepBackoff, StepParked;
    w1, sc1 := DepTurns(w, sc, FromQueue);
    assert sc1.dep == Served1(generation, sc.version).(status := sc.dep.status, acts := [SetStatus(Status.Healthy)]);
    w1, sc1 := DepDoes(w1, sc1, Nothing);
    assert sc1.dep == Served1(generation + 1, sc.version).(micro := [Bump]);
    w1, sc1 := DepDoes(w1, sc1, Nothing);
  }

  /** Its first result. */
  lemma DepServes(w: World, sc: Scene) returns (w1: World, sc1: Scene)
    requires Shows(w, sc) && sc.dep == NewNode(Svc(NewService(ServedConfig)), NoDeps)
    ensures sc1 == sc.(dep := Served1(1, sc.version), version := sc.version + 1) && Shows(w1, sc1)
  {
    hide Shows, StepService, StepStartup, StepSpawning, StepBackoff, StepParked;
    w1, sc1 := DepTurns(w, sc, FromQueue);
    w1, sc1 := DepDoes(w1, sc1, Nothing);
    assert sc1.dep == Opening(0, sc.version);
    w1, sc1 := DepPublishes(w1, sc1, 0);
  }

  /** It is asked to restart, and has another. */
  lemma DepAgain(w: World, sc: Scene, generation: nat) returns (w1: World, sc1: Scene)
    requires generation >= 1 && Shows(w, sc) && sc.dep == Served1(generation, sc.dep.tick)
    ensures sc1 == sc.(dep := Served1(generation + 1, sc.version), version := sc.version + 1) && Shows(w1, sc1)
  {
    hide Shows, StepService, StepStartup, StepSpawning, StepBackoff, StepParked;
    w1, sc1 := DepAsked(w, sc);
    w1, sc1 := DepTurns(w1, sc1, NormalMessage);
    w1, sc1 := DepDoes(w1, sc1, Nothing);
    assert sc1.dep == Opening(generation, sc.version);
    w1, sc1 := DepPublishes(w1, sc1, generation);
  }
}
