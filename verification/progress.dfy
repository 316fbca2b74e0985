/** What a session promises, over every interleaving of its supervisors. */
module Progress {
  import opened Status
  import opened Lifecycle
  import opened Supervisor
  import opened World
  import opened WorldInvariant
  import opened Graphs
  import SI = SupervisorInvariant
  import SR = ServiceRuns
  import TR = TaskRuns

  /** A world some session reaches: any plan, any machines, any run. */
  ghost predicate Reachable(plan: Plan, w: World) {
    exists machines: map<Name, Machine>, moves: seq<Move> ::
      && machines.Keys == plan.deps.Keys && plan.Closed()
      && (forall n <- machines :: Initial(machines[n]))
      && Legal(plan, Start(plan, machines), moves)
      && EndOf(plan, Start(plan, machines), moves) == w
  }

  lemma ReachableKeeps(plan: Plan, w: World)
    requires Reachable(plan, w)
    ensures Inv(plan, w)
  {
    var machines: map<Name, Machine>, moves: seq<Move> :|
      && machines.Keys == plan.deps.Keys && plan.Closed()
      && (forall n <- machines :: Initial(machines[n]))
      && Legal(plan, Start(plan, machines), moves)
      && EndOf(plan, Start(plan, machines), moves) == w;
    StartKeeps(plan, machines);
    RunsKeep(plan, Start(plan, machines), moves);
  }

  /** A node with nothing to do and no tick it has not seen. */
  predicate Blocked(w: World, name: Name) {
    && name in w.nodes
    && w.nodes[name].Idle() && w.nodes[name].queue == [] && w.nodes[name].tick == w.version
  }

  predicate NoWriteInFlight(w: World) {
    forall n <- w.nodes :: !w.nodes[n].InFlight()
  }

  predicate BlockedAtGate(w: World, name: Name) {
    Blocked(w, name) && AtWaitingGate(w.nodes[name])
  }

  // ------------------------------------------------------------------
  // Waking up

  /** A blocked node's last snapshot is the board as it stands. */
  lemma BlockedSeesNow(plan: Plan, w: World, name: Name)
    requires Inv(plan, w) && Blocked(w, name) && NoWriteInFlight(w)
    ensures w.nodes[name].view == DepView(w, plan.deps[name])
  {
    assert Fresh(plan, w, name);
  }

  /** No wake-up is lost: a node blocked at its gate waits for a dependency that
      is not ready right now. */
  lemma NoLostWakeup(plan: Plan, w: World, name: Name)
    requires Reachable(plan, w) && BlockedAtGate(w, name) && NoWriteInFlight(w) && name in plan.deps
    ensures exists d :: d in plan.deps[name] && !Ready(w, d)
  {
    ReachableKeeps(plan, w);
    var _ := WaitsForUnready(plan, w, name);
  }

  lemma WaitsForUnready(plan: Plan, w: World, name: Name) returns (d: Name)
    requires Inv(plan, w) && BlockedAtGate(w, name) && NoWriteInFlight(w)
    ensures d in plan.deps[name] && !Ready(w, d)
  {
    hide MachineInv;
    BlockedSeesNow(plan, w, name);
    assert LocalInv(w.nodes[name], plan.deps[name], w.version);
    d := DepView(w, plan.deps[name]).unready.value;
  }

  /** No stale rest: with no liveness probe and changes acted on by restarting, a
      service blocked in `Running` runs against exactly what its dependencies are. */
  lemma NoStaleRest(plan: Plan, w: World, name: Name)
    requires Reachable(plan, w) && Blocked(w, name) && NoWriteInFlight(w) && name in plan.deps
    requires w.nodes[name].machine.Svc? && w.nodes[name].machine.service.phase.InService?
    requires Restful(w.nodes[name].machine.service.cfg)
    ensures forall d <- plan.deps[name] :: Ready(w, d)
    ensures |w.nodes[name].machine.service.seen| == |plan.deps[name]|
    ensures forall i | 0 <= i < |plan.deps[name]| ::
              w.nodes[name].machine.service.seen[i] == GenerationOf(w, plan.deps[name][i])
  {
    hide MachineInv;
    ReachableKeeps(plan, w);
    BlockedSeesNow(plan, w, name);
    var n := w.nodes[name];
    assert LocalInv(n, plan.deps[name], w.version);
    assert !TickComing(n);
    assert Current(n.machine.service.seen, DepView(w, plan.deps[name]));
  }

  // ------------------------------------------------------------------
  // Waiting in a circle

  /** A chain of blocked nodes, each waiting for the next, which is not ready. */
  predicate WaitsAlong(plan: Plan, w: World, chain: seq<Name>) {
    && (forall i | 0 <= i < |chain| - 1 :: BlockedAtGate(w, chain[i]) && chain[i] in plan.deps)
    && (forall i | 0 <= i < |chain| - 1 :: chain[i + 1] in plan.deps[chain[i]])
    && (forall i | 0 < i < |chain| :: !Ready(w, chain[i]))
  }

  /** Nobody waits in a circle: what a blocked node waits for leads to a node that
      is not blocked at its gate. */
  lemma WaitsEnd(plan: Plan, w: World, name: Name) returns (chain: seq<Name>)
    requires Reachable(plan, w) && NoWriteInFlight(w) && BlockedAtGate(w, name)
    requires plan.Closed() && !HasCycle(plan.deps)
    ensures |chain| >= 2 && chain[0] == name && WaitsAlong(plan, w, chain)
    ensures chain[|chain|-1] in w.nodes && !BlockedAtGate(w, chain[|chain|-1])
  {
    hide Inv;
    ReachableKeeps(plan, w);
    chain := FollowWaits(plan, w, name);
  }

  lemma {:induction false} FollowWaits(plan: Plan, w: World, name: Name) returns (chain: seq<Name>)
    requires Inv(plan, w) && NoWriteInFlight(w) && BlockedAtGate(w, name)
    requires plan.Closed() && !HasCycle(plan.deps)
    ensures |chain| >= 2 && chain[0] == name && WaitsAlong(plan, w, chain)
    ensures chain[|chain|-1] in w.nodes && !BlockedAtGate(w, chain[|chain|-1])
    decreases Height(plan.deps, name)
  {
    assert w.nodes.Keys == plan.deps.Keys;
    var d := WaitsForUnready(plan, w, name);
    HeightDrops(plan.deps, name, d);
    hide Inv, HasCycle, Height, NoWriteInFlight, BlockedAtGate, Ready, WaitsAlong;
    if BlockedAtGate(w, d) {
      var rest := FollowWaits(plan, w, d);
      chain := [name] + rest;
      ChainGrows(plan, w, name, rest);
    } else {
      chain := [name, d];
      LoneChain(plan, w, d);
      ChainGrows(plan, w, name, [d]);
      assert chain == [name] + [d];
    }
  }

  lemma LoneChain(plan: Plan, w: World, d: Name)
    ensures WaitsAlong(plan, w, [d])
  {
  }

  lemma ChainGrows(plan: Plan, w: World, name: Name, rest: seq<Name>)
    requires rest != [] && WaitsAlong(plan, w, rest)
    requires BlockedAtGate(w, name) && name in plan.deps && rest[0] in plan.deps[name] && !Ready(w, rest[0])
    ensures WaitsAlong(plan, w, [name] + rest)
  {
    hide BlockedAtGate, Ready;
    var chain := [name] + rest;
    forall i | 0 <= i < |chain| - 1
      ensures BlockedAtGate(w, chain[i]) && chain[i] in plan.deps && chain[i + 1] in plan.deps[chain[i]]
    {
      if i > 0 { assert chain[i] == rest[i - 1] && chain[i + 1] == rest[i]; }
    }
    forall i | 0 < i < |chain| ensures !Ready(w, chain[i]) {
      if i > 1 { assert chain[i] == rest[i - 1]; }
    }
  }

  /** A node still at its gate that is not blocked there has a move of its own to make. */
  lemma UnblockedMoves(plan: Plan, w: World, name: Name) returns (mv: Move)
    requires Reachable(plan, w) && name in w.nodes
    requires AtWaitingGate(w.nodes[name]) && !w.nodes[name].exited && !BlockedAtGate(w, name)
    ensures !mv.PassTime? && mv.node == name && Enabled(plan, w, mv)
  {
    hide Reachable, Inv;
    ReachableKeeps(plan, w);
    var n := w.nodes[name];
    LocalAt(plan, w, name);
    if n.taken.Some? {
      return DecideOn(name);
    } else if n.micro != [] || n.acts != [] {
      var ans := GateAnswer(n, w.free);
      return DoNext(name, ans);
    } else if n.queue != [] {
      return TakeEvent(name, FromQueue);
    } else {
      return TakeEvent(name, BoardTick);
    }
  }

  lemma GateAnswer(n: Node, free: nat) returns (ans: Answer)
    requires MachineInv(n) && AtWaitingGate(n) && n.taken.None? && !n.exited && (n.micro != [] || n.acts != [])
    ensures CanRun(n, ans, free)
  {
    ans := Nothing;
    if n.machine.Svc? {
      SR.SettledOk(n.machine.service, SR.Total(n));
      SR.MicroOfService(n);
      if n.micro != [] {
        SI.AbsorbKeeps(SR.Base(n), n.acts);
        if n.micro[0].WaitSlot? { SI.AbsorbNone(SR.Base(n)); }
      } else {
        AtGateAsksNothing(n);
      }
    } else if n.micro == [] {
      assert n.acts[0] in n.acts;
    }
  }

  lemma AtGateAsksNothing(n: Node)
    requires SR.SvcInv(n) && n.machine.service.phase == AtGate(WaitingOnDeps) && n.taken.None? && !n.exited
    requires n.micro == [] && n.acts != []
    ensures !IsRequest(n.acts[0]) && !n.acts[0].RunJob?
  {
    SR.SettledOk(n.machine.service, SR.Total(n));
    SI.AbsorbKeeps(SI.Absorb(SR.Base(n), n.acts[0]), n.acts[1..]);
    SR.NoJobs(n);
    if IsRequest(n.acts[0]) {
      SR.QueueEmptyBefore(n);
    }
  }

  // ------------------------------------------------------------------
  // The pool

  /** Free and held slots always make up the pool. */
  lemma SlotsConserved(plan: Plan, w: World)
    requires Reachable(plan, w)
    ensures w.free + |Holders(w)| == plan.concurrency
  {
    ReachableKeeps(plan, w);
  }

  /** What a node with a slot is doing: starting, stopping for good, or building. */
  predicate Working(n: Node) {
    match n.machine
    case Svc(s) =>
      || s.phase.AwaitingSlot? || s.phase.Spawning? || s.phase.InStartup? || s.phase == Ending(ThenExit)
      || ReleaseSlot in n.acts || Exit in n.acts
    case Tsk(t) => t.phase.TaskRunning?
  }

  predicate WaitsForSlot(n: Node) {
    n.micro != [] && (n.micro[0].WaitSlot? || n.micro[0].WaitJobSlot?)
  }

  /** A full pool is full of work: somebody holds a slot, is at work with it, and
      is not itself waiting for one. */
  lemma FullPoolWorks(plan: Plan, w: World) returns (name: Name)
    requires Reachable(plan, w) && w.free == 0 && plan.concurrency >= 1
    ensures name in w.nodes && w.nodes[name].slot && Working(w.nodes[name]) && !WaitsForSlot(w.nodes[name])
  {
    ReachableKeeps(plan, w);
    assert Holders(w) != {};
    name :| name in Holders(w);
    HolderWorks(plan, w, name);
  }

  /** No node blocked at its gate, running, backing off or parked holds a slot. */
  lemma HolderWorks(plan: Plan, w: World, name: Name)
    requires Inv(plan, w) && name in w.nodes && w.nodes[name].slot
    ensures Working(w.nodes[name]) && !WaitsForSlot(w.nodes[name])
    ensures w.nodes[name].Idle() && w.nodes[name].queue == [] ==>
              w.nodes[name].machine.Svc? && w.nodes[name].machine.service.phase.InStartup?
  {
    var n := w.nodes[name];
    assert LocalInv(n, plan.deps[name], w.version);
    if n.machine.Svc? {
      SR.SlotOnlyWhileStarting(n);
      if n.Idle() && n.queue == [] { SR.AtRest(n); }
      if WaitsForSlot(n) { WaiterHoldsNone(n); }
    } else {
      TR.HoldsOnlyInRun(n);
    }
  }

  /** There is an answer to whatever a node does next, unless it waits for a slot. */
  lemma SomeAnswer(n: Node, free: nat) returns (ans: Answer)
    requires n.taken.None? && !n.exited && (n.micro != [] || n.acts != []) && !WaitsForSlot(n)
    ensures CanRun(n, ans, free)
  {
    ans := Nothing;
    if n.micro != [] {
      if n.micro[0].CheckWait? { ans := CheckEnds(true); }
      if n.micro[0].JobWait? { ans := JobEnds(1, Status.Failed(1), None); }
    } else {
      match n.acts[0]
      case Probe(_) => ans := ProbeSays(Pass);
      case ReadReloadCounters => ans := CountersSay(ReloadCounters(0, 0, 0, 0, 0));
      case RunJob => ans := JobGoes(CannotStart);
      case _ =>
    }
  }

  /** Whoever holds a slot can go on: it has a move of its own now, or, between
      two attempts of a startup probe, once the probe's timer is due. */
  lemma HolderMoves(plan: Plan, w: World, name: Name) returns (wait: Duration, mv: Move)
    requires Reachable(plan, w) && name in w.nodes && w.nodes[name].slot
    ensures !mv.PassTime? && mv.node == name
    ensures Enabled(plan, Next(plan, w, PassTime(wait)), mv)
    ensures wait > 0 ==> mv == TakeEvent(name, FromTimer(ProbeTimer))
  {
    hide Reachable, Inv, Working, SR.SvcInv, TR.TskInv, SR.StopInv, TR.StopInv;
    ReachableKeeps(plan, w);
    HolderWorks(plan, w, name);
    LocalAt(plan, w, name);
    var n := w.nodes[name];
    TickOf(n, plan.deps[name], w.version);
    HolderLives(n);
    wait := 0;
    if n.taken.Some? {
      mv := DecideOn(name);
    } else if n.micro != [] || n.acts != [] {
      var ans := SomeAnswer(n, w.free);
      mv := DoNext(name, ans);
    } else if n.queue != [] {
      mv := TakeEvent(name, FromQueue);
    } else {
      OnlyProbe(n);
      wait := if n.timers[ProbeTimer] > w.clock then n.timers[ProbeTimer] - w.clock else 0;
      mv := TakeEvent(name, FromTimer(ProbeTimer));
    }
  }

  lemma HolderLives(n: Node)
    requires MachineInv(n) && n.slot
    ensures !n.exited
  {
  }

  /** A startup at rest waits for its probe's timer and for no other. */
  lemma OnlyProbe(n: Node)
    requires n.machine.Svc? && SR.SvcInv(n) && n.Idle() && n.queue == [] && n.machine.service.phase.InStartup?
    ensures n.timers.Keys == {ProbeTimer}
  {
    SR.AtRest(n);
    hide SR.SvcInv;
    var timers := SI.TimersIn(n.timers);
    assert timers == SI.Armed(n.machine.service, SI.Nobody);
    forall t: Timer ensures t in n.timers <==> t == ProbeTimer {
      assert t in n.timers <==> timers.Has(t);
    }
  }

  lemma WaiterHoldsNone(n: Node)
    requires SR.SvcInv(n) && n.micro != [] && n.micro[0].WaitSlot?
    ensures !n.slot
  {
    hide SI.AbsorbAll;
    SR.SettledOk(n.machine.service, SR.Total(n));
    SI.AbsorbKeeps(SR.Base(n), n.acts);
    SI.AbsorbNone(SR.Base(n));
  }

  // ------------------------------------------------------------------
  // Each supervisor, in every session

  /** What a service's supervisor keeps, whatever the other nodes do. */
  lemma SupervisorKeeps(plan: Plan, w: World, name: Name)
    requires Reachable(plan, w) && name in w.nodes && w.nodes[name].machine.Svc?
    ensures var n, s := w.nodes[name], w.nodes[name].machine.service;
            // one reply at a time
            && |n.queue| <= 1
            // one child at a time
            && (n.micro == [] && n.acts != [] && n.acts[0].Spawn? && n.taken.None? ==> !n.child)
            // at rest: the timers, the child and the slot the phase calls for
            && (n.Idle() && n.queue == [] ==>
                  && SI.TimersIn(n.timers) == SI.Armed(s, SI.Nobody)
                  && (n.child <==> s.HasChild())
                  && (n.slot <==> s.phase.InStartup?)
                  && (s.cfg.hasCmd && n.status.IsReady() ==> s.phase.InService?))
            // ready only while running, or until the write already decided on is made
            && (s.cfg.hasCmd && n.status.IsReady() ==>
                  s.phase.InService? || exists a <- n.acts :: SR.Publishes(a))
            // ends once, with nothing left behind
            && n.exits <= 1
            && (n.exited ==> !n.child && !n.slot && n.exits == 1)
  {
    ReachableKeeps(plan, w);
    var n := w.nodes[name];
    assert LocalInv(n, plan.deps[name], w.version);
    SR.OneReply(n);
    SR.EndsClean(n);
    if n.taken.None? && n.micro == [] && n.acts != [] && n.acts[0].Spawn? { SR.OneChild(n, Nothing, w.free); }
    if n.Idle() && n.queue == [] { SR.AtRest(n); }
    if n.machine.service.cfg.hasCmd && n.status.IsReady() { SR.ReadyOnlyInService(n); }
  }

  /** Once a stop is queued, a node starts at most one more process and one more
      run, and the stop is either still queued or being acted on. */
  lemma StopNotOutrun(plan: Plan, w: World, name: Name)
    requires Reachable(plan, w) && name in w.nodes && w.nodes[name].stopSent
    ensures var n := w.nodes[name];
            && n.startsSinceStop <= 1 && n.runsSinceStop <= 1
            && (n.inbox.urgent != [] || (if n.machine.Svc? then SR.Heading(n) else TR.Heading(n)))
  {
    hide SR.SvcInv, TR.TskInv, SR.Heading, TR.Heading;
    ReachableKeeps(plan, w);
    TickOf(w.nodes[name], plan.deps[name], w.version);
    StopMeans(w.nodes[name]);
  }

  lemma StopMeans(n: Node)
    requires MachineInv(n) && n.stopSent
    ensures n.startsSinceStop <= 1 && n.runsSinceStop <= 1
    ensures n.inbox.urgent != [] || (if n.machine.Svc? then SR.Heading(n) else TR.Heading(n))
  {
    hide SR.SvcInv, TR.TskInv, SR.Heading, TR.Heading;
  }
}
