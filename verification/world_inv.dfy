/** What holds in every reachable world, and what it means: no lost wake-up, no
    stale rest, no circular wait, a pool that is only full of work. */
module WorldInvariant {
  import opened Status
  import opened Lifecycle
  import opened Supervisor
  import opened World
  import SI = SupervisorInvariant
  import SR = ServiceRuns
  import TR = TaskRuns

  // ------------------------------------------------------------------
  // What holds of each node, whatever the others do

  /** Started or waiting at the gate for a dependency. */
  predicate AtWaitingGate(n: Node) {
    match n.machine
    case Svc(s) => s.phase == AtGate(WaitingOnDeps)
    case Tsk(t) => t.phase == TaskAtGate(WaitingOnDeps)
  }

  predicate MachineInv(n: Node) {
    if n.machine.Svc? then SR.SvcInv(n) && SR.StopInv(n) else TR.TskInv(n) && TR.StopInv(n)
  }

  /** A node waiting at its gate saw a dependency that was not ready. */
  predicate GateInv(n: Node) {
    n.taken.None? && !n.exited && AtWaitingGate(n) && n.queue == [] ==> n.view.unready.Some?
  }

  /** Settings under which nothing but a board tick is looked at while running. */
  predicate Restful(cfg: ServiceConfig) {
    cfg.liveness.None? && cfg.reload == ByRestart && (cfg.onChange == RestartIt || cfg.onChange == Queue)
  }

  predicate Current(seen: seq<nat>, view: Deps) {
    view.unready.None? && view.generations == seen
  }

  /** A status write still to come from this node, which will tick the board. */
  predicate TickComing(n: Node) {
    || n.InFlight()
    || SetStatus(Status.Healthy) in n.acts
    || (&& SetStatus(Status.Unhealthy) in n.acts && n.status == Status.Starting
        && forall a <- n.acts :: SR.Publishes(a) ==> a == SetStatus(Status.Unhealthy))
  }

  /** A running service looked at its dependencies when it last could, or will be
      woken to look again. */
  predicate RestInv(n: Node, version: nat) {
    n.machine.Svc? && n.machine.service.phase.InService? && Restful(n.machine.service.cfg) && n.taken.None? ==>
      Current(n.machine.service.seen, n.view) || n.tick < version || TickComing(n)
  }

  predicate SeenInv(n: Node, names: seq<Name>) {
    && n.view.names == names && |n.view.generations| == |names|
    && (names == [] ==> n.view.unready.None?)
    && (n.machine.Svc? && !n.machine.service.phase.AtGate? && !n.machine.service.phase.Finished? ==>
          |n.machine.service.seen| == |names|)
  }

  predicate LocalInv(n: Node, names: seq<Name>, version: nat) {
    && MachineInv(n)
    && n.tick <= version
    && GateInv(n)
    && RestInv(n, version)
    && SeenInv(n, names)
  }

  // ------------------------------------------------------------------
  // What holds between nodes

  /** A snapshot is current, or a tick that says otherwise has come or is coming. */
  predicate Fresh(plan: Plan, w: World, name: Name)
    requires name in w.nodes && name in plan.deps
  {
    var n := w.nodes[name];
    || n.taken.Some?
    || n.view == DepView(w, plan.deps[name])
    || n.tick < w.version
    || exists d :: d in plan.deps[name] && d in w.nodes && w.nodes[d].InFlight()
  }

  function Holders(w: World): set<Name> {
    set n | n in w.nodes && w.nodes[n].slot
  }

  predicate Inv(plan: Plan, w: World) {
    && w.nodes.Keys == plan.deps.Keys
    && (forall n <- w.nodes :: LocalInv(w.nodes[n], plan.deps[n], w.version))
    && (forall n <- w.nodes :: Fresh(plan, w, n))
    && w.free + |Holders(w)| == plan.concurrency
  }

  // ------------------------------------------------------------------
  // The machine's part: what a decision leaves

  /** Only a dependency that is not ready keeps a machine at its gate. */
  lemma WaitsForSomething(s: Service, ev: Event, deps: Deps, now: Instant)
    requires On(s, ev, deps, now).next.phase == AtGate(WaitingOnDeps)
    ensures deps.unready.Some?
  {
    match s.phase
    case InService(_, _, _) => NeverStraightToGate(s, ev, deps, now);
    case InStartup(_) => NeverStraightToGate(s, ev, deps, now);
    case _ =>
  }

  lemma NeverStraightToGate(s: Service, ev: Event, deps: Deps, now: Instant)
    requires s.phase.InService? || s.phase.InStartup?
    ensures !On(s, ev, deps, now).next.phase.AtGate?
  {
    if s.phase.InService? { ServiceNotToGate(s, ev, deps, now); } else { StartupNotToGate(s, ev, deps, now); }
  }

  lemma ServiceNotToGate(s: Service, ev: Event, deps: Deps, now: Instant)
    requires s.phase.InService?
    ensures !StepService(s, ev, deps, now).next.phase.AtGate?
    ensures StepService(s, ev, deps, now).next.seen == s.seen
  {
  }

  lemma StartupNotToGate(s: Service, ev: Event, deps: Deps, now: Instant)
    requires s.phase.InStartup?
    ensures !StepStartup(s, s.phase.deadline, ev, deps, now).next.phase.AtGate?
    ensures StepStartup(s, s.phase.deadline, ev, deps, now).next.seen == s.seen
  {
  }

  /** What a service runs against is noted at the gate and nowhere else. */
  lemma SeenAtGate(s: Service, ev: Event, deps: Deps, now: Instant)
    ensures var t := On(s, ev, deps, now).next;
            && (t.seen == s.seen || (t.seen == deps.generations && s.phase == AtGate(Draining)))
            && (s.phase.AtGate? && !t.phase.AtGate? && !t.phase.Finished? ==> t.seen == deps.generations)
  {
    hide StepService, StepStartup;
    match s.phase
    case InService(_, _, _) => ServiceNotToGate(s, ev, deps, now);
    case InStartup(_) => StartupNotToGate(s, ev, deps, now);
    case _ =>
  }

  predicate WillShowReady(out: seq<Action>) {
    SetStatus(Status.Healthy) in out
  }

  predicate WillShowUnhealthy(out: seq<Action>) {
    && SetStatus(Status.Unhealthy) in out
    && forall a <- out :: SR.Publishes(a) ==> a == SetStatus(Status.Unhealthy)
  }

  /** Entering service always publishes a status, which wakes the node itself. */
  lemma EntryPublishes(s: Service, ev: Event, deps: Deps, now: Instant)
    requires !s.phase.InService? && On(s, ev, deps, now).next.phase.InService?
    ensures var out := On(s, ev, deps, now).out;
            WillShowReady(out) || WillShowUnhealthy(out)
    ensures s.phase.Spawning? || s.phase.InStartup?
  {
    match s.phase
    case InStartup(_) => StartupPublishes(s, ev, deps, now);
    case Spawning =>
      assert ev.Spawned?;
      assert On(s, ev, deps, now).out[0] == SetStatus(Status.Healthy);
    case _ =>
  }

  lemma StartupPublishes(s: Service, ev: Event, deps: Deps, now: Instant)
    requires s.phase.InStartup? && StepStartup(s, s.phase.deadline, ev, deps, now).next.phase.InService?
    ensures var out := StepStartup(s, s.phase.deadline, ev, deps, now).out;
            WillShowReady(out) || WillShowUnhealthy(out) || out == []
    ensures ev.Probed? && ev.purpose.ForReady?
  {
    match ev
    case Probed(ForReady, Pass) =>
      assert StepStartup(s, s.phase.deadline, ev, deps, now).out[1] == SetStatus(Status.Healthy);
    case Probed(ForReady, Miss(why)) =>
      var rest := BecomeReady(s, false, now).out;
      var said := [Log(NeverPassed), SetStatus(Status.Unhealthy), SetReason(NotReadyWithin(s.cfg.readyTimeout))];
      assert said[1] == SetStatus(Status.Unhealthy);
      assert StepStartup(s, s.phase.deadline, ev, deps, now).out == [Log(LastAttempt(why))] + (said + rest);
      assert forall a <- rest :: !SR.Publishes(a);
    case Exited(code) =>
      ExitLeaves(GiveUpReadiness(s, now).next, code, now);
    case _ =>
  }

  lemma ExitLeaves(s: Service, code: int, now: Instant)
    ensures !ChildExited(s, code, now).next.phase.InService?
  {
  }

  /** While running with these settings, a machine that stays put has just looked
      at a board on which nothing moved. */
  lemma StaysOnlyIfCurrent(s: Service, x: SI.Sum, ev: Event, deps: Deps, now: Instant)
    requires s.phase.InService? && Restful(s.cfg) && SI.TakenFits(s, x, ev)
    requires On(s, ev, deps, now).next.phase.InService?
    requires |s.seen| == |deps.names| == |deps.generations|
    ensures Current(s.seen, deps)
  {
    assert ev.Board?;
    assert deps.MovedSince(s.seen).None?;
  }

  // ------------------------------------------------------------------
  // Each node keeps its own part

  /** Only a machine decides; the rest of a step leaves what it decided. */
  lemma LocalStart(machine: Machine, names: seq<Name>)
    requires machine == Tsk(NewTask()) || (machine.Svc? && machine.service.cfg.Valid() && machine.service == NewService(machine.service.cfg))
    ensures LocalInv(NewNode(machine, StartView(names)), names, 0)
  {
    var n := NewNode(machine, StartView(names));
    if machine.Svc? { SR.NewKeeps(machine.service.cfg, n.view); } else { TR.NewKeeps(n.view); }
  }

  lemma LocalTake(n: Node, names: seq<Name>, version: nat, src: Source, now: Instant)
    requires LocalInv(n, names, version) && CanTake(n, src, version, names != [], now)
    ensures LocalInv(Take(n, src, version), names, version)
  {
    hide LocalInv, CanTake, Take;
    if n.machine.Svc? {
      ServiceTakes(n, names, version, src, now);
    } else {
      TaskTakes(n, names, version, src, now);
    }
  }

  lemma ServiceTakes(n: Node, names: seq<Name>, version: nat, src: Source, now: Instant)
    requires n.machine.Svc? && LocalInv(n, names, version) && CanTake(n, src, version, names != [], now)
    ensures LocalInv(Take(n, src, version), names, version)
  {
    hide SR.SvcInv, SR.StopInv, TR.TskInv, TR.StopInv;
    SR.TakeKeeps(n, src, version, names != [], now);
    SR.StopSurvivesTake(n, src, version, names != [], now);
  }

  lemma TaskTakes(n: Node, names: seq<Name>, version: nat, src: Source, now: Instant)
    requires n.machine.Tsk? && LocalInv(n, names, version) && CanTake(n, src, version, names != [], now)
    ensures LocalInv(Take(n, src, version), names, version)
  {
    hide SR.SvcInv, SR.StopInv, TR.TskInv, TR.StopInv;
    TR.TakeKeeps(n, src, version, names != [], now);
    TR.StopSurvivesTake(n, src, version, names != [], now);
  }

  lemma LocalDecide(n: Node, names: seq<Name>, version: nat, deps: Deps, now: Instant)
    requires LocalInv(n, names, version) && n.taken.Some?
    requires deps.names == names && |deps.generations| == |names| && (names == [] ==> deps.unready.None?)
    ensures LocalInv(Decide(n, deps, now), names, version)
  {
    if n.machine.Svc? {
      SR.DecideKeeps(n, deps, now);
      SR.StopSurvivesDecide(n, deps, now);
      ServiceDecides(n, names, version, deps, now);
    } else {
      TR.DecideKeeps(n, deps, now);
      TR.StopSurvivesDecide(n, deps, now);
      assert GateInv(Decide(n, deps, now)) by { TaskWaitsForSomething(n.machine.task, n.taken.value, deps); }
    }
  }

  lemma TaskWaitsForSomething(t: Task, ev: Event, deps: Deps)
    ensures TaskOn(t, ev, deps).next.phase == TaskAtGate(WaitingOnDeps) ==> deps.unready.Some?
  {
  }

  lemma ServiceDecides(n: Node, names: seq<Name>, version: nat, deps: Deps, now: Instant)
    requires n.machine.Svc? && LocalInv(n, names, version) && n.taken.Some?
    requires deps.names == names && |deps.generations| == |names| && (names == [] ==> deps.unready.None?)
    ensures var m := Decide(n, deps, now);
            GateInv(m) && RestInv(m, version) && SeenInv(m, names)
  {
    hide On, SI.TakenFits, SI.Settled;
    var s, ev := n.machine.service, n.taken.value;
    var t := On(s, ev, deps, now).next;
    SeenAtGate(s, ev, deps, now);
    if t.phase == AtGate(WaitingOnDeps) { WaitsForSomething(s, ev, deps, now); }
    FinishedStays(s, SR.Base(n), ev);
    if t.phase.InService? && Restful(t.cfg) { ServiceRests(n, names, version, deps, now); }
    hide RestInv, Restful;
  }

  lemma ServiceRests(n: Node, names: seq<Name>, version: nat, deps: Deps, now: Instant)
    requires n.machine.Svc? && LocalInv(n, names, version) && n.taken.Some?
    requires deps.names == names && |deps.generations| == |names|
    requires On(n.machine.service, n.taken.value, deps, now).next.phase.InService? && Restful(n.machine.service.cfg)
    ensures RestInv(Decide(n, deps, now), version)
  {
    hide On, SI.TakenFits, SI.Settled;
    var s, ev := n.machine.service, n.taken.value;
    SeenAtGate(s, ev, deps, now);
    if s.phase.InService? {
      StaysOnlyIfCurrent(s, SR.Base(n), ev, deps, now);
    } else {
      EntryPublishes(s, ev, deps, now);
      StartingShown(s, SR.Base(n), ev);
    }
  }

  lemma FinishedStays(s: Service, x: SI.Sum, ev: Event)
    requires SI.TakenFits(s, x, ev) && !x.ended
    ensures !s.phase.Finished?
  {
  }

  lemma StartingShown(s: Service, x: SI.Sum, ev: Event)
    requires SI.TakenFits(s, x, ev) && (s.phase.Spawning? || s.phase.InStartup?)
    ensures x.status == Status.Starting
  {
  }

  predicate SameRow(n: Node, m: Node) {
    m.status == n.status && m.generation == n.generation
  }

  /** What a step may change of what others see, and of the queue. */
  predicate Frame(n: Node, e: Effect) {
    && (SameRow(n, e.node) || e.node.InFlight())
    && n.queue <= e.node.queue
  }

  lemma MicroFrame(n: Node, ans: Answer, free: nat)
    requires n.micro != [] && Answers(n, ans, free)
    ensures var e := RunMicro(n, ans, free);
            && Frame(n, e)
            && (n.InFlight() ==> e.ticked)
            && (e.ticked ==> n.InFlight() && e.node.acts == n.acts && e.node.status == n.status)
  {
  }

  /** Every step frames the node, and the second half of a write ticks the board. */
  lemma StepFrame(n: Node, ans: Answer, free: nat)
    requires CanRun(n, ans, free)
    ensures var e := RunStep(n, ans, free);
            && Frame(n, e)
            && (n.InFlight() ==> e.ticked)
            && (e.ticked ==> n.InFlight() && e.node.acts == n.acts && e.node.status == n.status)
  {
    if n.micro == [] {
      hide RunAction, RunMicro;
      ActionFrame(n.(acts := n.acts[1..]), n.acts[0], ans, free);
    } else {
      hide RunAction;
      MicroFrame(n, ans, free);
    }
  }

  lemma ActionFrame(n: Node, a: Action, ans: Answer, free: nat)
    requires n.micro == []
    requires a.Probe? ==> ans.ProbeSays?
    requires a.ReadReloadCounters? ==> ans.CountersSay?
    requires a.RunJob? ==> ans.JobGoes?
    ensures var e := RunAction(n, a, ans, free);
            && Frame(n, e) && !e.ticked
            && (!SR.Publishes(a) && !a.AcquireSlot? ==> SameRow(n, e.node))
            && (!a.Exit? ==> e.node.acts == n.acts)
  {
    hide RunRequest;
    if IsRequest(a) { RequestFrame(n, a, ans, free); }
  }

  lemma RequestFrame(n: Node, a: Action, ans: Answer, free: nat)
    requires n.micro == [] && IsRequest(a)
    requires a.Probe? ==> ans.ProbeSays?
    requires a.ReadReloadCounters? ==> ans.CountersSay?
    ensures var e := RunRequest(n, a, ans, free);
            && Frame(n, e) && !e.ticked
            && (!a.AcquireSlot? ==> SameRow(n, e.node))
            && e.node.acts == n.acts
  {
  }

  /** A tick that is coming stays coming until it has come. */
  lemma TickStaysComing(n: Node, ans: Answer, free: nat)
    requires SR.SvcInv(n) && CanRun(n, ans, free) && TickComing(n) && n.machine.service.phase.InService?
    ensures var e := RunStep(n, ans, free); e.ticked || TickComing(e.node)
  {
    hide SR.SvcInv, RunMicro, RunAction;
    StepFrame(n, ans, free);
    if !n.InFlight() {
      SR.MicroOfService(n);
      NotWaitingForSlot(n);
      assert n.micro == [];
      NotExiting(n);
      TickLeft(n, ans, free);
    }
  }

  lemma TickLeft(n: Node, ans: Answer, free: nat)
    requires CanRun(n, ans, free) && n.micro == [] && TickComing(n)
    requires !n.acts[0].Exit? && !n.acts[0].AcquireSlot?
    ensures TickComing(RunStep(n, ans, free).node)
  {
    hide RunRequest;
    var rest := n.(acts := n.acts[1..]);
    assert n.acts == [n.acts[0]] + n.acts[1..];
    var a := n.acts[0];
    var m := RunStep(n, ans, free).node;
    ActionFrame(rest, a, ans, free);
    if a == SetStatus(Status.Healthy) || (a == SetStatus(Status.Unhealthy) && n.status == Status.Starting) {
      assert m == Write(rest, a.status, []);
    } else if SetStatus(Status.Healthy) in n.acts {
      assert SetStatus(Status.Healthy) in m.acts;
    } else {
      assert a in n.acts;
      assert !SR.Publishes(a);
      assert SetStatus(Status.Unhealthy) in m.acts;
    }
  }

  lemma NotWaitingForSlot(n: Node)
    requires SR.SvcInv(n) && CanRunAtAll(n) && n.machine.service.phase.InService?
    ensures WaitSlot !in n.micro
    ensures n.acts != [] ==> !n.acts[0].AcquireSlot?
  {
    hide SI.AbsorbAll;
    if WaitSlot in n.micro {
      SR.SettledOk(n.machine.service, SR.Total(n));
      SI.AbsorbKeeps(SR.Base(n), n.acts);
      SI.AbsorbNone(SR.Base(n));
    }
    if n.acts != [] && n.acts[0].AcquireSlot? {
      SR.SettledOk(n.machine.service, SR.Total(n));
      SR.NothingAfter(n);
    }
  }

  predicate CanRunAtAll(n: Node) {
    n.taken.None? && !n.exited
  }

  lemma NotExiting(n: Node)
    requires SR.SvcInv(n) && CanRunAtAll(n) && n.machine.service.phase.InService? && n.acts != []
    ensures !n.acts[0].Exit?
  {
    SR.HeadFits(n);
  }

  lemma LocalRun(n: Node, names: seq<Name>, version: nat, ans: Answer, free: nat)
    requires LocalInv(n, names, version) && CanRun(n, ans, free)
    ensures var e := RunStep(n, ans, free);
            LocalInv(e.node, names, if e.ticked then version + 1 else version)
  {
    hide SR.SvcInv, SR.StopInv, TR.TskInv, TR.StopInv;
    var e := RunStep(n, ans, free);
    if n.machine.Svc? {
      SR.RunKeeps(n, ans, free);
      SR.StopSurvivesRun(n, ans, free);
      GateRuns(n, ans, free);
      if RestInv(n, version) && n.machine.service.phase.InService? && TickComing(n) { TickStaysComing(n, ans, free); }
    } else {
      TR.RunKeeps(n, ans, free);
      TR.StopSurvivesRun(n, ans, free);
      GateRuns(n, ans, free);
    }
  }

  lemma GateRuns(n: Node, ans: Answer, free: nat)
    requires GateInv(n) && CanRun(n, ans, free)
    ensures GateInv(RunStep(n, ans, free).node)
  {
    hide RunMicro, RunAction;
    StepFrame(n, ans, free);
  }

  lemma LocalSend(n: Node, names: seq<Name>, version: nat, why: string)
    requires LocalInv(n, names, version)
    ensures LocalInv(QueueStop(n), names, version) && LocalInv(AnnounceStop(n), names, version)
    ensures LocalInv(QueueRestart(n, why), names, version) && LocalInv(DropSenders(n), names, version)
  {
    hide SR.SvcInv, SR.StopInv, TR.TskInv, TR.StopInv;
    if n.machine.Svc? {
      SR.SendKeeps(n, why);
      SR.StopSurvivesSend(n, why);
    } else {
      TR.SendKeeps(n, why);
      TR.StopSurvivesSend(n, why);
    }
  }

  // ------------------------------------------------------------------
  // Slots

  /** Nobody who holds a slot asks for another. */
  lemma AsksEmptyHanded(n: Node, ans: Answer, free: nat)
    requires MachineInv(n) && CanRun(n, ans, free)
    ensures n.micro != [] && (n.micro[0].WaitSlot? || n.micro[0].JobSlot? || n.micro[0].WaitJobSlot?) ==> !n.slot
    ensures n.micro == [] && n.acts[0].AcquireSlot? ==> !n.slot
  {
    if n.machine.Svc? { ServiceAsksEmptyHanded(n, ans, free); } else { TaskAsksEmptyHanded(n, ans, free); }
  }

  lemma ServiceAsksEmptyHanded(n: Node, ans: Answer, free: nat)
    requires n.machine.Svc? && SR.SvcInv(n) && CanRun(n, ans, free)
    ensures n.micro != [] && (n.micro[0].WaitSlot? || n.micro[0].JobSlot? || n.micro[0].WaitJobSlot?) ==> !n.slot
    ensures n.micro == [] && n.acts[0].AcquireSlot? ==> !n.slot
  {
    hide SI.AbsorbAll;
    SR.SettledOk(n.machine.service, SR.Total(n));
    SR.MicroOfService(n);
    SI.AbsorbNone(SR.Base(n));
    if n.micro == [] && n.acts[0].AcquireSlot? { SR.NothingAfter(n); }
    if n.micro != [] && n.micro[0].WaitSlot? { SI.AbsorbKeeps(SR.Base(n), n.acts); }
  }

  lemma TaskAsksEmptyHanded(n: Node, ans: Answer, free: nat)
    requires n.machine.Tsk? && TR.TskInv(n) && CanRun(n, ans, free)
    ensures n.micro != [] && (n.micro[0].WaitSlot? || n.micro[0].JobSlot? || n.micro[0].WaitJobSlot?) ==> !n.slot
    ensures n.micro == [] ==> !n.acts[0].AcquireSlot?
  {
    TR.OnlyKnownActions(n);
    if n.micro == [] { assert n.acts[0] in n.acts; }
  }

  predicate Flows(n: Node, free: nat, e: Effect) {
    e.free + (if e.node.slot then 1 else 0) == free + (if n.slot then 1 else 0)
  }

  lemma SlotFlow(n: Node, ans: Answer, free: nat)
    requires MachineInv(n) && CanRun(n, ans, free)
    ensures Flows(n, free, RunStep(n, ans, free))
  {
    hide MachineInv;
    AsksEmptyHanded(n, ans, free);
    if n.micro == [] {
      hide RunAction;
      ActionFlow(n.(acts := n.acts[1..]), n.acts[0], ans, free);
    }
  }

  lemma ActionFlow(n: Node, a: Action, ans: Answer, free: nat)
    requires a.Probe? ==> ans.ProbeSays?
    requires a.ReadReloadCounters? ==> ans.CountersSay?
    requires a.RunJob? ==> ans.JobGoes?
    requires a.AcquireSlot? ==> !n.slot
    ensures Flows(n, free, RunAction(n, a, ans, free))
  {
  }

  // ------------------------------------------------------------------
  // Every move keeps the invariant

  lemma HoldersAfter(w: World, name: Name, n: Node, free: nat)
    requires name in w.nodes
    requires free + (if n.slot then 1 else 0) == w.free + (if w.nodes[name].slot then 1 else 0)
    ensures free + |Holders(Put(w, name, n))| == w.free + |Holders(w)|
  {
    var rest := Holders(w) - {name};
    assert Holders(w) == if w.nodes[name].slot then rest + {name} else rest;
    assert Holders(Put(w, name, n)) == if n.slot then rest + {name} else rest;
  }

  /** What one node's step does to everyone's view of the board. */
  lemma FreshAfter(plan: Plan, w: World, name: Name, n: Node, version: nat, other: Name)
    requires name in w.nodes && w.nodes.Keys == plan.deps.Keys && other in w.nodes
    requires Fresh(plan, w, other) && w.nodes[other].tick <= w.version <= version
    requires SameRow(w.nodes[name], n) || n.InFlight()
    requires w.nodes[name].InFlight() && !n.InFlight() ==> version > w.version
    requires other == name ==> n.view == w.nodes[name].view && n.taken == w.nodes[name].taken && n.tick == w.nodes[name].tick
    ensures Fresh(plan, Put(w, name, n).(version := version), other)
  {
    var w1 := Put(w, name, n).(version := version);
    var names := plan.deps[other];
    var o := w.nodes[other];
    if o.taken.None? && o.tick == w.version == version {
      if d :| d in names && d in w.nodes && w.nodes[d].InFlight() {
        assert w1.nodes[d].InFlight();
      } else if !SameRow(w.nodes[name], n) && name in names {
        assert w1.nodes[name].InFlight();
      } else {
        ViewSame(w, w1, names);
      }
    }
  }

  lemma {:induction false} UnreadySame(w: World, w1: World, names: seq<Name>)
    requires forall d <- names :: Ready(w, d) == Ready(w1, d)
    ensures FirstUnready(w, names) == FirstUnready(w1, names)
  {
    if names != [] {
      assert names[0] in names;
      UnreadySame(w, w1, names[1..]);
    }
  }

  lemma ViewSame(w: World, w1: World, names: seq<Name>)
    requires w.nodes.Keys == w1.nodes.Keys
    requires forall d <- names :: d in w.nodes ==> SameRow(w.nodes[d], w1.nodes[d])
    ensures DepView(w, names) == DepView(w1, names)
  {
    forall d <- names ensures Ready(w, d) == Ready(w1, d) {
    }
    UnreadySame(w, w1, names);
    assert forall i | 0 <= i < |names| :: names[i] in names && GenerationOf(w, names[i]) == GenerationOf(w1, names[i]);
  }

  lemma LocalLater(n: Node, names: seq<Name>, version: nat, later: nat)
    requires LocalInv(n, names, version) && version <= later
    ensures LocalInv(n, names, later)
  {
    hide MachineInv;
  }

  lemma StartKeeps(plan: Plan, machines: map<Name, Machine>)
    requires machines.Keys == plan.deps.Keys && plan.Closed()
    requires forall n <- machines :: Initial(machines[n])
    ensures Inv(plan, Start(plan, machines))
  {
    var w := Start(plan, machines);
    assert Holders(w) == {};
    forall n <- w.nodes ensures LocalInv(w.nodes[n], plan.deps[n], 0) && Fresh(plan, w, n) {
      LocalStart(machines[n], plan.deps[n]);
      var names := plan.deps[n];
      assert forall d <- names :: !Ready(w, d) && GenerationOf(w, d) == 0;
      assert names != [] ==> names[0] in names;
      assert w.nodes[n].view == DepView(w, names);
    }
  }

  /** A machine before its first event. */
  predicate Initial(m: Machine) {
    m == Tsk(NewTask()) || (m.Svc? && m.service.cfg.Valid() && m.service == NewService(m.service.cfg))
  }

  lemma TakeMoveKeeps(plan: Plan, w: World, name: Name, src: Source)
    requires Inv(plan, w) && Enabled(plan, w, TakeEvent(name, src))
    ensures Inv(plan, Next(plan, w, TakeEvent(name, src)))
  {
    hide LocalInv, Take;
    var n := w.nodes[name];
    var m := Take(n, src, w.version);
    var w1 := Put(w, name, m);
    LocalTake(n, plan.deps[name], w.version, src, w.clock);
    TakeFrame(n, src, w.version, plan.deps[name] != [], w.clock);
    HoldersAfter(w, name, m, w.free);
    forall o <- w1.nodes ensures Fresh(plan, w1, o) {
      if o != name {
        assert w.nodes[o].tick <= w.version by { TickOf(w.nodes[o], plan.deps[o], w.version); }
        FreshAfter(plan, w, name, m, w.version, o);
      }
    }
  }

  lemma TickOf(n: Node, names: seq<Name>, version: nat)
    requires LocalInv(n, names, version)
    ensures n.tick <= version && MachineInv(n)
  {
  }

  lemma TakeFrame(n: Node, src: Source, version: nat, hasDeps: bool, now: Instant)
    requires CanTake(n, src, version, hasDeps, now)
    ensures var m := Take(n, src, version);
            SameRow(n, m) && !n.InFlight() && !m.InFlight() && m.slot == n.slot && m.taken.Some?
  {
  }

  lemma DecideMoveKeeps(plan: Plan, w: World, name: Name)
    requires Inv(plan, w) && Enabled(plan, w, DecideOn(name))
    ensures Inv(plan, Next(plan, w, DecideOn(name)))
  {
    hide LocalInv, Decide;
    var n := w.nodes[name];
    var names := plan.deps[name];
    var view := DepView(w, names);
    var m := Decide(n, view, w.clock);
    var w1 := Put(w, name, m);
    LocalDecide(n, names, w.version, view, w.clock);
    DecideFrame(n, view, w.clock);
    HoldersAfter(w, name, m, w.free);
    ViewSame(w, w1, names);
    forall o <- w1.nodes ensures Fresh(plan, w1, o) {
      if o != name {
        TickOf(w.nodes[o], plan.deps[o], w.version);
        FreshAfter(plan, w, name, m, w.version, o);
      }
    }
  }

  lemma DecideFrame(n: Node, deps: Deps, now: Instant)
    requires n.taken.Some?
    ensures var m := Decide(n, deps, now);
            SameRow(n, m) && m.micro == n.micro && m.slot == n.slot && m.view == deps
  {
    hide On, TaskOn;
  }

  lemma RunMoveKeeps(plan: Plan, w: World, name: Name, ans: Answer)
    requires Inv(plan, w) && Enabled(plan, w, DoNext(name, ans))
    ensures Inv(plan, Next(plan, w, DoNext(name, ans)))
  {
    hide LocalInv, RunStep, MachineInv, Fresh, Frame;
    var n := w.nodes[name];
    var e := RunStep(n, ans, w.free);
    var w1 := Next(plan, w, DoNext(name, ans));
    TickOf(n, plan.deps[name], w.version);
    SlotFlow(n, ans, w.free);
    HoldersAfter(w, name, e.node, e.free);
    assert Holders(w1) == Holders(Put(w, name, e.node));
    forall o <- w1.nodes ensures LocalInv(w1.nodes[o], plan.deps[o], w1.version) && Fresh(plan, w1, o) {
      RunKeepsOne(plan, w, name, ans, o);
    }
  }

  lemma RunKeepsOne(plan: Plan, w: World, name: Name, ans: Answer, o: Name)
    requires Inv(plan, w) && Enabled(plan, w, DoNext(name, ans)) && o in w.nodes
    ensures var w1 := Next(plan, w, DoNext(name, ans));
            o in w1.nodes && LocalInv(w1.nodes[o], plan.deps[o], w1.version) && Fresh(plan, w1, o)
  {
    hide LocalInv, RunStep, MachineInv, Fresh;
    var n := w.nodes[name];
    var e := RunStep(n, ans, w.free);
    var version := if e.ticked then w.version + 1 else w.version;
    var w1 := Next(plan, w, DoNext(name, ans));
    LocalRun(n, plan.deps[name], w.version, ans, w.free);
    TickOf(n, plan.deps[name], w.version);
    StepFrame(n, ans, w.free);
    TickOf(w.nodes[o], plan.deps[o], w.version);
    if o != name { LocalLater(w.nodes[o], plan.deps[o], w.version, version); }
    FreshAfter(plan, w, name, e.node, version, o);
    assert Put(w, name, e.node).(version := version).nodes == w1.nodes;
    FreshEqual(plan, Put(w, name, e.node).(version := version), w1, o);
  }

  /** Free slots and the clock are not on the board. */
  lemma FreshEqual(plan: Plan, w: World, w1: World, name: Name)
    requires w.nodes == w1.nodes && w.version == w1.version && name in w.nodes && name in plan.deps
    requires Fresh(plan, w, name)
    ensures Fresh(plan, w1, name)
  {
    ViewSame(w, w1, plan.deps[name]);
  }

  lemma SendMoveKeeps(plan: Plan, w: World, name: Name, m: Node)
    requires Inv(plan, w) && name in w.nodes
    requires LocalInv(m, plan.deps[name], w.version)
    requires var n := w.nodes[name];
             && SameRow(n, m) && m.micro == n.micro && m.slot == n.slot
             && m.view == n.view && m.taken == n.taken && m.tick == n.tick
    ensures Inv(plan, Put(w, name, m))
  {
    hide LocalInv;
    HoldersAfter(w, name, m, w.free);
    forall o <- w.nodes ensures Fresh(plan, Put(w, name, m), o) {
      TickOf(w.nodes[o], plan.deps[o], w.version);
      FreshAfter(plan, w, name, m, w.version, o);
    }
  }

  lemma SendKeeps(plan: Plan, w: World, name: Name, why: string)
    requires Inv(plan, w) && name in w.nodes
    ensures var n := w.nodes[name];
            && Inv(plan, Put(w, name, QueueStop(n))) && Inv(plan, Put(w, name, AnnounceStop(n)))
            && Inv(plan, Put(w, name, QueueRestart(n, why))) && Inv(plan, Put(w, name, DropSenders(n)))
  {
    hide LocalInv, Inv, Put;
    var n := w.nodes[name];
    LocalAt(plan, w, name);
    LocalSend(n, plan.deps[name], w.version, why);
    SendMoveKeeps(plan, w, name, QueueStop(n));
    SendMoveKeeps(plan, w, name, AnnounceStop(n));
    SendMoveKeeps(plan, w, name, QueueRestart(n, why));
    SendMoveKeeps(plan, w, name, DropSenders(n));
  }

  lemma LocalAt(plan: Plan, w: World, name: Name)
    requires Inv(plan, w) && name in w.nodes
    ensures name in plan.deps && LocalInv(w.nodes[name], plan.deps[name], w.version)
  {
  }

  lemma TimeKeeps(plan: Plan, w: World, passed: nat)
    requires Inv(plan, w)
    ensures Inv(plan, w.(clock := w.clock + passed))
  {
    hide LocalInv;
    var w1 := w.(clock := w.clock + passed);
    assert Holders(w1) == Holders(w);
    forall o <- w.nodes ensures Fresh(plan, w1, o) { FreshEqual(plan, w, w1, o); }
  }

  /** The invariant survives every move. */
  lemma NextKeeps(plan: Plan, w: World, mv: Move)
    requires Inv(plan, w) && Enabled(plan, w, mv)
    ensures Inv(plan, Next(plan, w, mv))
  {
    hide Inv, Put, Take, Decide, CanTake, CanRun, RunStep, QueueStop, AnnounceStop, QueueRestart, DropSenders;
    match mv
    case TakeEvent(name, src) => TakeMoveKeeps(plan, w, name, src);
    case DecideOn(name) => DecideMoveKeeps(plan, w, name);
    case DoNext(name, ans) => RunMoveKeeps(plan, w, name, ans);
    case QueueStopTo(name) => SendKeeps(plan, w, name, "");
    case AnnounceStopTo(name) => SendKeeps(plan, w, name, "");
    case RestartOf(name, why) => SendKeeps(plan, w, name, why);
    case ForgetSenders(name) => SendKeeps(plan, w, name, "");
    case PassTime(passed) => TimeKeeps(plan, w, passed);
  }

  /** Every world a session can reach keeps the invariant. */
  lemma {:induction false} RunsKeep(plan: Plan, w: World, moves: seq<Move>)
    requires Inv(plan, w) && Legal(plan, w, moves)
    ensures Inv(plan, EndOf(plan, w, moves))
    decreases |moves|
  {
    if moves != [] {
      NextKeeps(plan, w, moves[0]);
      RunsKeep(plan, Next(plan, w, moves[0]), moves[1..]);
    }
  }
}
