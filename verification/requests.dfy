/** A request for a restart, from being sent to being acted on, in every session:
    it is kept until it is taken or a drain discards it, and it wakes a node that
    is parked. */
module Requests {
  import opened Status
  import opened Lifecycle
  import opened Supervisor
  import opened World
  import opened WorldInvariant
  import opened Progress
  import Laws = ServiceLaws
  import SI = SupervisorInvariant
  import SR = ServiceRuns
  import TR = TaskRuns
  import Ctl

  predicate ParkedAt(m: Machine) {
    match m
    case Svc(s) => s.phase.Parked?
    case Tsk(t) => t.phase.TaskParked?
  }

  predicate GateAt(m: Machine) {
    match m
    case Svc(s) => s.phase.AtGate?
    case Tsk(t) => t.phase.TaskAtGate?
  }

  /** Without a stop sent, none is queued and none announced; who listens is heard. */
  predicate Undisturbed(n: Node) {
    && (!n.stopSent ==> n.inbox.urgent == [] && !n.inbox.stopping)
    && (!n.exited ==> n.inbox.listening)
    && (forall m <- n.inbox.normal :: m.Restart?)
  }

  lemma RequestFrame(n: Node, a: Action, ans: Answer, free: nat)
    requires IsRequest(a)
    requires a.Probe? ==> ans.ProbeSays?
    requires a.ReadReloadCounters? ==> ans.CountersSay?
    ensures var m := RunRequest(n, a, ans, free).node;
            && m.inbox == (if a.DrainControl? then n.inbox.Drain() else n.inbox)
            && m.exited == n.exited && (a.DrainControl? ==> m.queue == n.queue + [Drained(n.inbox.StopKnown())])
  {
  }

  lemma ActionFrame(n: Node, a: Action, ans: Answer, free: nat)
    requires a.Probe? ==> ans.ProbeSays?
    requires a.ReadReloadCounters? ==> ans.CountersSay?
    requires a.RunJob? ==> ans.JobGoes?
    ensures var m := RunAction(n, a, ans, free).node;
            && m.inbox == (if a.DrainControl? then n.inbox.Drain()
                           else if a.Exit? then n.inbox.(listening := false) else n.inbox)
            && m.exited == (n.exited || a.Exit?)
  {
    hide RunRequest;
    if IsRequest(a) { RequestFrame(n, a, ans, free); }
  }

  lemma MicroFrame(n: Node, ans: Answer, free: nat)
    requires n.micro != [] && Answers(n, ans, free)
    ensures RunMicro(n, ans, free).node.inbox == n.inbox && RunMicro(n, ans, free).node.exited == n.exited
  {
  }

  lemma StepUndisturbed(n: Node, ans: Answer, free: nat)
    requires Undisturbed(n) && CanRun(n, ans, free)
    ensures Undisturbed(RunStep(n, ans, free).node)
  {
    hide RunMicro, RunAction;
    if n.micro != [] { MicroFrame(n, ans, free); } else { ActionFrame(n.(acts := n.acts[1..]), n.acts[0], ans, free); }
  }

  lemma TakeUndisturbed(n: Node, src: Source, version: nat, hasDeps: bool, now: Instant)
    requires Undisturbed(n) && CanTake(n, src, version, hasDeps, now)
    ensures Undisturbed(Take(n, src, version))
  {
  }

  lemma SentUndisturbed(n: Node, why: string)
    requires Undisturbed(n)
    ensures Undisturbed(QueueStop(n)) && Undisturbed(QueueRestart(n, why)) && Undisturbed(DropSenders(n))
    ensures n.stopSent ==> Undisturbed(AnnounceStop(n))
  {
  }

  lemma MoveUndisturbed(plan: Plan, w: World, mv: Move)
    requires Enabled(plan, w, mv) && forall n <- w.nodes :: Undisturbed(w.nodes[n])
    ensures forall n <- Next(plan, w, mv).nodes :: Undisturbed(Next(plan, w, mv).nodes[n])
  {
    hide Undisturbed, Take, RunStep, CanTake, CanRun, DepView, On, TaskOn, QueueStop, QueueRestart, DropSenders, AnnounceStop;
    if !mv.PassTime? {
      var n := w.nodes[mv.node];
      match mv
      case TakeEvent(_, src) => TakeUndisturbed(n, src, w.version, plan.deps[mv.node] != [], w.clock);
      case DoNext(_, ans) => StepUndisturbed(n, ans, w.free);
      case DecideOn(_) => DecidesUndisturbed(n, DepView(w, plan.deps[mv.node]), w.clock);
      case RestartOf(_, why) => SentUndisturbed(n, why);
      case _ => SentUndisturbed(n, "");
    }
  }

  lemma DecidesUndisturbed(n: Node, deps: Deps, now: Instant)
    requires Undisturbed(n) && n.taken.Some?
    ensures Undisturbed(Decide(n, deps, now)) && Decide(n, deps, now).inbox == n.inbox
  {
    hide On, TaskOn;
  }

  lemma {:induction false} RunsUndisturbed(plan: Plan, w: World, moves: seq<Move>)
    requires Legal(plan, w, moves) && forall n <- w.nodes :: Undisturbed(w.nodes[n])
    ensures forall n <- EndOf(plan, w, moves).nodes :: Undisturbed(EndOf(plan, w, moves).nodes[n])
    decreases |moves|
  {
    hide Undisturbed, Next, Enabled;
    if moves != [] {
      MoveUndisturbed(plan, w, moves[0]);
      RunsUndisturbed(plan, Next(plan, w, moves[0]), moves[1..]);
    }
  }

  lemma ReachableUndisturbed(plan: Plan, w: World)
    requires Reachable(plan, w)
    ensures forall n <- w.nodes :: Undisturbed(w.nodes[n])
  {
    hide Next, Enabled;
    var machines: map<Name, Machine>, moves: seq<Move> :|
      && machines.Keys == plan.deps.Keys && plan.Closed()
      && (forall n <- machines :: Initial(machines[n]))
      && Legal(plan, Start(plan, machines), moves)
      && EndOf(plan, Start(plan, machines), moves) == w;
    RunsUndisturbed(plan, Start(plan, machines), moves);
  }

  /** A request sent to a node that no stop was sent to, and that has not ended, is
      queued behind the others. */
  lemma RequestIsQueued(plan: Plan, w: World, name: Name, why: string)
    requires Reachable(plan, w) && name in w.nodes && name in plan.deps
    requires !w.nodes[name].stopSent && !w.nodes[name].exited
    ensures Enabled(plan, w, RestartOf(name, why))
    ensures var n, m := w.nodes[name], Next(plan, w, RestartOf(name, why)).nodes[name];
            m == n.(inbox := n.inbox.(normal := n.inbox.normal + [Ctl.Restart(why)]))
  {
    hide Reachable;
    ReachableUndisturbed(plan, w);
    assert Undisturbed(w.nodes[name]);
  }

  /** It stays queued through every move but two: its node takes the message at the
      head of the queue, or discards them all on its way through its gate, and then
      none is left. */
  lemma RequestStays(plan: Plan, w: World, mv: Move, name: Name)
    requires Enabled(plan, w, mv) && name in w.nodes
    ensures name in Next(plan, w, mv).nodes
    ensures var n, m := w.nodes[name], Next(plan, w, mv).nodes[name];
            if mv == TakeEvent(name, NormalMessage) then
              n.inbox.normal != [] && m.inbox.normal == n.inbox.normal[1..] && m.taken == Some(MessageEvent(n.inbox.normal[0]))
            else if mv.DoNext? && mv.node == name && n.micro == [] && n.acts[0].DrainControl? then
              && m.inbox.normal == [] && m.inbox.urgent == []
              && m.queue == n.queue + [Drained(n.inbox.urgent != [] || n.inbox.stopping)]
            else n.inbox.normal <= m.inbox.normal
  {
    hide RunMicro, RunAction, DepView, On, TaskOn;
    if !mv.PassTime? && mv.node == name {
      var n := w.nodes[name];
      if mv.DoNext? {
        if n.micro != [] {
          MicroFrame(n, mv.ans, w.free);
        } else {
          ActionFrame(n.(acts := n.acts[1..]), n.acts[0], mv.ans, w.free);
          if n.acts[0].DrainControl? { DrainIsRun(n.(acts := n.acts[1..]), mv.ans, w.free); }
        }
      }
    }
  }

  lemma DrainIsRun(n: Node, ans: Answer, free: nat)
    ensures var m := RunAction(n, DrainControl, ans, free).node;
            && m.inbox.normal == [] && m.inbox.urgent == []
            && m.queue == n.queue + [Drained(n.inbox.urgent != [] || n.inbox.stopping)]
  {
  }

  /** A request wakes a parked node. In every session: a node parked with a request
      queued, nothing else to do and no stop sent can take the request, and by its
      decision on it stands at its gate. A service that had given up starts its
      count of restarts over. */
  lemma RequestWakes(plan: Plan, w: World, name: Name)
    requires Reachable(plan, w) && name in w.nodes && name in plan.deps
    requires var n := w.nodes[name];
             ParkedAt(n.machine) && n.Idle() && n.queue == [] && !n.stopSent && n.inbox.normal != []
    ensures Enabled(plan, w, TakeEvent(name, NormalMessage))
    ensures var w1 := Next(plan, w, TakeEvent(name, NormalMessage));
            && Enabled(plan, w1, DecideOn(name))
            && var m := Next(plan, w1, DecideOn(name)).nodes[name].machine;
               && GateAt(m)
               && (m.Svc? && w.nodes[name].machine.service.phase.reset ==> m.service.crashes.restarts == 0)
  {
    hide Reachable, On, TaskOn, DepView, Laws.Shows;
    ReachableUndisturbed(plan, w);
    var n := w.nodes[name];
    assert Undisturbed(n) && n.inbox.normal[0] in n.inbox.normal;
    var w1 := Next(plan, w, TakeEvent(name, NormalMessage));
    var ev := MessageEvent(n.inbox.normal[0]);
    var deps := DepView(w1, plan.deps[name]);
    match n.machine
    case Svc(s) => Laws.ParkedWakesExactly(s, ev, deps, w1.clock);
    case Tsk(t) => Laws.TaskWakesExactly(t, ev, deps);
  }

  // ------------------------------------------------------------------
  // A stop, or nobody left to send one

  predicate Over(m: Machine) {
    match m
    case Svc(s) => SR.Leaving(s.phase)
    case Tsk(t) => t.phase.TaskFinished?
  }

  predicate SaysStop(src: Source) {
    src.UrgentMessage? || src.SendersGone?
  }

  lemma StopEndsService(n: Node, src: Source, deps: Deps, now: Instant, version: nat, hasDeps: bool)
    requires SR.SvcInv(n) && CanTake(n, src, version, hasDeps, now) && SaysStop(src)
    requires SR.SvcInv(Take(n, src, version))
    ensures var m := Take(n, src, version);
            m.taken.Some? && Over(Decide(m, deps, now).machine)
  {
    hide SI.TakenFits, On;
    UrgentIsStop(n);
    var m := Take(n, src, version);
    assert m.taken == Some(Event.Stop);
    SR.StopObeyed(n.machine.service, SR.Base(m), deps, now);
  }

  lemma UrgentIsStop(n: Node)
    requires n.inbox.Valid()
    ensures n.inbox.urgent != [] ==> n.inbox.urgent[0].Stop?
  {
    if n.inbox.urgent != [] { assert n.inbox.urgent[0] in n.inbox.urgent; }
  }

  lemma StopEndsTask(n: Node, src: Source, deps: Deps, now: Instant, version: nat, hasDeps: bool)
    requires TR.TskInv(n) && CanTake(n, src, version, hasDeps, now) && SaysStop(src)
    ensures var m := Take(n, src, version);
            m.taken.Some? && Over(Decide(m, deps, now).machine)
  {
    UrgentIsStop(n);
    assert n.machine.task.phase == TaskAtGate(WaitingOnDeps) || n.machine.task.phase.TaskParked?;
  }

  /** In every session: a node that takes a stop, or finds that nobody is left who
      could send it one, is on its way out by its decision on that. */
  lemma StopIsTaken(plan: Plan, w: World, name: Name, src: Source)
    requires Reachable(plan, w) && Enabled(plan, w, TakeEvent(name, src)) && SaysStop(src)
    ensures var w1 := Next(plan, w, TakeEvent(name, src));
            && Enabled(plan, w1, DecideOn(name))
            && Over(Next(plan, w1, DecideOn(name)).nodes[name].machine)
  {
    hide Reachable, On, TaskOn, DepView, SR.SvcInv, TR.TskInv, SR.StopInv, TR.StopInv, CanTake, Take, Inv, Over, Decide;
    ReachableKeeps(plan, w);
    var n := w.nodes[name];
    var w1 := Next(plan, w, TakeEvent(name, src));
    LocalAt(plan, w, name);
    TickOf(n, plan.deps[name], w.version);
    var deps := DepView(w1, plan.deps[name]);
    match n.machine
    case Svc(_) =>
      SR.TakeKeeps(n, src, w.version, plan.deps[name] != [], w.clock);
      StopEndsService(n, src, deps, w1.clock, w.version, plan.deps[name] != []);
    case Tsk(_) =>
      StopEndsTask(n, src, deps, w1.clock, w.version, plan.deps[name] != []);
  }
}
