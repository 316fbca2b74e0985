/** What a node's dependencies were when it passed its gate, over every session:
    all ready at the look that asked for the drain, and exactly so when the gate
    opens if nothing upstream was written in between. */
module GateLooks {
  import opened Status
  import opened Lifecycle
  import opened Supervisor
  import opened World
  import opened WorldInvariant
  import Limits
  import SI = SupervisorInvariant
  import SR = ServiceRuns
  import TR = TaskRuns
  import Rest = TaskRest

  /** A session with bookkeeping the program does not have: the world each node
      last looked at when it asked for the drain, and the nodes with a dependency
      whose status was written since. */
  datatype Story = Story(w: World, looks: map<Name, World>, written: set<Name>)

  /** Every dependency seen ready, the drain asked for and not yet acted on. */
  predicate Drains(m: Machine) {
    match m
    case Svc(s) => s.phase == AtGate(Draining)
    case Tsk(t) => t.phase == TaskAtGate(Draining)
  }

  /** Past its gate, and not at its end. */
  predicate Through(m: Machine) {
    match m
    case Svc(s) => !s.phase.AtGate? && !s.phase.Finished?
    case Tsk(t) => t.phase.TaskRunning? || t.phase.TaskParked?
  }

  /** The generations a machine runs against. */
  function SeenOf(m: Machine): seq<nat> {
    match m
    case Svc(s) => s.seen
    case Tsk(t) => t.seen
  }

  predicate DrainsIn(w: World, n: Name) {
    n in w.nodes && Drains(w.nodes[n].machine)
  }

  /** A status write is one that changes the row: the same status again is none,
      unless it is a result. */
  predicate RowWritten(w: World, w1: World, d: Name) {
    d in w.nodes && d in w1.nodes && !SameRow(w.nodes[d], w1.nodes[d])
  }

  predicate DepWritten(plan: Plan, w: World, w1: World, n: Name) {
    n in plan.deps && exists d :: d in plan.deps[n] && RowWritten(w, w1, d)
  }

  function Tell(plan: Plan, st: Story, mv: Move): Story
    requires Enabled(plan, st.w, mv)
  {
    var w1 := Next(plan, st.w, mv);
    Story(w1,
          if mv.DecideOn? && !DrainsIn(st.w, mv.node) && DrainsIn(w1, mv.node) then st.looks[mv.node := st.w] else st.looks,
          set n | n in w1.nodes &&
                  (if DrainsIn(w1, n) then DrainsIn(st.w, n) && (n in st.written || DepWritten(plan, st.w, w1, n))
                   else n in st.written))
  }

  /** The story of a run. */
  function Follow(plan: Plan, st: Story, moves: seq<Move>): Story
    requires Legal(plan, st.w, moves)
    decreases |moves|
  {
    if moves == [] then st else Follow(plan, Tell(plan, st, moves[0]), moves[1..])
  }

  function Told(plan: Plan, machines: map<Name, Machine>): Story
    requires machines.Keys == plan.deps.Keys
  {
    Story(Start(plan, machines), map[], {})
  }

  lemma {:induction false} FollowsRun(plan: Plan, st: Story, moves: seq<Move>)
    requires Legal(plan, st.w, moves)
    ensures Follow(plan, st, moves).w == EndOf(plan, st.w, moves)
    decreases |moves|
  {
    hide Next, Enabled;
    if moves != [] {
      FollowsRun(plan, Tell(plan, st, moves[0]), moves[1..]);
    }
  }

  // ------------------------------------------------------------------
  // What holds of a look

  predicate AllReady(w: World, names: seq<Name>) {
    forall d <- names :: Ready(w, d)
  }

  /** Every dependency is ready, with the result it had at the look. */
  predicate AsLooked(w: World, look: World, names: seq<Name>) {
    AllReady(w, names) && Rest.Generations(w, names) == Rest.Generations(look, names)
  }

  predicate LookInv(w: World, names: seq<Name>, n: Node, look: Option<World>, written: bool) {
    && (Drains(n.machine) || Through(n.machine) ==> look.Some? && AllReady(look.value, names))
    && (Drains(n.machine) ==>
          && n.view == DepView(look.value, names)
          && Rest.NotAhead(Rest.Generations(look.value, names), Rest.Generations(w, names))
          && (AsLooked(w, look.value, names) <==> !written))
  }

  function LookOf(st: Story, n: Name): Option<World> {
    if n in st.looks then Some(st.looks[n]) else None
  }

  predicate StoryInv(plan: Plan, st: Story) {
    && Inv(plan, st.w) && plan.Closed()
    && forall n <- st.w.nodes ::
         n in plan.deps && LookInv(st.w, plan.deps[n], st.w.nodes[n], LookOf(st, n), n in st.written)
  }

  // ------------------------------------------------------------------
  // What a decision does at the gate

  /** From where a decision leads to the drain, and from where past the gate. */
  predicate Gates(m: Machine, ev: Event, deps: Deps, m1: Machine) {
    && (Drains(m1) ==> !Drains(m) && deps.unready.None?)
    && (Through(m1) ==> Through(m) || (Drains(m) && ev == Drained(false)))
    && (Drains(m) && Through(m1) ==> SeenOf(m1) == deps.generations)
  }

  /** At the drain, only its answer is taken. */
  lemma DrainAnswered(s: Service, x: SI.Sum, ev: Event)
    requires SI.TakenFits(s, x, ev) && s.phase == AtGate(Draining)
    ensures ev.Drained?
  {
  }

  lemma ServiceAtGate(s: Service, x: SI.Sum, ev: Event, deps: Deps, now: Instant)
    requires SI.TakenFits(s, x, ev) && s.phase.AtGate?
    ensures Gates(Svc(s), ev, deps, Svc(On(s, ev, deps, now).next))
  {
    if s.phase == AtGate(Draining) { DrainAnswered(s, x, ev); }
    Limits.OpensOnDrain(s.phase.gate, ev, deps);
    hide SI.TakenFits;
  }

  lemma CycleGates(s: Service, deps: Deps)
    ensures var t := Cycle(s, deps).next; t.phase.AtGate? && (t.phase == AtGate(Draining) ==> deps.unready.None?)
  {
    Limits.OpensOnDrain(WaitingOnDeps, Board, deps);
  }

  /** A cycle that starts over leaves its node at the gate. */
  lemma CyclesGate(s: Service, ev: Event, deps: Deps, now: Instant)
    requires s.phase.Ending? || s.phase.BackingOff? || s.phase.Parked? || s.phase.Served?
    ensures Gates(Svc(s), ev, deps, Svc(On(s, ev, deps, now).next))
  {
    CycleGates(s, deps);
    CycleGates(s.(crashes := s.crashes.(restarts := 0)), deps);
    CycleGates(s.(backoff := s.cfg.backoffMin, crashes := s.crashes.(restarts := 0)), deps);
    hide Cycle, ExitStopped;
  }

  lemma StartingGates(s: Service, ev: Event, deps: Deps, now: Instant)
    requires s.phase.Reclaiming? || s.phase.AwaitingSlot? || s.phase.Spawning? || s.phase.Finished?
    ensures Gates(Svc(s), ev, deps, Svc(On(s, ev, deps, now).next))
  {
    hide StepSpawning;
    if s.phase.Spawning? { SpawningGates(s, ev, now); }
  }

  lemma ServiceGates(s: Service, x: SI.Sum, ev: Event, deps: Deps, now: Instant)
    requires SI.TakenFits(s, x, ev)
    ensures Gates(Svc(s), ev, deps, Svc(On(s, ev, deps, now).next))
  {
    hide SI.TakenFits, On;
    if s.phase.AtGate? {
      ServiceAtGate(s, x, ev, deps, now);
    } else if s.phase.InService? || s.phase.InStartup? {
      NeverStraightToGate(s, ev, deps, now);
    } else if s.phase.Ending? || s.phase.BackingOff? || s.phase.Parked? || s.phase.Served? {
      CyclesGate(s, ev, deps, now);
    } else {
      StartingGates(s, ev, deps, now);
    }
  }

  lemma SpawningGates(s: Service, ev: Event, now: Instant)
    requires s.phase.Spawning?
    ensures !StepSpawning(s, ev, now).next.phase.AtGate?
  {
  }

  lemma TaskGates(n: Node, deps: Deps)
    requires TR.TskInv(n) && n.taken.Some?
    ensures Gates(n.machine, n.taken.value, deps, Tsk(TaskOn(n.machine.task, n.taken.value, deps).next))
  {
    Limits.OpensOnDrain(WaitingOnDeps, Board, deps);
    var t := n.machine.task;
    if t.phase.TaskAtGate? { Limits.OpensOnDrain(t.phase.gate, n.taken.value, deps); }
  }

  lemma NodeGates(plan: Plan, w: World, name: Name)
    requires Inv(plan, w) && Enabled(plan, w, DecideOn(name))
    ensures var n := w.nodes[name];
            var deps := DepView(w, plan.deps[name]);
            Gates(n.machine, n.taken.value, deps, Decide(n, deps, w.clock).machine)
  {
    hide Inv, On, TaskOn, Gates, SI.TakenFits, SI.Settled;
    LocalAt(plan, w, name);
    var n := w.nodes[name];
    TickOf(n, plan.deps[name], w.version);
    if n.machine.Svc? {
      ServiceGates(n.machine.service, SR.Base(n), n.taken.value, DepView(w, plan.deps[name]), w.clock);
    } else {
      TaskGates(n, DepView(w, plan.deps[name]));
    }
  }

  // ------------------------------------------------------------------
  // What a move does to the rows looked at

  /** Rows that only rise are as looked at exactly until one is written. */
  lemma RowsSinceLook(w: World, w1: World, look: World, names: seq<Name>, written: bool)
    requires forall d <- names :: d in w.nodes && d in w1.nodes && Rest.Rises(w.nodes[d], w1.nodes[d])
    requires Rest.NotAhead(Rest.Generations(look, names), Rest.Generations(w, names))
    requires AsLooked(w, look, names) <==> !written
    ensures Rest.NotAhead(Rest.Generations(look, names), Rest.Generations(w1, names))
    ensures AsLooked(w1, look, names) <==> !written && !(exists d :: d in names && RowWritten(w, w1, d))
  {
    var at, before, now := Rest.Generations(look, names), Rest.Generations(w, names), Rest.Generations(w1, names);
    forall i | 0 <= i < |names| ensures at[i] <= before[i] <= now[i] { assert names[i] in names; }
    if AsLooked(w1, look, names) {
      forall i | 0 <= i < |names| ensures SameRow(w.nodes[names[i]], w1.nodes[names[i]]) {
        assert names[i] in names && Ready(w1, names[i]) && at[i] == now[i];
      }
      forall d | d in names ensures SameRow(w.nodes[d], w1.nodes[d]) {
        var i :| 0 <= i < |names| && names[i] == d;
      }
      SameRowsSame(w, w1, names);
    } else if !written && forall d <- names :: !RowWritten(w, w1, d) {
      SameRowsSame(w, w1, names);
    }
  }

  lemma SameRowsSame(w: World, w1: World, names: seq<Name>)
    requires forall d <- names :: d in w.nodes && d in w1.nodes && SameRow(w.nodes[d], w1.nodes[d])
    ensures AllReady(w, names) == AllReady(w1, names)
    ensures Rest.Generations(w, names) == Rest.Generations(w1, names)
  {
    forall d | d in names ensures Ready(w, d) == Ready(w1, d) {
      assert SameRow(w.nodes[d], w1.nodes[d]);
    }
    forall i | 0 <= i < |names| ensures GenerationOf(w, names[i]) == GenerationOf(w1, names[i]) {
      assert names[i] in names;
    }
  }

  /** Nothing upstream is written by a decision. */
  lemma DecisionWritesNothing(plan: Plan, w: World, name: Name, n: Name)
    requires Inv(plan, w) && Enabled(plan, w, DecideOn(name))
    ensures !DepWritten(plan, w, Next(plan, w, DecideOn(name)), n)
  {
    hide Inv, Next;
    forall d | d in w.nodes ensures !RowWritten(w, Next(plan, w, DecideOn(name)), d) {
      Rest.RowsRise(plan, w, DecideOn(name), d);
    }
  }

  // ------------------------------------------------------------------
  // Over every session

  /** A decision that asks for the drain looks at what is ready now. */
  lemma LookDecides(w: World, w1: World, names: seq<Name>, n: Node, m: Node, look: Option<World>, written: bool)
    requires LookInv(w, names, n, look, written) && m.view == DepView(w, names)
    requires n.taken.Some? && Gates(n.machine, n.taken.value, DepView(w, names), m.machine)
    requires AllReady(w1, names) == AllReady(w, names) && Rest.Generations(w1, names) == Rest.Generations(w, names)
    ensures LookInv(w1, names, m, if !Drains(n.machine) && Drains(m.machine) then Some(w) else look,
                    if Drains(m.machine) then false else written)
  {
  }

  lemma DecidedKeeps(plan: Plan, st: Story, n: Name)
    requires StoryInv(plan, st) && Enabled(plan, st.w, DecideOn(n))
    ensures var st1 := Tell(plan, st, DecideOn(n));
            && n in st1.w.nodes
            && LookInv(st1.w, plan.deps[n], st1.w.nodes[n], LookOf(st1, n), n in st1.written)
  {
    var w, w1 := st.w, Next(plan, st.w, DecideOn(n));
    var names := plan.deps[n];
    assert LookInv(w, names, w.nodes[n], LookOf(st, n), n in st.written);
    NodeGates(plan, w, n);
    DecisionWritesNothing(plan, w, n, n);
    hide Inv, LookInv, Gates, On, TaskOn, Drains, DepWritten, AllReady;
    forall d | d in names ensures d in w.nodes && d in w1.nodes && SameRow(w.nodes[d], w1.nodes[d]) {
      InPlan(plan, w, n, d);
      Rest.RowsRise(plan, w, DecideOn(n), d);
    }
    SameRowsSame(w, w1, names);
    DecideFrame(w.nodes[n], DepView(w, names), w.clock);
    LookDecides(w, w1, names, w.nodes[n], w1.nodes[n], LookOf(st, n), n in st.written);
    DrainsOnce(w, names, w.nodes[n].machine, w.nodes[n].taken.value, w1.nodes[n].machine);
  }

  lemma DrainsOnce(w: World, names: seq<Name>, m: Machine, ev: Event, m1: Machine)
    requires Gates(m, ev, DepView(w, names), m1)
    ensures Drains(m1) ==> !Drains(m)
  {
  }

  lemma InPlan(plan: Plan, w: World, n: Name, d: Name)
    requires Inv(plan, w) && plan.Closed() && n in plan.deps && d in plan.deps[n]
    ensures d in w.nodes
  {
  }

  /** A move that is no decision of its own leaves a node's look, and counts what
      it writes upstream. */
  lemma LookStays(w: World, w1: World, names: seq<Name>, n: Node, m: Node, look: Option<World>, written: bool)
    requires LookInv(w, names, n, look, written) && Rest.Same(n, m)
    requires forall d <- names :: d in w.nodes && d in w1.nodes && Rest.Rises(w.nodes[d], w1.nodes[d])
    ensures LookInv(w1, names, m, look,
                    if Drains(m.machine) then written || exists d :: d in names && RowWritten(w, w1, d) else written)
  {
    if Drains(n.machine) { RowsSinceLook(w, w1, look.value, names, written); }
    hide AsLooked, RowWritten, AllReady;
  }

  /** What is noted of a node that did not decide. */
  lemma TellOther(plan: Plan, st: Story, mv: Move, n: Name)
    requires Enabled(plan, st.w, mv) && n in st.w.nodes && n in Next(plan, st.w, mv).nodes && n in plan.deps
    requires !(mv.DecideOn? && mv.node == n)
    requires Drains(Next(plan, st.w, mv).nodes[n].machine) == Drains(st.w.nodes[n].machine)
    ensures var w1, st1 := Next(plan, st.w, mv), Tell(plan, st, mv);
            && st1.w == w1 && LookOf(st1, n) == LookOf(st, n)
            && (n in st1.written <==>
                  n in st.written || (Drains(w1.nodes[n].machine) && exists d :: d in plan.deps[n] && RowWritten(st.w, w1, d)))
  {
    hide Next, Enabled, Drains, RowWritten;
  }

  lemma OthersKeep(plan: Plan, st: Story, mv: Move, n: Name)
    requires StoryInv(plan, st) && Enabled(plan, st.w, mv) && n in st.w.nodes && !(mv.DecideOn? && mv.node == n)
    ensures var st1 := Tell(plan, st, mv);
            && n in st1.w.nodes
            && LookInv(st1.w, plan.deps[n], st1.w.nodes[n], LookOf(st1, n), n in st1.written)
  {
    hide Next, Enabled, LookInv, Drains, RowWritten, Tell, LookOf, Inv;
    var w, w1 := st.w, Next(plan, st.w, mv);
    var names := plan.deps[n];
    assert LookInv(w, names, w.nodes[n], LookOf(st, n), n in st.written);
    Rest.MindKept(plan, w, mv, n);
    TellOther(plan, st, mv, n);
    forall d | d in names ensures d in w.nodes && d in w1.nodes && Rest.Rises(w.nodes[d], w1.nodes[d]) {
      InPlan(plan, w, n, d);
      Rest.RowsRise(plan, w, mv, d);
    }
    LookStays(w, w1, names, w.nodes[n], w1.nodes[n], LookOf(st, n), n in st.written);
  }

  lemma TellKeeps(plan: Plan, st: Story, mv: Move)
    requires StoryInv(plan, st) && Enabled(plan, st.w, mv)
    ensures StoryInv(plan, Tell(plan, st, mv)) && Tell(plan, st, mv).w == Next(plan, st.w, mv)
  {
    hide Inv, LookInv, DepWritten, Next, Enabled;
    NextKeeps(plan, st.w, mv);
    var st1 := Tell(plan, st, mv);
    forall n <- st1.w.nodes
      ensures n in plan.deps && LookInv(st1.w, plan.deps[n], st1.w.nodes[n], LookOf(st1, n), n in st1.written)
    {
      Rest.RowsRise(plan, st.w, mv, n);
      if mv.DecideOn? && mv.node == n { DecidedKeeps(plan, st, n); } else { OthersKeep(plan, st, mv, n); }
    }
  }

  lemma {:induction false} StoriesKeep(plan: Plan, st: Story, moves: seq<Move>)
    requires StoryInv(plan, st) && Legal(plan, st.w, moves)
    ensures StoryInv(plan, Follow(plan, st, moves))
    decreases |moves|
  {
    hide StoryInv, Tell, Next, Enabled;
    if moves != [] {
      TellKeeps(plan, st, moves[0]);
      StoriesKeep(plan, Tell(plan, st, moves[0]), moves[1..]);
    }
  }

  lemma StoryStarts(plan: Plan, machines: map<Name, Machine>)
    requires machines.Keys == plan.deps.Keys && plan.Closed()
    requires forall n <- machines :: Initial(machines[n])
    ensures StoryInv(plan, Told(plan, machines))
  {
    StartKeeps(plan, machines);
    hide Inv;
  }

  /** In every session: a node that waits for its drain, or is past its gate, saw
      every dependency ready when it last asked for the drain; while it waits, that
      look is its last snapshot. */
  lemma PassesOnlyAfterAllReady(plan: Plan, machines: map<Name, Machine>, moves: seq<Move>, name: Name)
    requires machines.Keys == plan.deps.Keys && plan.Closed()
    requires forall n <- machines :: Initial(machines[n])
    requires Legal(plan, Start(plan, machines), moves)
    requires var w := EndOf(plan, Start(plan, machines), moves);
             name in w.nodes && (Drains(w.nodes[name].machine) || Through(w.nodes[name].machine))
    ensures var st := Follow(plan, Told(plan, machines), moves);
            && st.w == EndOf(plan, Start(plan, machines), moves)
            && name in plan.deps && name in st.looks
            && (forall d <- plan.deps[name] :: Ready(st.looks[name], d))
            && (Drains(st.w.nodes[name].machine) ==>
                  && st.w.nodes[name].view == DepView(st.looks[name], plan.deps[name])
                  && st.w.nodes[name].view.unready.None?)
  {
    hide Inv, Next, Enabled;
    var st0 := Told(plan, machines);
    StoryStarts(plan, machines);
    StoriesKeep(plan, st0, moves);
    FollowsRun(plan, st0, moves);
    var st := Follow(plan, st0, moves);
    assert LookInv(st.w, plan.deps[name], st.w.nodes[name], LookOf(st, name), name in st.written);
  }

  /** In every session: a decision that passes the gate is one on the drain's
      answer, and takes the results of that moment to run against. It finds every
      dependency ready, at the results of the look before, exactly if none had its
      status written in between. */
  lemma PassesOnReadyExactly(plan: Plan, machines: map<Name, Machine>, moves: seq<Move>, name: Name)
    requires machines.Keys == plan.deps.Keys && plan.Closed()
    requires forall n <- machines :: Initial(machines[n])
    requires Legal(plan, Start(plan, machines), moves)
    requires var w := EndOf(plan, Start(plan, machines), moves);
             && Enabled(plan, w, DecideOn(name))
             && !Through(w.nodes[name].machine) && Through(Next(plan, w, DecideOn(name)).nodes[name].machine)
    ensures var st := Follow(plan, Told(plan, machines), moves);
            var names := plan.deps[name];
            && st.w == EndOf(plan, Start(plan, machines), moves) && name in st.looks
            && st.w.nodes[name].taken == Some(Drained(false))
            && SeenOf(Next(plan, st.w, DecideOn(name)).nodes[name].machine) == Rest.Generations(st.w, names)
            && (forall d <- names :: Ready(st.looks[name], d))
            && ((forall d <- names :: Ready(st.w, d)) && Rest.Generations(st.w, names) == Rest.Generations(st.looks[name], names)
                <==> name !in st.written)
  {
    hide Inv;
    var st0 := Told(plan, machines);
    StoryStarts(plan, machines);
    StoriesKeep(plan, st0, moves);
    FollowsRun(plan, st0, moves);
    var st := Follow(plan, st0, moves);
    assert LookInv(st.w, plan.deps[name], st.w.nodes[name], LookOf(st, name), name in st.written);
    NodeGates(plan, st.w, name);
    Rest.ViewGenerations(st.w, plan.deps[name]);
    hide Decide;
  }
}
