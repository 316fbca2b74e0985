/** When a parked task rests on what its dependencies are, over every session:
    exactly when it last looked on a board tick, or nothing upstream had a new
    result while its job ran. */
module TaskRest {
  import opened Status
  import opened Lifecycle
  import opened Supervisor
  import opened World
  import opened WorldInvariant
  import opened Progress
  import TR = TaskRuns

  /** A session with bookkeeping the program does not have: the event each node
      last decided on, and the tasks with a dependency that had a new result
      between their gate opening and their job's end. */
  datatype Story = Story(w: World, last: map<Name, Event>, moved: set<Name>)

  predicate JobOn(w: World, n: Name) {
    n in w.nodes && w.nodes[n].machine.Tsk? && w.nodes[n].machine.task.phase.TaskRunning?
  }

  /** A dependency of `n` has a result it had not before the move. */
  predicate NewResult(plan: Plan, w: World, w1: World, n: Name) {
    n in plan.deps && exists d :: d in plan.deps[n] && GenerationOf(w1, d) != GenerationOf(w, d)
  }

  function Tell(plan: Plan, st: Story, mv: Move): Story
    requires Enabled(plan, st.w, mv)
  {
    var w1 := Next(plan, st.w, mv);
    Story(w1,
          if mv.DecideOn? then st.last[mv.node := st.w.nodes[mv.node].taken.value] else st.last,
          set n | n in w1.nodes &&
                  (if JobOn(w1, n) then JobOn(st.w, n) && (n in st.moved || NewResult(plan, st.w, w1, n))
                   else n in st.moved))
  }

  /** The story of a run. */
  function Follow(plan: Plan, st: Story, moves: seq<Move>): Story
    requires Legal(plan, st.w, moves)
    decreases |moves|
  {
    if moves == [] then st else Follow(plan, Tell(plan, st, moves[0]), moves[1..])
  }

  lemma {:induction false} FollowsRun(plan: Plan, st: Story, moves: seq<Move>)
    requires Legal(plan, st.w, moves)
    ensures Follow(plan, st, moves).w == EndOf(plan, st.w, moves)
    decreases |moves|
  {
    hide Next, Enabled;
    if moves != [] {
      FollowsRun(plan, Tell(plan, st, moves[0]), moves[1..]);
    }
  }

  function Generations(w: World, names: seq<Name>): seq<nat> {
    seq(|names|, i requires 0 <= i < |names| => GenerationOf(w, names[i]))
  }

  predicate NotAhead(seen: seq<nat>, now: seq<nat>) {
    |seen| == |now| && forall i | 0 <= i < |seen| :: seen[i] <= now[i]
  }

  /** A running task is behind exactly if something upstream has moved; a parked
      one looked at the board when it parked, or on a tick since. */
  predicate RestInv(w: World, names: seq<Name>, n: Node, last: Option<Event>, moved: bool) {
    n.machine.Tsk? ==>
      var t := n.machine.task;
      && (t.phase.TaskRunning? ==>
            NotAhead(t.seen, Generations(w, names)) && (t.seen == Generations(w, names) <==> !moved))
      && (t.phase.TaskParked? ==>
            && |t.seen| == |names|
            && last.Some? && (last.value.Board? || last.value.JobDone?)
            && (last.value.Board? ==> n.view.generations == t.seen)
            && (last.value.JobDone? ==> (n.view.generations == t.seen <==> !moved)))
  }

  function LastOf(st: Story, n: Name): Option<Event> {
    if n in st.last then Some(st.last[n]) else None
  }

  predicate StoryInv(plan: Plan, st: Story) {
    && Inv(plan, st.w)
    && forall n <- st.w.nodes :: n in plan.deps && RestInv(st.w, plan.deps[n], st.w.nodes[n], LastOf(st, n), n in st.moved)
  }

  lemma ViewGenerations(w: World, names: seq<Name>)
    ensures DepView(w, names).generations == Generations(w, names)
  {
  }

  /** What a task decides, and on what. */
  lemma TaskDecides(w: World, names: seq<Name>, n: Node, last: Option<Event>, moved: bool)
    requires n.machine.Tsk? && TR.TskInv(n) && n.taken.Some? && RestInv(w, names, n, last, moved)
    ensures var m := Decide(n, DepView(w, names), w.clock);
            var on := m.machine.Tsk? && m.machine.task.phase.TaskRunning?;
            var was := n.machine.task.phase.TaskRunning?;
            RestInv(w, names, m, n.taken, if on then was && moved else moved)
  {
    var deps := DepView(w, names);
    ViewGenerations(w, names);
    var t, ev := n.machine.task, n.taken.value;
    match t.phase
    case TaskParked =>
      if ev.Board? && deps.MovedSince(t.seen).None? {
        assert |deps.generations| == |names| == |deps.names|;
      }
    case _ =>
  }

  predicate Same(n: Node, m: Node) {
    m.machine == n.machine && m.view == n.view
  }

  /** A result upstream leaves a running task behind, and nothing else does. */
  lemma ResultsMove(plan: Plan, w: World, w1: World, name: Name, n: Node, m: Node, last: Option<Event>, moved: bool)
    requires name in plan.deps && RestInv(w, plan.deps[name], n, last, moved) && Same(n, m)
    requires forall d <- plan.deps[name] :: GenerationOf(w, d) <= GenerationOf(w1, d)
    ensures var on := n.machine.Tsk? && n.machine.task.phase.TaskRunning?;
            RestInv(w1, plan.deps[name], m, last, if on then moved || NewResult(plan, w, w1, name) else moved)
  {
    var names := plan.deps[name];
    if n.machine.Tsk? && n.machine.task.phase.TaskRunning? {
      var before, now := Generations(w, names), Generations(w1, names);
      var seen := n.machine.task.seen;
      forall i | 0 <= i < |names| ensures before[i] <= now[i] { assert names[i] in names; }
      if NewResult(plan, w, w1, name) {
        var d :| d in names && GenerationOf(w1, d) != GenerationOf(w, d);
        var i :| 0 <= i < |names| && names[i] == d;
        assert seen[i] <= before[i] < now[i];
      } else {
        forall i | 0 <= i < |names| ensures before[i] == now[i] { assert names[i] in names; }
        assert before == now;
      }
      if moved {
        var i :| 0 <= i < |names| && seen[i] != before[i];
        assert seen[i] < now[i];
      }
    }
  }

  /** A row only moves on: results are added, never taken back, and becoming ready
      is one. */
  predicate Rises(n: Node, m: Node) {
    && n.generation <= m.generation
    && (m.generation == n.generation && m.status.IsReady() ==> m.status == n.status)
  }

  lemma RowsRise(plan: Plan, w: World, mv: Move, d: Name)
    requires Inv(plan, w) && Enabled(plan, w, mv)
    ensures d in Next(plan, w, mv).nodes <==> d in w.nodes
    ensures d in w.nodes ==> Rises(w.nodes[d], Next(plan, w, mv).nodes[d])
    ensures mv.DecideOn? && d in w.nodes ==> SameRow(w.nodes[d], Next(plan, w, mv).nodes[d])
  {
    hide Inv, Take, Decide, RunStep;
    match mv
    case TakeEvent(name, src) => TakeFrame(w.nodes[name], src, w.version, plan.deps[name] != [], w.clock);
    case DecideOn(name) => DecideFrame(w.nodes[name], DepView(w, plan.deps[name]), w.clock);
    case DoNext(name, ans) => StepRises(w.nodes[name], ans, w.free);
    case _ =>
  }

  lemma GenerationsGrow(plan: Plan, w: World, mv: Move, d: Name)
    requires Inv(plan, w) && Enabled(plan, w, mv)
    ensures GenerationOf(w, d) <= GenerationOf(Next(plan, w, mv), d)
    ensures mv.DecideOn? ==> GenerationOf(w, d) == GenerationOf(Next(plan, w, mv), d)
  {
    hide Inv, Next, Enabled;
    RowsRise(plan, w, mv, d);
  }

  lemma StepRises(n: Node, ans: Answer, free: nat)
    requires CanRun(n, ans, free)
    ensures Rises(n, RunStep(n, ans, free).node)
  {
    hide RunMicro, RunAction, Rises;
    if n.micro == [] {
      var m := n.(acts := n.acts[1..]);
      ActionRises(m, n.acts[0], ans, free);
      SameRowRises(n, m, RunAction(m, n.acts[0], ans, free).node);
    } else {
      MicroRises(n, ans, free);
    }
  }

  lemma SameRowRises(n: Node, m: Node, o: Node)
    requires m.status == n.status && m.generation == n.generation && Rises(m, o)
    ensures Rises(n, o)
  {
  }

  lemma MicroRises(n: Node, ans: Answer, free: nat)
    requires n.micro != [] && Answers(n, ans, free)
    ensures Rises(n, RunMicro(n, ans, free).node)
  {
  }

  lemma ActionRises(n: Node, a: Action, ans: Answer, free: nat)
    requires a.Probe? ==> ans.ProbeSays?
    requires a.ReadReloadCounters? ==> ans.CountersSay?
    requires a.RunJob? ==> ans.JobGoes?
    ensures Rises(n, RunAction(n, a, ans, free).node)
  {
    hide RunRequest;
    if IsRequest(a) { RequestRises(n, a, ans, free); }
  }

  lemma RequestRises(n: Node, a: Action, ans: Answer, free: nat)
    requires IsRequest(a)
    requires a.Probe? ==> ans.ProbeSays?
    requires a.ReadReloadCounters? ==> ans.CountersSay?
    ensures Rises(n, RunRequest(n, a, ans, free).node)
  {
  }

  lemma MindKept(plan: Plan, w: World, mv: Move, name: Name)
    requires Enabled(plan, w, mv) && name in w.nodes && !(mv.DecideOn? && mv.node == name)
    ensures name in Next(plan, w, mv).nodes && Same(w.nodes[name], Next(plan, w, mv).nodes[name])
  {
    hide RunStep, Decide;
  }

  lemma TellKeeps(plan: Plan, st: Story, mv: Move)
    requires StoryInv(plan, st) && Enabled(plan, st.w, mv)
    ensures StoryInv(plan, Tell(plan, st, mv))
  {
    hide Inv, RestInv, NewResult, Decide, RunStep, Take;
    NextKeeps(plan, st.w, mv);
    var st1 := Tell(plan, st, mv);
    forall n <- st1.w.nodes
      ensures n in plan.deps && RestInv(st1.w, plan.deps[n], st1.w.nodes[n], LastOf(st1, n), n in st1.moved)
    {
      TellKeepsOne(plan, st, mv, n);
    }
  }

  lemma TellKeepsOne(plan: Plan, st: Story, mv: Move, n: Name)
    requires StoryInv(plan, st) && Enabled(plan, st.w, mv) && n in st.w.nodes
    ensures var st1 := Tell(plan, st, mv);
            && n in st1.w.nodes && n in plan.deps
            && RestInv(st1.w, plan.deps[n], st1.w.nodes[n], LastOf(st1, n), n in st1.moved)
  {
    hide Inv, RestInv, NewResult, Decide, RunStep, Take;
    var st1, node := Tell(plan, st, mv), st.w.nodes[n];
    assert RestInv(st.w, plan.deps[n], node, LastOf(st, n), n in st.moved);
    forall d { GenerationsGrow(plan, st.w, mv, d); }
    if mv.DecideOn? && mv.node == n {
      DecideKeepsOne(plan, st, n);
    } else {
      MindKept(plan, st.w, mv, n);
      ResultsMove(plan, st.w, st1.w, n, node, st1.w.nodes[n], LastOf(st, n), n in st.moved);
    }
  }

  lemma DecideKeepsOne(plan: Plan, st: Story, n: Name)
    requires StoryInv(plan, st) && Enabled(plan, st.w, DecideOn(n))
    ensures var st1 := Tell(plan, st, DecideOn(n));
            RestInv(st1.w, plan.deps[n], st1.w.nodes[n], LastOf(st1, n), n in st1.moved)
  {
    hide Inv, RestInv;
    var mv := DecideOn(n);
    var st1, node, names := Tell(plan, st, mv), st.w.nodes[n], plan.deps[n];
    assert RestInv(st.w, names, node, LastOf(st, n), n in st.moved);
    forall d { GenerationsGrow(plan, st.w, mv, d); }
    assert Generations(st1.w, names) == Generations(st.w, names);
    SameBoard(st.w, st1.w, names, st1.w.nodes[n], LastOf(st1, n), n in st1.moved);
    LocalAt(plan, st.w, n);
    TickOf(node, names, st.w.version);
    if node.machine.Tsk? {
      hide Decide, TR.TskInv;
      TaskDecides(st.w, names, node, LastOf(st, n), n in st.moved);
    } else {
      ServiceFits(st.w, names, st1.w.nodes[n], LastOf(st1, n), n in st1.moved);
    }
  }

  lemma SameBoard(w: World, w1: World, names: seq<Name>, n: Node, last: Option<Event>, moved: bool)
    requires Generations(w1, names) == Generations(w, names)
    ensures RestInv(w1, names, n, last, moved) == RestInv(w, names, n, last, moved)
  {
  }

  lemma ServiceFits(w: World, names: seq<Name>, n: Node, last: Option<Event>, moved: bool)
    requires n.machine.Svc?
    ensures RestInv(w, names, n, last, moved)
  {
  }

  lemma {:induction false} StoriesKeep(plan: Plan, st: Story, moves: seq<Move>)
    requires StoryInv(plan, st) && Legal(plan, st.w, moves)
    ensures StoryInv(plan, Follow(plan, st, moves))
    decreases |moves|
  {
    hide StoryInv, Tell, Next, Enabled;
    if moves != [] {
      TellKeeps(plan, st, moves[0]);
      TellIsNext(plan, st, moves[0]);
      StoriesKeep(plan, Tell(plan, st, moves[0]), moves[1..]);
    }
  }

  lemma TellIsNext(plan: Plan, st: Story, mv: Move)
    requires Enabled(plan, st.w, mv)
    ensures Tell(plan, st, mv).w == Next(plan, st.w, mv)
  {
  }

  function Told(plan: Plan, machines: map<Name, Machine>): Story
    requires machines.Keys == plan.deps.Keys
  {
    Story(Start(plan, machines), map[], {})
  }

  /** In every session: a parked task at rest, no write in flight, stands at the
      generations its dependencies are at exactly if the last thing it decided on
      was a board tick, or nothing upstream had a new result while its job ran. */
  lemma RestsCurrentExactly(plan: Plan, machines: map<Name, Machine>, moves: seq<Move>, name: Name)
    requires machines.Keys == plan.deps.Keys && plan.Closed()
    requires forall n <- machines :: Initial(machines[n])
    requires Legal(plan, Start(plan, machines), moves)
    requires var w := EndOf(plan, Start(plan, machines), moves);
             && Blocked(w, name) && NoWriteInFlight(w)
             && w.nodes[name].machine.Tsk? && w.nodes[name].machine.task.phase.TaskParked?
    ensures var st := Follow(plan, Told(plan, machines), moves);
            && st.w == EndOf(plan, Start(plan, machines), moves)
            && name in plan.deps && name in st.last
            && (Generations(st.w, plan.deps[name]) == st.w.nodes[name].machine.task.seen
                <==> st.last[name].Board? || name !in st.moved)
  {
    hide Inv, Next, Enabled;
    var st0 := Told(plan, machines);
    StartKeeps(plan, machines);
    StoriesKeep(plan, st0, moves);
    FollowsRun(plan, st0, moves);
    var st := Follow(plan, st0, moves);
    assert RestInv(st.w, plan.deps[name], st.w.nodes[name], LastOf(st, name), name in st.moved);
    BlockedSeesNow(plan, st.w, name);
    ViewGenerations(st.w, plan.deps[name]);
  }
}
