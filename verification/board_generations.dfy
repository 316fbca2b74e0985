/** A service's generation on the board counts the ready results it has said, so
    what is proved of the statuses a machine says holds of the board. */
module BoardGenerations {
  import opened Status
  import opened Lifecycle
  import opened Supervisor
  import opened World
  import opened WorldInvariant
  import opened ReloadFollower
  import SR = ServiceRuns

  /** What a node's generation will be once it has done what it was told. */
  function Owed(n: Node): nat {
    n.generation + Results(Shown(n.acts))
  }

  lemma ShownStep(acts: seq<Action>)
    requires acts != []
    ensures Results(Shown(acts))
         == (if acts[0].SetStatus? && acts[0].status.IsReady() then 1 else 0) + Results(Shown(acts[1..]))
  {
    var first := if acts[0].SetStatus? then [acts[0].status] else [];
    ResultsCat(first, Shown(acts[1..]));
    assert first != [] ==> first[..0] == [];
  }

  lemma DoingOwes(n: Node, ans: Answer, free: nat)
    requires SR.SvcInv(n) && CanRun(n, ans, free)
    ensures Owed(RunStep(n, ans, free).node) == Owed(n)
  {
    hide SR.SvcInv, Results, Shown;
    if n.micro != [] {
      SR.MicroOfService(n);
      WaitingOwes(n, ans, free);
    } else {
      ShownStep(n.acts);
      if n.acts[0].Exit? { ExitIsLast(n); }
      ActionOwes(n.(acts := n.acts[1..]), n.acts[0], ans, free);
    }
  }

  lemma WaitingOwes(n: Node, ans: Answer, free: nat)
    requires n.micro != [] && Answers(n, ans, free) && SR.MicroFits(n.micro)
    ensures var m := RunMicro(n, ans, free).node; m.generation == n.generation && m.acts == n.acts
  {
  }

  lemma ExitIsLast(n: Node)
    requires SR.SvcInv(n) && !n.exited && n.taken.None? && n.acts != [] && n.acts[0].Exit?
    ensures n.acts[1..] == []
  {
    SR.SettledOk(n.machine.service, SR.Total(n));
    SR.NothingAfter(n);
  }

  lemma ActionOwes(n: Node, a: Action, ans: Answer, free: nat)
    requires a.Probe? ==> ans.ProbeSays?
    requires a.ReadReloadCounters? ==> ans.CountersSay?
    requires a.RunJob? ==> ans.JobGoes?
    requires a.Exit? ==> n.acts == []
    ensures var m := RunAction(n, a, ans, free).node;
            && m.acts == n.acts
            && m.generation == n.generation + (if a.SetStatus? && a.status.IsReady() then 1 else 0)
  {
    hide RunRequest;
    if IsRequest(a) { RequestOwes(n, a, ans, free); }
  }

  lemma RequestOwes(n: Node, a: Action, ans: Answer, free: nat)
    requires IsRequest(a)
    requires a.Probe? ==> ans.ProbeSays?
    requires a.ReadReloadCounters? ==> ans.CountersSay?
    ensures var m := RunRequest(n, a, ans, free).node; m.acts == n.acts && m.generation == n.generation
  {
  }

  /** What one move has a service say. */
  function SaidIn(plan: Plan, w: World, mv: Move, name: Name): seq<Status>
    requires Enabled(plan, w, mv)
  {
    if mv == DecideOn(name) then Shown(Next(plan, w, mv).nodes[name].acts) else []
  }

  /** Every status a service says in a run, in order. */
  function Said(plan: Plan, w: World, moves: seq<Move>, name: Name): seq<Status>
    requires Legal(plan, w, moves)
    decreases |moves|
  {
    if moves == [] then []
    else SaidIn(plan, w, moves[0], name) + Said(plan, Next(plan, w, moves[0]), moves[1..], name)
  }

  lemma MoveOwes(plan: Plan, w: World, mv: Move, name: Name)
    requires Inv(plan, w) && Enabled(plan, w, mv) && name in w.nodes && w.nodes[name].machine.Svc?
    ensures var w1 := Next(plan, w, mv);
            && name in w1.nodes && w1.nodes[name].machine.Svc?
            && Owed(w1.nodes[name]) == Owed(w.nodes[name]) + Results(SaidIn(plan, w, mv, name))
  {
    hide Inv, SR.SvcInv, SR.StopInv, Results, RunStep, On;
    LocalAt(plan, w, name);
    TickOf(w.nodes[name], plan.deps[name], w.version);
    NothingSaid();
    var n := w.nodes[name];
    match mv
    case TakeEvent(node, src) => TakeFrame(w.nodes[node], src, w.version, plan.deps[node] != [], w.clock);
    case DecideOn(node) => if node == name { IdleOwes(n); }
    case DoNext(node, ans) => if node == name { DoingOwes(n, ans, w.free); }
    case _ =>
  }

  lemma NothingSaid()
    ensures Results(Shown([])) == 0 && Results([]) == 0
  {
  }

  lemma IdleOwes(n: Node)
    requires SR.SvcInv(n) && n.taken.Some?
    ensures n.acts == []
  {
  }

  lemma {:induction false} RunOwes(plan: Plan, w: World, moves: seq<Move>, name: Name)
    requires Inv(plan, w) && Legal(plan, w, moves) && name in w.nodes && w.nodes[name].machine.Svc?
    ensures var w1 := EndOf(plan, w, moves);
            name in w1.nodes && Owed(w1.nodes[name]) == Owed(w.nodes[name]) + Results(Said(plan, w, moves, name))
    decreases |moves|
  {
    hide Inv, Next, Enabled, Owed, SaidIn, Results;
    if moves == [] {
      NothingSaid();
    } else {
      var w1 := Next(plan, w, moves[0]);
      NextKeeps(plan, w, moves[0]);
      MoveOwes(plan, w, moves[0], name);
      RunOwes(plan, w1, moves[1..], name);
      ResultsCat(SaidIn(plan, w, moves[0], name), Said(plan, w1, moves[1..], name));
    }
  }

  /** In every session: a service that has done what it was told stands at the
      generation counted by the ready results it has said, each of them once. */
  lemma GenerationCountsResults(plan: Plan, machines: map<Name, Machine>, moves: seq<Move>, name: Name)
    requires machines.Keys == plan.deps.Keys && plan.Closed()
    requires forall n <- machines :: Initial(machines[n])
    requires Legal(plan, Start(plan, machines), moves)
    requires name in machines && machines[name].Svc?
    ensures var w := EndOf(plan, Start(plan, machines), moves);
            && name in w.nodes
            && (w.nodes[name].acts == [] ==>
                  w.nodes[name].generation == Results(Said(plan, Start(plan, machines), moves, name)))
  {
    hide Inv, Results, Next, Enabled, Said;
    StartKeeps(plan, machines);
    NothingSaid();
    RunOwes(plan, Start(plan, machines), moves, name);
  }
}
