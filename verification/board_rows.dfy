/** A node's row on the board, over every session: the status it published last, and
    as many generations as it published results. */
module BoardRows {
  import opened Status
  import opened Lifecycle
  import opened Supervisor
  import opened World
  import T = TimersKept

  /** What a step of an executor publishes: a status its machine asks for, one of a
      run's own, or that it waits for a slot. */
  function Publishes(n: Node, free: nat): Option<Status> {
    if n.micro != [] then
      match n.micro[0]
      case Publish(st) => Some(st)
      case JobSlot => if free == 0 then Some(Status.Queued) else None
      case _ => None
    else if n.acts != [] then
      match n.acts[0]
      case SetStatus(st) => Some(st)
      case Fail(_, code) => Some(Status.Failed(code))
      case AcquireSlot => if free == 0 then Some(Status.Queued) else None
      case _ => None
    else None
  }

  /** A row: what it shows, and the results it has shown. */
  datatype Row = Row(status: Status, results: nat)

  function After(row: Row, w: World, mv: Move, name: Name): Row
    requires name in w.nodes
  {
    if !mv.DoNext? || mv.node != name then row
    else
      match Publishes(w.nodes[name], w.free)
      case None => row
      case Some(st) => Row(st, if st.IsReady() then row.results + 1 else row.results)
  }

  function RowOf(plan: Plan, w: World, moves: seq<Move>, name: Name, row: Row): Row
    requires Legal(plan, w, moves) && name in w.nodes
    decreases |moves|
  {
    if moves == [] then row
    else
      T.NamesStay(plan, w, moves[0], name);
      RowOf(plan, Next(plan, w, moves[0]), moves[1..], name, After(row, w, moves[0], name))
  }

  predicate Fits(n: Node, row: Row) {
    n.status == row.status && n.generation == row.results
  }

  lemma MicroRow(n: Node, ans: Answer, free: nat)
    requires n.micro != [] && Answers(n, ans, free)
    ensures var m := RunMicro(n, ans, free).node;
            match Publishes(n, free)
            case None => m.status == n.status && m.generation == n.generation
            case Some(st) => m.status == st && m.generation == n.generation + (if st.IsReady() then 1 else 0)
  {
  }

  lemma RequestRow(n: Node, a: Action, ans: Answer, free: nat)
    requires IsRequest(a)
    requires a.Probe? ==> ans.ProbeSays?
    requires a.ReadReloadCounters? ==> ans.CountersSay?
    ensures var m := RunRequest(n, a, ans, free).node;
            && m.status == (if a.AcquireSlot? && free == 0 then Status.Queued else n.status)
            && m.generation == n.generation
  {
  }

  lemma PlainRow(n: Node, a: Action, ans: Answer, free: nat)
    requires !IsRequest(a) && (a.RunJob? ==> ans.JobGoes?)
    ensures var m := RunAction(n, a, ans, free).node;
            var said := if a.SetStatus? then Some(a.status) else if a.Fail? then Some(Status.Failed(a.code)) else None;
            match said
            case None => m.status == n.status && m.generation == n.generation
            case Some(st) => m.status == st && m.generation == n.generation + (if st.IsReady() then 1 else 0)
  {
  }

  lemma ActionRow(n: Node, ans: Answer, free: nat)
    requires n.micro == [] && n.acts != [] && Answers(n, ans, free)
    ensures var m := RunAction(n.(acts := n.acts[1..]), n.acts[0], ans, free).node;
            match Publishes(n, free)
            case None => m.status == n.status && m.generation == n.generation
            case Some(st) => m.status == st && m.generation == n.generation + (if st.IsReady() then 1 else 0)
  {
    hide RunRequest;
    var a, rest := n.acts[0], n.(acts := n.acts[1..]);
    if IsRequest(a) {
      RequestRow(rest, a, ans, free);
    } else {
      PlainRow(rest, a, ans, free);
      hide RunAction;
    }
  }

  lemma StepRow(n: Node, ans: Answer, free: nat)
    requires CanRun(n, ans, free)
    ensures var m := RunStep(n, ans, free).node;
            match Publishes(n, free)
            case None => m.status == n.status && m.generation == n.generation
            case Some(st) => m.status == st && m.generation == n.generation + (if st.IsReady() then 1 else 0)
  {
    hide RunMicro, RunAction, Publishes;
    if n.micro != [] { MicroRow(n, ans, free); } else { ActionRow(n, ans, free); }
  }

  /** No other move writes a row. */
  lemma OthersKeep(plan: Plan, w: World, mv: Move, name: Name)
    requires Enabled(plan, w, mv) && name in w.nodes && !(mv.DoNext? && mv.node == name)
    ensures name in Next(plan, w, mv).nodes
    ensures var n, m := w.nodes[name], Next(plan, w, mv).nodes[name];
            m.status == n.status && m.generation == n.generation
  {
    hide On, TaskOn, DepView, CanTake, CanRun, RunStep;
  }

  lemma MoveKeeps(plan: Plan, w: World, mv: Move, name: Name, row: Row)
    requires Enabled(plan, w, mv) && name in w.nodes && Fits(w.nodes[name], row)
    ensures name in Next(plan, w, mv).nodes
    ensures Fits(Next(plan, w, mv).nodes[name], After(row, w, mv, name))
  {
    T.NamesStay(plan, w, mv, name);
    hide RunStep, Publishes, Take, Decide, CanTake;
    if mv.DoNext? && mv.node == name {
      StepRow(w.nodes[name], mv.ans, w.free);
    } else {
      OthersKeep(plan, w, mv, name);
      hide Next;
    }
  }

  lemma {:induction false} RunsKeep(plan: Plan, w: World, moves: seq<Move>, name: Name, row: Row)
    requires Legal(plan, w, moves) && name in w.nodes && Fits(w.nodes[name], row)
    ensures name in EndOf(plan, w, moves).nodes
    ensures Fits(EndOf(plan, w, moves).nodes[name], RowOf(plan, w, moves, name, row))
    decreases |moves|
  {
    hide Next, Enabled, Fits, After;
    if moves != [] {
      MoveKeeps(plan, w, moves[0], name, row);
      RunsKeep(plan, Next(plan, w, moves[0]), moves[1..], name, After(row, w, moves[0], name));
    }
  }

  /** In every session, of a service or a task: its row shows what was published last,
      `Pending` before anything was, and its generation counts the results. */
  lemma RowIsWhatWasPublished(plan: Plan, machines: map<Name, Machine>, moves: seq<Move>, name: Name)
    requires machines.Keys == plan.deps.Keys && name in machines
    requires Legal(plan, Start(plan, machines), moves)
    ensures var w := EndOf(plan, Start(plan, machines), moves);
            var row := RowOf(plan, Start(plan, machines), moves, name, Row(Status.Pending, 0));
            name in w.nodes && w.nodes[name].status == row.status && w.nodes[name].generation == row.results
  {
    var w0 := Start(plan, machines);
    assert Fits(w0.nodes[name], Row(Status.Pending, 0));
    hide Next, Enabled, Legal, RowOf;
    RunsKeep(plan, w0, moves, name, Row(Status.Pending, 0));
  }
}
