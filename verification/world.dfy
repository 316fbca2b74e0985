/** Supervisors side by side: the board they read, the pool they share, and every
    way their steps can interleave. */
module World {
  import opened Status
  import opened Lifecycle
  import opened Supervisor

  /** What is fixed for a session: who depends on whom, and how many may build at once. */
  datatype Plan = Plan(deps: map<Name, seq<Name>>, concurrency: nat)
  {
    /** Every dependency is in the plan. */
    predicate Closed() {
      forall n <- deps :: forall d <- deps[n] :: d in deps
    }
  }

  /** Ceiling on the inferred build parallelism. */
  const MAX_INFERRED: nat := 8

  /** Resolved build parallelism; `cores` is what the machine reports, if it does. */
  function Concurrency(configured: Option<nat>, cores: Option<nat>): (n: nat)
    requires cores.Some? ==> cores.value >= 1
    ensures n >= 1
    ensures configured.Some? && configured.value > 0 ==> n == configured.value
    ensures configured.None? || configured.value == 0 ==> n <= 8 && (cores.Some? ==> n <= cores.value)
  {
    if configured.Some? && configured.value > 0 then configured.value
    else Min(if cores.Some? then cores.value else 4, MAX_INFERRED)
  }

  datatype World = World(nodes: map<Name, Node>, version: nat, free: nat, clock: Instant)

  predicate Ready(w: World, n: Name) {
    n in w.nodes && w.nodes[n].status.IsReady()
  }

  function GenerationOf(w: World, n: Name): nat {
    if n in w.nodes then w.nodes[n].generation else 0
  }

  function FirstUnready(w: World, names: seq<Name>): (d: Option<Name>)
    ensures d.None? <==> forall n <- names :: Ready(w, n)
    ensures d.Some? ==> d.value in names && !Ready(w, d.value)
  {
    if names == [] then None
    else if !Ready(w, names[0]) then Some(names[0])
    else FirstUnready(w, names[1..])
  }

  /** The snapshot the board would give of these names. */
  function DepView(w: World, names: seq<Name>): Deps {
    Deps(FirstUnready(w, names), seq(|names|, i requires 0 <= i < |names| => GenerationOf(w, names[i])), names)
  }

  function StartView(names: seq<Name>): Deps {
    Deps(if names == [] then None else Some(names[0]), seq(|names|, i => 0), names)
  }

  function Start(plan: Plan, machines: map<Name, Machine>): World
    requires machines.Keys == plan.deps.Keys
  {
    World(map n | n in plan.deps :: NewNode(machines[n], StartView(plan.deps[n])), 0, plan.concurrency, 0)
  }

  // ------------------------------------------------------------------
  // Moves

  datatype Move =
    | TakeEvent(node: Name, src: Source)
    | DecideOn(node: Name)
    | DoNext(node: Name, ans: Answer)
    | QueueStopTo(node: Name)
    | AnnounceStopTo(node: Name)
    | RestartOf(node: Name, why: string)
    | ForgetSenders(node: Name)
    | PassTime(passed: Duration)

  predicate Enabled(plan: Plan, w: World, mv: Move) {
    if mv.PassTime? then true
    else
      && mv.node in w.nodes && mv.node in plan.deps
      && var n := w.nodes[mv.node];
         match mv
         case TakeEvent(_, src) => CanTake(n, src, w.version, plan.deps[mv.node] != [], w.clock)
         case DecideOn(_) => n.taken.Some?
         case DoNext(_, ans) => CanRun(n, ans, w.free)
         case AnnounceStopTo(_) => n.stopSent
         case _ => true
  }

  function Put(w: World, name: Name, n: Node): World {
    w.(nodes := w.nodes[name := n])
  }

  function Next(plan: Plan, w: World, mv: Move): World
    requires Enabled(plan, w, mv)
  {
    match mv
    case TakeEvent(name, src) => Put(w, name, Take(w.nodes[name], src, w.version))
    case DecideOn(name) => Put(w, name, Decide(w.nodes[name], DepView(w, plan.deps[name]), w.clock))
    case DoNext(name, ans) =>
      var e := RunStep(w.nodes[name], ans, w.free);
      Put(w, name, e.node).(free := e.free, version := if e.ticked then w.version + 1 else w.version)
    case QueueStopTo(name) => Put(w, name, QueueStop(w.nodes[name]))
    case AnnounceStopTo(name) => Put(w, name, AnnounceStop(w.nodes[name]))
    case RestartOf(name, why) => Put(w, name, QueueRestart(w.nodes[name], why))
    case ForgetSenders(name) => Put(w, name, DropSenders(w.nodes[name]))
    case PassTime(passed) => w.(clock := w.clock + passed)
  }

  predicate Legal(plan: Plan, w: World, moves: seq<Move>)
    decreases |moves|
  {
    moves == [] || (Enabled(plan, w, moves[0]) && Legal(plan, Next(plan, w, moves[0]), moves[1..]))
  }

  /** The world after a run. */
  function EndOf(plan: Plan, w: World, moves: seq<Move>): World
    requires Legal(plan, w, moves)
    decreases |moves|
  {
    if moves == [] then w else EndOf(plan, Next(plan, w, moves[0]), moves[1..])
  }
}
