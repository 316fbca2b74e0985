/** One supervised node: its machine, and the executor loop that feeds it events
    and does what it asks. Every await point of the loop is a step of its own, so
    whatever other nodes do can happen between any two steps. */
module Supervisor {
  import opened Status
  import opened Lifecycle
  import Ctl

  datatype Machine = Svc(service: Service) | Tsk(task: Task)

  /** What is left of the action being done, when an action takes several steps. */
  datatype Micro =
    | Bump                        // the board's version, after the state write
    | WaitSlot                    // a service waiting for a build slot
    | Publish(status: Status)     // a status a task run sets by itself
    | ReadStamps                  // a task's key is made from what is upstream
    | SeedStamp                   // its own stamp becomes the key
    | StampOutput(out: Option<string>)  // and then what it produced, if anything
    | JobSlot | WaitJobSlot | JobSpawn | JobWait | FreeSlot
    | CheckSpawn(duration: Duration, promised: string)  // a hit run once more, with no slot
    | CheckWait(duration: Duration, promised: string)
    | JobReply(code: int, cached: bool)

  /** A node: its row on the board, and its supervisor's local state. */
  datatype Node = Node(
    status: Status,
    generation: nat,
    machine: Machine,
    taken: Option<Event>,         // an event taken from the loop's sources, not yet decided on
    micro: seq<Micro>,
    acts: seq<Action>,            // the rest of the machine's last answer
    queue: seq<Event>,
    timers: map<Timer, Instant>,
    child: bool,
    slot: bool,
    inbox: Ctl.Inbox,
    exited: bool,
    tick: nat,                    // the board version last marked seen
    view: Deps,                   // the dependencies as the machine last saw them
    // Bookkeeping the program does not have, for stating what a run did.
    stopSent: bool,
    startsSinceStop: nat,         // processes started
    runsSinceStop: nat,           // task runs begun
    exits: nat)
  {
    predicate Idle() {
      taken.None? && micro == [] && acts == [] && !exited
    }

    /** Between the two steps of publishing a status. */
    predicate InFlight() {
      micro != [] && micro[0].Bump?
    }
  }

  function NewNode(machine: Machine, view: Deps): Node {
    Node(Status.Pending, 0, machine, None, [], [], [Begin], map[], false, false, Ctl.EmptyInbox,
         false, 0, view, false, 0, 0, 0)
  }

  // ------------------------------------------------------------------
  // Where the next event comes from

  datatype Source =
    | FromQueue
    | ChildExit(code: int)
    | FromTimer(timer: Timer)
    | BoardTick
    | UrgentMessage
    | NormalMessage
    | SendersGone

  /** The timer `next_event` sleeps for: one that is due first. */
  predicate Due(timers: map<Timer, Instant>, t: Timer, now: Instant) {
    && t in timers
    && timers[t] <= now
    && forall u <- timers :: timers[t] <= timers[u]
  }

  predicate HasChildToWatch(m: Machine) {
    m.Svc? && m.service.HasChild()
  }

  /** Whether the loop may take its next event from `src`. A message of either
      priority may come first: both can arrive while the loop already waits. */
  predicate CanTake(n: Node, src: Source, version: nat, hasDeps: bool, now: Instant) {
    && n.Idle()
    && match src
       case FromQueue => n.queue != []
       case ChildExit(_) => n.queue == [] && n.child && HasChildToWatch(n.machine)
       case FromTimer(t) => n.queue == [] && Due(n.timers, t, now)
       case BoardTick => n.queue == [] && hasDeps && n.tick != version
       case UrgentMessage => n.queue == [] && n.inbox.urgent != []
       case NormalMessage => n.queue == [] && n.inbox.normal != []
       case SendersGone =>
         n.queue == [] && n.inbox.urgent == [] && n.inbox.normal == [] && !n.inbox.senders
  }

  function MessageEvent(m: Ctl.Msg): Event {
    match m
    case Stop => Event.Stop
    case Restart(why) => Event.Restart(Given(why))
  }

  /** The event taken, with the board marked seen at once. */
  function Take(n: Node, src: Source, version: nat): Node
    requires src.FromQueue? ==> n.queue != []
    requires src.UrgentMessage? ==> n.inbox.urgent != []
    requires src.NormalMessage? ==> n.inbox.normal != []
  {
    var m := n.(tick := version);
    match src
    case FromQueue => m.(taken := Some(n.queue[0]), queue := n.queue[1..])
    case ChildExit(code) => m.(taken := Some(Event.Exited(code)), child := false)
    case FromTimer(t) => m.(taken := Some(TimerFired(t)), timers := n.timers - {t})
    case BoardTick => m.(taken := Some(Board))
    case UrgentMessage =>
      m.(taken := Some(MessageEvent(n.inbox.urgent[0])),
         inbox := n.inbox.(urgent := n.inbox.urgent[1..]))
    case NormalMessage =>
      m.(taken := Some(MessageEvent(n.inbox.normal[0])),
         inbox := n.inbox.(normal := n.inbox.normal[1..]))
    case SendersGone => m.(taken := Some(Event.Stop))
  }

  /** The machine decides, on a snapshot of the dependencies. */
  function Decide(n: Node, deps: Deps, now: Instant): Node
    requires n.taken.Some?
  {
    var m := n.(taken := None, view := deps);
    match n.machine
    case Svc(s) =>
      var turn := On(s, n.taken.value, deps, now);
      m.(machine := Svc(turn.next), acts := turn.out)
    case Tsk(t) =>
      var turn := TaskOn(t, n.taken.value, deps);
      m.(machine := Tsk(turn.next), acts := turn.out)
  }

  // ------------------------------------------------------------------
  // Doing what the machine asks

  /** How one run of a task goes, as the cache and the host answer it. A task
      without inputs has no key. */
  datatype JobPlan =
    | CannotStart
    | Hit(duration: Duration, out: Option<string>)
    | Verify(duration: Duration, promised: string)
    | Build(keyed: bool)

  datatype Answer =
    | Nothing
    | Refused(error: string)
    | ProbeSays(result: ProbeResult)
    | CountersSay(counters: ReloadCounters)
    | JobGoes(plan: JobPlan)
    | JobEnds(code: int, shown: Status, out: Option<string>)
    | CheckEnds(held: bool)

  /** The node after one executor step, the free slots, and whether the board ticked. */
  datatype Effect = Effect(node: Node, free: nat, ticked: bool)

  /** The first half of publishing: the state write. The same status again is no
      write, unless it is a result. */
  function Write(n: Node, st: Status, rest: seq<Micro>): Node {
    if n.status == st && !st.IsReady() then n.(micro := rest)
    else
      n.(status := st,
         generation := if st.IsReady() then n.generation + 1 else n.generation,
         micro := [Bump] + rest)
  }

  function JobSteps(plan: JobPlan): seq<Micro> {
    match plan
    case CannotStart => [Publish(Status.Failed(1)), JobReply(1, false)]
    case Hit(d, out) => [ReadStamps, SeedStamp, StampOutput(out), Publish(Status.Done(true, d)), JobReply(0, true)]
    case Verify(d, promised) => [ReadStamps, SeedStamp, CheckSpawn(d, promised)]
    case Build(keyed) =>
      (if keyed then [ReadStamps, SeedStamp] else []) + [JobSlot, Publish(Status.Running), JobSpawn]
  }

  /** A hit that could not be reproduced, or not be checked. */
  const CheckFails: seq<Micro> := [Publish(Status.Failed(1)), JobReply(1, false)]

  /** What a build that ended with `code` may show. */
  predicate JobShows(code: int, result: Status) {
    if code == 0 then result.Done? && !result.cached
    else result == Status.Failed(code) || result == Status.Stopped
  }

  predicate Answers(n: Node, ans: Answer, free: nat) {
    if n.micro != [] then
      match n.micro[0]
      case WaitSlot => free > 0
      case WaitJobSlot => free > 0
      case JobSpawn => ans.Nothing? || ans.Refused?
      case JobWait => ans.JobEnds? && JobShows(ans.code, ans.shown)
      case CheckSpawn(_, _) => ans.Nothing? || ans.Refused?
      case CheckWait(_, _) => ans.CheckEnds?
      case _ => true
    else if n.acts != [] then
      match n.acts[0]
      case Spawn => ans.Nothing? || ans.Refused?
      case Probe(_) => ans.ProbeSays?
      case ReadReloadCounters => ans.CountersSay?
      case RunJob => ans.JobGoes?
      case _ => true
    else false
  }

  predicate CanRun(n: Node, ans: Answer, free: nat) {
    n.taken.None? && !n.exited && Answers(n, ans, free)
  }

  function RunStep(n: Node, ans: Answer, free: nat): (e: Effect)
    requires CanRun(n, ans, free)
    ensures SameMind(n, e.node)
  {
    if n.micro != [] then RunMicro(n, ans, free)
    else RunAction(n.(acts := n.acts[1..]), n.acts[0], ans, free)
  }

  function RunMicro(n: Node, ans: Answer, free: nat): (e: Effect)
    requires n.micro != [] && Answers(n, ans, free)
    ensures SameMind(n, e.node)
  {
    var rest := n.micro[1..];
    var m := n.(micro := rest);
    match n.micro[0]
    case Bump => Effect(m, free, true)
    case ReadStamps => Effect(m, free, false)
    case SeedStamp => Effect(m, free, false)
    case StampOutput(_) => Effect(m, free, false)
    case WaitSlot => Effect(m.(slot := true, queue := n.queue + [SlotAcquired]), free - 1, false)
    case WaitJobSlot => Effect(m.(slot := true), free - 1, false)
    case Publish(st) => Effect(Write(n, st, rest), free, false)
    case JobSlot =>
      if free > 0 then Effect(m.(slot := true), free - 1, false)
      else Effect(Write(n, Status.Queued, [WaitJobSlot] + rest), free, false)
    case JobSpawn =>
      var m1 := m.(startsSinceStop := OneMore(n, n.startsSinceStop));
      if ans.Refused? then
        Effect(m1.(micro := [FreeSlot, Publish(Status.Failed(1)), JobReply(1, false)] + rest), free, false)
      else Effect(m1.(child := true, micro := [JobWait] + rest), free, false)
    case JobWait =>
      // Shown first; only then is the output captured and stamped.
      var captured := if ans.code == 0 then [StampOutput(ans.out)] else [];
      Effect(m.(child := false, micro := [Publish(ans.shown)] + captured + [FreeSlot, JobReply(ans.code, false)] + rest),
             free, false)
    case CheckSpawn(d, promised) =>
      var m1 := m.(startsSinceStop := OneMore(n, n.startsSinceStop));
      if ans.Refused? then Effect(m1.(micro := CheckFails + rest), free, false)
      else Effect(m1.(child := true, micro := [CheckWait(d, promised)] + rest), free, false)
    case CheckWait(d, promised) =>
      var shows :=
        if ans.held then [StampOutput(Some(promised)), Publish(Status.Done(true, d)), JobReply(0, true)]
        else CheckFails;
      Effect(m.(child := false, micro := shows + rest), free, false)
    case FreeSlot => Effect(m.(slot := false), if n.slot then free + 1 else free, false)
    case JobReply(code, cached) => Effect(m.(queue := n.queue + [JobDone(code, cached)]), free, false)
  }

  function OneMore(n: Node, count: nat): nat {
    if n.stopSent then count + 1 else count
  }

  /** Doing what was decided changes no decision. */
  predicate SameMind(n: Node, m: Node) {
    && m.machine == n.machine && m.taken == n.taken && m.view == n.view
    && m.tick == n.tick && m.stopSent == n.stopSent
  }

  predicate IsRequest(a: Action) {
    || a.DrainControl? || a.ReclaimPort? || a.AcquireSlot? || a.Spawn? || a.StopChild?
    || a.Probe? || a.ReadReloadCounters?
  }

  /** One action of the machine's answer, `n` holding the ones after it. */
  function RunAction(n: Node, a: Action, ans: Answer, free: nat): (e: Effect)
    requires a.Probe? ==> ans.ProbeSays?
    requires a.ReadReloadCounters? ==> ans.CountersSay?
    requires a.RunJob? ==> ans.JobGoes?
    ensures SameMind(n, e.node)
  {
    if IsRequest(a) then RunRequest(n, a, ans, free)
    else
      match a
      case SetStatus(st) => Effect(Write(n, st, []), free, false)
      case Fail(_, code) => Effect(Write(n, Status.Failed(code), []), free, false)
      case ReleaseSlot => Effect(n.(slot := false), if n.slot then free + 1 else free, false)
      case SetTimer(t, at) => Effect(n.(timers := n.timers[t := at]), free, false)
      case CancelTimer(t) => Effect(n.(timers := n.timers - {t}), free, false)
      case RunJob =>
        Effect(n.(micro := JobSteps(ans.plan), runsSinceStop := OneMore(n, n.runsSinceStop)), free, false)
      case Exit =>
        Effect(n.(acts := [], slot := false, exited := true, exits := n.exits + 1,
                  inbox := n.inbox.(listening := false)),
               if n.slot then free + 1 else free, false)
      case _ => Effect(n, free, false)
  }

  /** An action that is answered with an event. */
  function RunRequest(n: Node, a: Action, ans: Answer, free: nat): (e: Effect)
    requires IsRequest(a)
    requires a.Probe? ==> ans.ProbeSays?
    requires a.ReadReloadCounters? ==> ans.CountersSay?
    ensures SameMind(n, e.node)
  {
    match a
    case DrainControl =>
      Effect(n.(queue := n.queue + [Drained(n.inbox.StopKnown())], inbox := n.inbox.Drain()), free, false)
    case ReclaimPort(_) => Effect(n.(queue := n.queue + [PortReclaimed]), free, false)
    case AcquireSlot =>
      if free > 0 then Effect(n.(slot := true, queue := n.queue + [SlotAcquired]), free - 1, false)
      else Effect(Write(n, Status.Queued, [WaitSlot]), free, false)
    case Spawn =>
      var m := n.(startsSinceStop := OneMore(n, n.startsSinceStop));
      if ans.Refused? then Effect(m.(queue := n.queue + [SpawnFailed(ans.error)]), free, false)
      else Effect(m.(child := true, queue := n.queue + [Spawned]), free, false)
    case StopChild(_) => Effect(n.(child := false, queue := n.queue + [ChildStopped]), free, false)
    case Probe(p) => Effect(n.(queue := n.queue + [Probed(p, ans.result)]), free, false)
    case ReadReloadCounters => Effect(n.(queue := n.queue + [Counters(ans.counters)]), free, false)
  }

  // ------------------------------------------------------------------
  // What others send

  /** A stop is queued first and announced after. */
  function QueueStop(n: Node): Node {
    n.(inbox := n.inbox.PushStop(), stopSent := true)
  }

  function AnnounceStop(n: Node): Node {
    n.(inbox := n.inbox.MarkStopping())
  }

  function QueueRestart(n: Node, why: string): Node {
    n.(inbox := n.inbox.PushRestart(why))
  }

  function DropSenders(n: Node): Node {
    n.(inbox := n.inbox.(senders := false))
  }
}
