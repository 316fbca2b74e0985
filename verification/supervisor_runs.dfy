/** The service invariant over whole runs, and what it means for a caller: one
    child, one reply, exact timers, a bounded hold on slots, and a stop that
    cannot be lost or outrun. */
module ServiceRuns {
  import opened Status
  import opened Lifecycle
  import opened Supervisor
  import opened SupervisorInvariant

  function RepliesIn(queue: seq<Event>): Awaited {
    if |queue| == 0 then Nobody else if |queue| == 1 then ReplyOf(queue[0]) else Several
  }

  /** What a node holds right now, as the invariant counts it. */
  function Base(n: Node): Sum {
    var waiting := WaitSlot in n.micro;
    Sum(n.status, TimersIn(n.timers), n.slot, n.child,
        RepliesIn(n.queue).And(if waiting then For(RSlotAsked) else Nobody),
        waiting, true, false)
  }

  /** What a node will hold once the actions asked for are done. */
  function Total(n: Node): Sum {
    AbsorbAll(Base(n), n.acts)
  }

  predicate MicroFits(micro: seq<Micro>) {
    || micro == []
    || (|micro| == 1 && (micro[0].Bump? || micro[0].WaitSlot?))
    || (|micro| == 2 && micro[0].Bump? && micro[1].WaitSlot?)
  }

  predicate SvcInv(n: Node) {
    && n.machine.Svc?
    && n.inbox.Valid()
    && MicroFits(n.micro)
    && (|n.queue| == 1 ==> !ReplyOf(n.queue[0]).Nobody?)
    && n.exits == (if n.exited then 1 else 0)
    && (n.inbox.listening <==> !n.exited)
    && var s := n.machine.service;
       if n.exited then
         && s.phase.Finished? && n.taken.None? && n.acts == [] && n.micro == [] && n.queue == []
         && !n.child && !n.slot && TimersIn(n.timers) == NoTimers
         && (s.cfg.hasCmd ==> !n.status.IsReady())
       else if n.taken.Some? then
         n.micro == [] && n.acts == [] && n.queue == [] && TakenFits(s, Base(n), n.taken.value)
       else
         Settled(s, Total(n))
  }

  // ------------------------------------------------------------------
  // Every step keeps it

  lemma NewKeeps(cfg: ServiceConfig, view: Deps)
    requires cfg.Valid()
    ensures SvcInv(NewNode(Svc(NewService(cfg)), view))
  {
  }

  lemma TakeQueuedKeeps(n: Node, version: nat)
    requires SvcInv(n) && n.Idle() && n.queue != []
    ensures SvcInv(Take(n, FromQueue, version))
  {
    hide Settled, AbsorbAll;
    AbsorbNone(Base(n));
    AtMostOne(n);
    var m := Take(n, FromQueue, version);
    assert Base(m) == Base(n).(replies := Nobody);
    assert Base(m).(replies := ReplyOf(n.queue[0])) == Base(n);
  }

  lemma AtMostOne(n: Node)
    requires SvcInv(n) && n.Idle()
    ensures |n.queue| <= 1
  {
    hide AbsorbAll;
    AbsorbNone(Base(n));
  }

  lemma TakeTimerKeeps(n: Node, t: Timer, version: nat)
    requires SvcInv(n) && n.Idle() && n.queue == [] && t in n.timers
    ensures SvcInv(Take(n, FromTimer(t), version))
  {
    hide Settled, AbsorbAll;
    AbsorbNone(Base(n));
    var m := Take(n, FromTimer(t), version);
    assert TimersIn(m.timers) == TimersIn(n.timers).Set(t, false);
    assert Base(m).(timers := Base(m).timers.Set(t, true)) == Base(n);
  }

  lemma TakeKeeps(n: Node, src: Source, version: nat, hasDeps: bool, now: Instant)
    requires SvcInv(n) && CanTake(n, src, version, hasDeps, now)
    ensures SvcInv(Take(n, src, version))
  {
    hide Settled, AbsorbAll;
    AbsorbNone(Base(n));
    var m := Take(n, src, version);
    match src
    case FromQueue => TakeQueuedKeeps(n, version);
    case FromTimer(t) => TakeTimerKeeps(n, t, version);
    case ChildExit(_) =>
      assert Base(m).(child := true) == Base(n);
    case UrgentMessage =>
      assert n.inbox.urgent[0] in n.inbox.urgent;
      assert Base(m) == Base(n);
    case NormalMessage =>
      assert n.inbox.normal[0] in n.inbox.normal;
      assert Base(m) == Base(n);
    case _ =>
      assert Base(m) == Base(n);
  }

  lemma DecideKeeps(n: Node, deps: Deps, now: Instant)
    requires SvcInv(n) && n.taken.Some?
    ensures SvcInv(Decide(n, deps, now))
  {
    hide Settled, On, TakenFits;
    var m := Decide(n, deps, now);
    assert Base(m) == Base(n);
    EveryTurnLands(n.machine.service, n.taken.value, deps, now, Base(n));
  }

  /** Nothing may follow an action that ends an answer. */
  lemma NothingAfter(n: Node)
    requires n.acts != [] && Total(n).ok && Absorb(Base(n), n.acts[0]).closed
    ensures n.acts[1..] == [] && Total(n) == Absorb(Base(n), n.acts[0])
  {
    AbsorbKeeps(Absorb(Base(n), n.acts[0]), n.acts[1..]);
  }

  /** An action whose whole effect is on what the node holds. */
  lemma PlainActionKeeps(n: Node, m: Node)
    requires SvcInv(n) && !n.exited && n.taken.None? && n.micro == [] && n.acts != []
    requires m.machine == n.machine && m.taken.None? && !m.exited && m.exits == n.exits
    requires m.inbox.Valid() && m.inbox.listening && (m.micro == [] || (|m.micro| == 1 && m.micro[0].Bump?))
    requires m.acts == n.acts[1..]
    requires |m.queue| == 1 ==> !ReplyOf(m.queue[0]).Nobody?
    requires Base(m) == Absorb(Base(n), n.acts[0])
    ensures SvcInv(m)
  {
    hide Settled, Absorb;
    assert Total(m) == Total(n);
  }

  /** An action that ends an answer: the node then holds what it leaves. */
  lemma ClosingActionKeeps(n: Node, m: Node)
    requires SvcInv(n) && !n.exited && n.taken.None? && n.micro == [] && n.acts != []
    requires m.machine == n.machine && m.taken.None? && !m.exited && m.exits == n.exits
    requires m.inbox.Valid() && m.inbox.listening && MicroFits(m.micro)
    requires m.acts == n.acts[1..]
    requires |m.queue| == 1 ==> !ReplyOf(m.queue[0]).Nobody?
    requires Absorb(Base(n), n.acts[0]).closed
    requires Settled(n.machine.service, Absorb(Base(n), n.acts[0])) ==> Settled(m.machine.service, Base(m))
    ensures SvcInv(m)
  {
    hide Settled, Absorb;
    SettledOk(n.machine.service, Total(n));
    NothingAfter(n);
    AbsorbNone(Base(m));
  }

  lemma SettledOk(s: Service, x: Sum)
    requires Settled(s, x)
    ensures x.ok && !x.replies.Several?
  {
  }

  /** What an action adds to the replies does not depend on those before it. */
  lemma RepliesAdd(x: Sum, a: Action)
    ensures Absorb(x, a).replies == x.replies.And(Absorb(x.(replies := Nobody), a).replies)
  {
    match a
    case DrainControl =>
    case ReclaimPort(_) =>
    case AcquireSlot =>
    case Spawn =>
    case StopChild(_) =>
    case Probe(_) =>
    case ReadReloadCounters =>
    case RunJob =>
    case _ =>
  }

  lemma TwoAreSeveral(x: Sum, a: Action)
    requires !x.replies.Nobody? && !Absorb(x.(replies := Nobody), a).replies.Nobody?
    ensures Absorb(x, a).replies.Several?
  {
    hide Absorb;
    RepliesAdd(x, a);
  }

  /** While actions that ask for a reply are left, none is in the queue. */
  lemma QueueEmptyBefore(n: Node)
    requires SvcInv(n) && !n.exited && n.taken.None? && n.acts != []
    requires !Absorb(Base(n).(replies := Nobody), n.acts[0]).replies.Nobody?
    ensures n.queue == []
  {
    hide Absorb, Settled;
    SettledOk(n.machine.service, Total(n));
    AbsorbKeeps(Absorb(Base(n), n.acts[0]), n.acts[1..]);
    if n.queue != [] { TwoAreSeveral(Base(n), n.acts[0]); }
  }

  lemma RunDrainKeeps(n: Node, ans: Answer, free: nat)
    requires SvcInv(n) && CanRun(n, ans, free) && n.micro == [] && n.acts != [] && n.acts[0].DrainControl?
    ensures SvcInv(RunStep(n, ans, free).node)
  {
    hide AbsorbAll;
    RequestEmpties(n);
    ClosingActionKeeps(n, RunStep(n, ans, free).node);
  }

  lemma RunPortKeeps(n: Node, ans: Answer, free: nat)
    requires SvcInv(n) && CanRun(n, ans, free) && n.micro == [] && n.acts != [] && n.acts[0].ReclaimPort?
    ensures SvcInv(RunStep(n, ans, free).node)
  {
    hide AbsorbAll;
    RequestEmpties(n);
    ClosingActionKeeps(n, RunStep(n, ans, free).node);
  }

  lemma QueuedLands(n: Node, m: Node, free: nat)
    requires SvcInv(n) && CanRun(n, Nothing, free) && n.micro == [] && n.acts != [] && n.acts[0].AcquireSlot?
    requires free == 0 && n.queue == [] && m == RunStep(n, Nothing, free).node
    ensures SvcInv(m)
  {
    hide AbsorbAll;
    assert m.micro == [WaitSlot] || m.micro == [Bump, WaitSlot];
    assert WaitSlot in m.micro && WaitSlot !in n.micro;
    ClosingActionKeeps(n, m);
  }

  lemma RunAcquireKeeps(n: Node, ans: Answer, free: nat)
    requires SvcInv(n) && CanRun(n, ans, free) && n.micro == [] && n.acts != [] && n.acts[0].AcquireSlot?
    ensures SvcInv(RunStep(n, ans, free).node)
  {
    hide AbsorbAll;
    RequestEmpties(n);
    var m := RunStep(n, ans, free).node;
    if free == 0 {
      QueuedLands(n, m, free);
    } else {
      ClosingActionKeeps(n, m);
    }
  }

  lemma RunSpawnKeeps(n: Node, ans: Answer, free: nat)
    requires SvcInv(n) && CanRun(n, ans, free) && n.micro == [] && n.acts != [] && n.acts[0].Spawn?
    ensures SvcInv(RunStep(n, ans, free).node)
  {
    hide AbsorbAll;
    RequestEmpties(n);
    ClosingActionKeeps(n, RunStep(n, ans, free).node);
  }

  lemma RunStopChildKeeps(n: Node, ans: Answer, free: nat)
    requires SvcInv(n) && CanRun(n, ans, free) && n.micro == [] && n.acts != [] && n.acts[0].StopChild?
    ensures SvcInv(RunStep(n, ans, free).node)
  {
    hide AbsorbAll;
    QueueEmptyBefore(n);
    ClosingActionKeeps(n, RunStep(n, ans, free).node);
  }

  lemma RunPublishKeeps(n: Node, ans: Answer, free: nat)
    requires SvcInv(n) && CanRun(n, ans, free) && n.micro == [] && n.acts != []
    requires n.acts[0].SetStatus? || n.acts[0].Fail?
    ensures SvcInv(RunStep(n, ans, free).node)
  {
    hide AbsorbAll, Settled;
    var m := RunStep(n, ans, free).node;
    assert WaitSlot !in n.micro && WaitSlot !in m.micro;
    PlainActionKeeps(n, m);
  }

  lemma RunAskKeeps(n: Node, ans: Answer, free: nat)
    requires SvcInv(n) && CanRun(n, ans, free) && n.micro == [] && n.acts != []
    requires n.acts[0].Probe? || n.acts[0].ReadReloadCounters?
    ensures SvcInv(RunStep(n, ans, free).node)
  {
    hide AbsorbAll, Settled;
    QueueEmptyBefore(n);
    PlainActionKeeps(n, RunStep(n, ans, free).node);
  }

  lemma RunQuietKeeps(n: Node, ans: Answer, free: nat)
    requires SvcInv(n) && CanRun(n, ans, free) && n.micro == [] && n.acts != []
    requires var a := n.acts[0];
             || a.SetReason? || a.Log? || a.CountRestart? || a.Signal? || a.ReloadBrowser?
             || a.ReleaseSlot? || a.SetTimer? || a.CancelTimer?
    ensures SvcInv(RunStep(n, ans, free).node)
  {
    hide AbsorbAll, Settled;
    PlainActionKeeps(n, RunStep(n, ans, free).node);
  }

  /** A service is never asked to run a job, so the executor's dead branch is dead. */
  lemma NoJobs(n: Node)
    requires SvcInv(n) && !n.exited && n.taken.None? && n.acts != []
    ensures !n.acts[0].RunJob?
  {
    if n.acts[0].RunJob? {
      SettledOk(n.machine.service, Total(n));
      NothingAfter(n);
    }
  }

  lemma ExitKeeps(n: Node, ans: Answer, free: nat)
    requires SvcInv(n) && CanRun(n, ans, free) && n.micro == [] && n.acts != [] && n.acts[0].Exit?
    ensures SvcInv(RunStep(n, ans, free).node)
  {
    SettledOk(n.machine.service, Total(n));
    NothingAfter(n);
  }

  lemma RunMicroKeeps(n: Node, ans: Answer, free: nat)
    requires SvcInv(n) && CanRun(n, ans, free) && n.micro != []
    ensures SvcInv(RunStep(n, ans, free).node)
  {
    var m := RunStep(n, ans, free).node;
    if n.micro[0].Bump? {
      assert (WaitSlot in n.micro) == (WaitSlot in m.micro);
      assert Base(m) == Base(n);
    } else {
      assert |n.micro| == 1 && n.micro[0].WaitSlot?;
      SettledOk(n.machine.service, Total(n));
      AbsorbKeeps(Base(n), n.acts);
      AbsorbNone(Base(n));
      AbsorbNone(Base(m));
    }
  }

  /** The supervisor's invariant survives every executor step. */
  lemma RunKeeps(n: Node, ans: Answer, free: nat)
    requires SvcInv(n) && CanRun(n, ans, free)
    ensures SvcInv(RunStep(n, ans, free).node)
  {
    hide SvcInv, RunStep;
    if n.micro != [] {
      RunMicroKeeps(n, ans, free);
    } else {
      NoJobs(n);
      match n.acts[0]
      case Exit => ExitKeeps(n, ans, free);
      case DrainControl => RunDrainKeeps(n, ans, free);
      case ReclaimPort(_) => RunPortKeeps(n, ans, free);
      case AcquireSlot => RunAcquireKeeps(n, ans, free);
      case Spawn => RunSpawnKeeps(n, ans, free);
      case StopChild(_) => RunStopChildKeeps(n, ans, free);
      case SetStatus(_) => RunPublishKeeps(n, ans, free);
      case Fail(_, _) => RunPublishKeeps(n, ans, free);
      case Probe(_) => RunAskKeeps(n, ans, free);
      case ReadReloadCounters => RunAskKeeps(n, ans, free);
      case _ => RunQuietKeeps(n, ans, free);
    }
  }

  /** What others send changes only what is queued. */
  lemma SendKeeps(n: Node, why: string)
    requires SvcInv(n)
    ensures SvcInv(QueueStop(n)) && SvcInv(AnnounceStop(n)) && SvcInv(QueueRestart(n, why)) && SvcInv(DropSenders(n))
  {
    hide Settled, TakenFits;
    assert Base(QueueStop(n)) == Base(n) && Base(AnnounceStop(n)) == Base(n);
    assert Base(QueueRestart(n, why)) == Base(n) && Base(DropSenders(n)) == Base(n);
  }

  // ------------------------------------------------------------------
  // What it means

  /** One child at a time: a process is only ever started when none is held. */
  lemma OneChild(n: Node, ans: Answer, free: nat)
    requires SvcInv(n) && CanRun(n, ans, free) && n.micro == [] && n.acts[0].Spawn?
    ensures !n.child && n.acts == [Spawn] && n.machine.service.phase.Spawning?
  {
    hide AbsorbAll;
    SettledOk(n.machine.service, Total(n));
    NothingAfter(n);
  }

  /** At rest, a supervisor holds exactly what its phase calls for. */
  lemma AtRest(n: Node)
    requires SvcInv(n) && n.Idle() && n.queue == []
    ensures var s := n.machine.service;
            && TimersIn(n.timers) == Armed(s, Nobody)
            && (n.child <==> s.HasChild())
            && (n.slot <==> s.phase.InStartup?)
            && (s.cfg.hasCmd && n.status.IsReady() ==> s.phase.InService?)
            && (s.phase.InStartup? ==> n.status == Status.Starting)
            && (|| s.phase == AtGate(WaitingOnDeps) || s.phase.InStartup? || s.phase.InService?
                || s.phase.BackingOff? || s.phase.Parked? || s.phase.Served?)
  {
    hide AbsorbAll;
    AbsorbNone(Base(n));
  }

  /** At most one reply is outstanding, and a reply is always taken before anything else. */
  lemma OneReply(n: Node)
    requires SvcInv(n)
    ensures |n.queue| <= 1
    ensures n.queue != [] ==> n.taken.None? && WaitSlot !in n.micro
    ensures n.queue != [] && n.acts != [] ==>
              Absorb(Base(n).(replies := Nobody), n.acts[0]).replies.Nobody?
  {
    hide AbsorbAll, Settled, Absorb;
    if !n.exited && n.taken.None? {
      SettledOk(n.machine.service, Total(n));
      AbsorbKeeps(Base(n), n.acts);
      if n.acts != [] && n.queue != [] {
        if !Absorb(Base(n).(replies := Nobody), n.acts[0]).replies.Nobody? { QueueEmptyBefore(n); }
      }
    }
  }

  lemma {:induction false} SlotGone(x: Sum, acts: seq<Action>)
    requires x.slot && !AbsorbAll(x, acts).slot
    ensures ReleaseSlot in acts || Exit in acts
    decreases |acts|
  {
    if acts[0] != ReleaseSlot && acts[0] != Exit {
      assert Absorb(x, acts[0]).slot by { OthersKeepSlot(x, acts[0]); }
      SlotGone(Absorb(x, acts[0]), acts[1..]);
    }
  }

  lemma OthersKeepSlot(x: Sum, a: Action)
    requires x.slot && a != ReleaseSlot && a != Exit
    ensures Absorb(x, a).slot
  {
  }

  /** A slot is held only from acquiring it to the end of startup, or while stopping for good. */
  lemma SlotOnlyWhileStarting(n: Node)
    requires SvcInv(n) && n.slot
    ensures var ph := n.machine.service.phase;
            || ph.AwaitingSlot? || ph.Spawning? || ph.InStartup? || ph == Ending(ThenExit)
            || ReleaseSlot in n.acts || Exit in n.acts
  {
    hide AbsorbAll;
    if n.taken.None? && !n.exited && !Total(n).slot {
      SlotGone(Base(n), n.acts);
    }
  }

  predicate Publishes(a: Action) {
    a.SetStatus? || a.Fail?
  }

  lemma {:induction false} StatusKept(x: Sum, acts: seq<Action>)
    requires forall a <- acts :: !Publishes(a)
    ensures AbsorbAll(x, acts).status == x.status
    decreases |acts|
  {
    if acts != [] {
      assert !Publishes(acts[0]);
      OthersKeepStatus(x, acts[0]);
      StatusKept(Absorb(x, acts[0]), acts[1..]);
    }
  }

  lemma OthersKeepStatus(x: Sum, a: Action)
    requires !Publishes(a)
    ensures Absorb(x, a).status == x.status
  {
  }

  /** A command service reads as ready only while it runs, or until the write
      already decided on is made. */
  lemma ReadyOnlyInService(n: Node)
    requires SvcInv(n) && n.machine.service.cfg.hasCmd && n.status.IsReady()
    ensures n.machine.service.phase.InService? || exists a <- n.acts :: Publishes(a)
  {
    hide AbsorbAll;
    if n.taken.None? && !n.exited && forall a <- n.acts :: !Publishes(a) {
      StatusKept(Base(n), n.acts);
    }
  }

  /** An ended supervisor left nothing behind, and ended once. */
  lemma EndsClean(n: Node)
    requires SvcInv(n)
    ensures n.exits <= 1
    ensures n.exited ==> n.exits == 1 && !n.child && !n.slot && TimersIn(n.timers) == NoTimers
  {
  }

  // ------------------------------------------------------------------
  // A stop

  predicate Queued(n: Node, ev: Event) {
    |n.queue| == 1 && n.queue[0] == ev
  }

  predicate Leaving(ph: Phase) {
    ph.Finished? || ph == Ending(ThenExit)
  }

  /** On its way out: nothing but the end of the running child is waited for. */
  predicate Heading(n: Node)
    requires n.machine.Svc?
  {
    || n.exited
    || Leaving(n.machine.service.phase)
    || n.taken == Some(Event.Stop) || n.taken == Some(Drained(true))
    || Queued(n, Drained(true))
  }

  /** Past the check for a stop, and not yet started. */
  predicate MayStart(n: Node)
    requires n.machine.Svc?
  {
    && !n.exited
    && var ph := n.machine.service.phase;
       || ph.Reclaiming? || ph.AwaitingSlot?
       || (ph.Spawning? && Spawn in n.acts)
       || (ph == AtGate(Draining) && (Queued(n, Drained(false)) || n.taken == Some(Drained(false))))
  }

  /** A stop in the control queue stays there until it is acted on, and lets at
      most one process start. */
  predicate StopInv(n: Node) {
    && n.machine.Svc?
    && n.runsSinceStop == 0
    && (!n.stopSent ==> n.startsSinceStop == 0)
    && (n.stopSent ==> Heading(n) || n.inbox.urgent != [])
    && n.startsSinceStop + (if MayStart(n) then 1 else 0) <= 1
  }

  lemma StopSurvivesTake(n: Node, src: Source, version: nat, hasDeps: bool, now: Instant)
    requires SvcInv(n) && StopInv(n) && CanTake(n, src, version, hasDeps, now)
    ensures StopInv(Take(n, src, version))
  {
    hide Settled, AbsorbAll;
    AtMostOne(n);
    if src.UrgentMessage? { assert n.inbox.urgent[0] in n.inbox.urgent; }
  }

  /** A stop taken by a machine at rest ends it, after its child if it has one. */
  lemma StopObeyed(s: Service, x: Sum, deps: Deps, now: Instant)
    requires TakenFits(s, x, Event.Stop) && !x.ended
    ensures Leaving(On(s, Event.Stop, deps, now).next.phase)
  {
  }

  /** A drain that found a stop ends the machine. */
  lemma DrainedStopObeyed(s: Service, x: Sum, deps: Deps, now: Instant)
    requires TakenFits(s, x, Drained(true)) && !x.ended
    ensures On(s, Drained(true), deps, now).next.phase.Finished?
  {
  }

  lemma EndingStaysEnding(s: Service, ev: Event, deps: Deps, now: Instant)
    requires Leaving(s.phase)
    ensures Leaving(On(s, ev, deps, now).next.phase)
  {
  }

  predicate TowardsStart(ph: Phase) {
    ph.Reclaiming? || ph.AwaitingSlot? || ph.Spawning?
  }

  /** Only the gate leads to a start, and only when it found no stop. */
  lemma StartsOnlyPastGate(s: Service, ev: Event, deps: Deps, now: Instant)
    requires TowardsStart(On(s, ev, deps, now).next.phase)
    ensures || (s.phase == AtGate(Draining) && ev == Drained(false))
            || s.phase.Reclaiming? || s.phase.AwaitingSlot?
            || (s.phase.Spawning? && On(s, ev, deps, now) == Turn(s, []))
  {
    match s.phase
    case InService(_, _, _) => NoStartInService(s, ev, deps, now);
    case InStartup(_) => NoStartInStartup(s, ev, deps, now);
    case _ =>
  }

  lemma NoStartInStartup(s: Service, ev: Event, deps: Deps, now: Instant)
    requires s.phase.InStartup?
    ensures !TowardsStart(StepStartup(s, s.phase.deadline, ev, deps, now).next.phase)
  {
  }

  lemma NoStartInService(s: Service, ev: Event, deps: Deps, now: Instant)
    requires s.phase.InService?
    ensures !TowardsStart(StepService(s, ev, deps, now).next.phase)
  {
  }

  lemma StopSurvivesDecide(n: Node, deps: Deps, now: Instant)
    requires SvcInv(n) && StopInv(n) && n.taken.Some?
    ensures StopInv(Decide(n, deps, now))
  {
    hide On, TakenFits;
    var s, ev := n.machine.service, n.taken.value;
    var m := Decide(n, deps, now);
    assert !n.exited && m.queue == [] && m.taken.None?;
    if TowardsStart(On(s, ev, deps, now).next.phase) { StartsOnlyPastGate(s, ev, deps, now); }
    if ev.Stop? { StopObeyed(s, Base(n), deps, now); }
    if ev == Drained(true) { DrainedStopObeyed(s, Base(n), deps, now); }
    if Leaving(s.phase) { EndingStaysEnding(s, ev, deps, now); }
    assert n.stopSent ==> Heading(m) || m.inbox.urgent != [];
  }

  /** What is about to be done, by the phase that asked for it. */
  lemma HeadFits(n: Node)
    requires SvcInv(n) && !n.exited && n.taken.None? && n.acts != []
    ensures n.acts[0].DrainControl? ==> n.machine.service.phase == AtGate(Draining) && n.queue == []
    ensures n.acts[0].Spawn? ==> n.machine.service.phase.Spawning? && n.acts == [Spawn]
    ensures n.acts[0].Exit? ==> n.machine.service.phase.Finished?
  {
    hide AbsorbAll;
    SettledOk(n.machine.service, Total(n));
    if n.acts[0].DrainControl? || n.acts[0].Spawn? || n.acts[0].Exit? { NothingAfter(n); }
    if n.acts[0].DrainControl? { QueueEmptyBefore(n); }
  }

  lemma MicroOfService(n: Node)
    requires SvcInv(n)
    ensures MicroFits(n.micro)
    ensures n.micro != [] && n.micro[0].WaitSlot? ==> n.queue == [] && |n.micro| == 1
  {
    OneReply(n);
  }

  lemma StopSurvivesMicro(n: Node, ans: Answer, free: nat)
    requires SvcInv(n) && StopInv(n) && CanRun(n, ans, free) && n.micro != []
    ensures StopInv(RunStep(n, ans, free).node)
  {
    hide Settled, TakenFits, AbsorbAll;
    MicroOfService(n);
    var m := RunStep(n, ans, free).node;
    assert m.acts == n.acts && m.inbox == n.inbox && m.exited == n.exited && m.startsSinceStop == n.startsSinceStop;
    if n.micro[0].WaitSlot? {
      assert n.queue == [] && m.queue[0] == SlotAcquired;
      assert MayStart(m) ==> MayStart(n);
      assert Heading(n) ==> Heading(m);
    } else {
      assert m.queue == n.queue;
      assert MayStart(m) ==> MayStart(n);
      assert Heading(n) ==> Heading(m);
    }
  }

  lemma StopSurvivesSpawn(n: Node, ans: Answer, free: nat)
    requires SvcInv(n) && StopInv(n) && CanRun(n, ans, free) && n.micro == [] && n.acts[0].Spawn?
    ensures StopInv(RunStep(n, ans, free).node)
  {
    hide Settled, TakenFits, AbsorbAll;
    HeadFits(n);
    assert Spawn in n.acts && MayStart(n);
    var m := RunStep(n, ans, free).node;
    assert m.acts == [] && Spawn !in m.acts && m.inbox == n.inbox;
    assert !MayStart(m);
    QueueEmptyBefore(n);
    assert Heading(n) ==> Heading(m);
  }

  /** The drain at the gate is where a stop that came meanwhile is found. */
  lemma StopSurvivesDrain(n: Node, ans: Answer, free: nat)
    requires SvcInv(n) && StopInv(n) && CanRun(n, ans, free) && n.micro == [] && n.acts[0].DrainControl?
    ensures StopInv(RunStep(n, ans, free).node)
  {
    hide Settled, TakenFits, AbsorbAll;
    HeadFits(n);
    var m := RunStep(n, ans, free).node;
    assert Queued(m, Drained(n.inbox.StopKnown()));
    assert !Heading(n);
    assert n.stopSent ==> Heading(m) && !MayStart(m);
  }

  lemma RequestFrame(n: Node, a: Action, ans: Answer, free: nat)
    requires IsRequest(a) && !a.DrainControl? && !a.Spawn? && n.queue == []
    requires a.Probe? ==> ans.ProbeSays?
    requires a.ReadReloadCounters? ==> ans.CountersSay?
    ensures var m := RunRequest(n, a, ans, free).node;
            && m.acts == n.acts && m.inbox == n.inbox && m.exited == n.exited
            && m.startsSinceStop == n.startsSinceStop && m.runsSinceStop == n.runsSinceStop
            && !Queued(m, Drained(false))
  {
  }

  lemma StopSurvivesRequest(n: Node, ans: Answer, free: nat)
    requires SvcInv(n) && StopInv(n) && CanRun(n, ans, free) && n.micro == []
    requires IsRequest(n.acts[0]) && !n.acts[0].DrainControl? && !n.acts[0].Spawn?
    ensures StopInv(RunStep(n, ans, free).node)
  {
    RequestEmpties(n);
    hide SvcInv, RunRequest, StopInv;
    RequestFrame(n.(acts := n.acts[1..]), n.acts[0], ans, free);
    StopFrame(n, RunStep(n, ans, free).node);
  }

  lemma StopFrame(n: Node, m: Node)
    requires StopInv(n) && !n.exited && n.taken.None? && n.queue == [] && n.acts != []
    requires m.machine == n.machine && m.taken == n.taken && m.acts == n.acts[1..] && m.inbox == n.inbox
    requires m.exited == n.exited && m.stopSent == n.stopSent && !Queued(m, Drained(false))
    requires m.startsSinceStop == n.startsSinceStop && m.runsSinceStop == n.runsSinceStop
    ensures StopInv(m)
  {
  }

  lemma RequestEmpties(n: Node)
    requires SvcInv(n) && !n.exited && n.taken.None? && n.acts != [] && IsRequest(n.acts[0])
    ensures n.queue == []
  {
    hide SvcInv;
    QueueEmptyBefore(n);
  }

  lemma StopSurvivesAction(n: Node, ans: Answer, free: nat)
    requires SvcInv(n) && StopInv(n) && CanRun(n, ans, free) && n.micro == []
    requires !IsRequest(n.acts[0])
    ensures StopInv(RunStep(n, ans, free).node)
  {
    hide SvcInv;
    NoJobs(n);
    var m := RunStep(n, ans, free).node;
    assert m.exited || (m.acts == n.acts[1..] && m.queue == n.queue && m.inbox == n.inbox);
  }

  lemma StopSurvivesRun(n: Node, ans: Answer, free: nat)
    requires SvcInv(n) && StopInv(n) && CanRun(n, ans, free)
    ensures StopInv(RunStep(n, ans, free).node)
  {
    hide SvcInv, StopInv, RunStep;
    if n.micro != [] { StopSurvivesMicro(n, ans, free); }
    else if n.acts[0].Spawn? { StopSurvivesSpawn(n, ans, free); }
    else if n.acts[0].DrainControl? { StopSurvivesDrain(n, ans, free); }
    else if IsRequest(n.acts[0]) { StopSurvivesRequest(n, ans, free); }
    else { StopSurvivesAction(n, ans, free); }
  }

  lemma StopSurvivesSend(n: Node, why: string)
    requires SvcInv(n) && StopInv(n)
    ensures StopInv(QueueStop(n)) && StopInv(AnnounceStop(n)) && StopInv(QueueRestart(n, why)) && StopInv(DropSenders(n))
  {
  }
}
