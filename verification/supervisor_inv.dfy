/** What holds of a service's supervisor at every step: one outstanding reply,
    one child, the timers its phase calls for, a slot only while starting.

    The argument: the actions still to be done have a predictable effect, so the
    state they will leave (`Total`) is known as soon as the machine has decided.
    Doing an action does not change that prediction; only a decision does, and a
    decision always predicts a state its phase allows (`Settled`). */
module SupervisorInvariant {
  import opened Status
  import opened Lifecycle
  import opened Supervisor

  /** Replies on their way to the machine: asked for, or already in the queue. */
  datatype Reply =
    | RBegin
    | RDrain | RDrained(stop: bool)
    | RPort
    | RSlotAsked | RSlot
    | RSpawn | RSpawned | RSpawnFailed
    | RStopped
    | RProbe(purpose: Purpose)
    | RCounters
    | RJob

  /** How many replies are outstanding, and which. */
  datatype Awaited = Nobody | For(reply: Reply) | Several
  {
    function And(more: Awaited): Awaited {
      if Nobody? then more else if more.Nobody? then this else Several
    }
  }

  function ReplyOf(ev: Event): Awaited {
    match ev
    case Begin => For(RBegin)
    case Drained(stop) => For(RDrained(stop))
    case PortReclaimed => For(RPort)
    case SlotAcquired => For(RSlot)
    case Spawned => For(RSpawned)
    case SpawnFailed(_) => For(RSpawnFailed)
    case ChildStopped => For(RStopped)
    case Probed(p, _) => For(RProbe(p))
    case Counters(_) => For(RCounters)
    case JobDone(_, _) => For(RJob)
    case _ => Nobody
  }

  /** Which timers are armed. */
  datatype Timers = Timers(probe: bool, backoff: bool, liveness: bool, reload: bool)
  {
    function Set(t: Timer, on: bool): Timers {
      match t
      case ProbeTimer => this.(probe := on)
      case BackoffTimer => this.(backoff := on)
      case LivenessTimer => this.(liveness := on)
      case ReloadPoll => this.(reload := on)
    }

    predicate Has(t: Timer) {
      match t
      case ProbeTimer => probe
      case BackoffTimer => backoff
      case LivenessTimer => liveness
      case ReloadPoll => reload
    }
  }

  const NoTimers := Timers(false, false, false, false)

  function TimersIn(m: map<Timer, Instant>): Timers {
    Timers(ProbeTimer in m, BackoffTimer in m, LivenessTimer in m, ReloadPoll in m)
  }

  /** The state a supervisor is in or headed for. */
  datatype Sum = Sum(
    status: Status,
    timers: Timers,
    slot: bool,
    child: bool,
    replies: Awaited,
    closed: bool,   // an action after which nothing may follow has been asked for
    ok: bool,       // nothing did follow
    ended: bool)    // the supervisor was told to exit

  function Absorb(x: Sum, a: Action): Sum {
    var y := x.(ok := x.ok && !x.closed);
    match a
    case SetStatus(st) => y.(status := st)
    case Fail(_, code) => y.(status := Status.Failed(code))
    case DrainControl => y.(replies := y.replies.And(For(RDrain)), closed := true)
    case ReclaimPort(_) => y.(replies := y.replies.And(For(RPort)), closed := true)
    case AcquireSlot => y.(replies := y.replies.And(For(RSlotAsked)), closed := true)
    case ReleaseSlot => y.(slot := false)
    case Spawn => y.(replies := y.replies.And(For(RSpawn)), closed := true)
    case StopChild(_) => y.(child := false, replies := y.replies.And(For(RStopped)), closed := true)
    case Probe(p) => y.(replies := y.replies.And(For(RProbe(p))))
    case ReadReloadCounters => y.(replies := y.replies.And(For(RCounters)))
    case SetTimer(t, _) => y.(timers := y.timers.Set(t, true))
    case CancelTimer(t) => y.(timers := y.timers.Set(t, false))
    case RunJob => y.(replies := y.replies.And(For(RJob)), closed := true)
    case Exit => y.(slot := false, closed := true, ended := true)
    case _ => y
  }

  function AbsorbAll(x: Sum, acts: seq<Action>): Sum
    decreases |acts|
  {
    if acts == [] then x else AbsorbAll(Absorb(x, acts[0]), acts[1..])
  }

  lemma {:induction false} AbsorbCat(x: Sum, a: seq<Action>, b: seq<Action>)
    ensures AbsorbAll(x, a + b) == AbsorbAll(AbsorbAll(x, a), b)
    decreases |a|
  {
    if a == [] {
      assert a + b == b;
    } else {
      assert (a + b)[1..] == a[1..] + b;
      AbsorbCat(Absorb(x, a[0]), a[1..], b);
    }
  }

  lemma Absorb1(x: Sum, a: Action)
    ensures AbsorbAll(x, [a]) == Absorb(x, a)
  {
  }

  lemma Absorb2(x: Sum, a: Action, b: Action)
    ensures AbsorbAll(x, [a, b]) == Absorb(Absorb(x, a), b)
  {
    assert [a, b] == [a] + [b];
    AbsorbCat(x, [a], [b]);
  }

  lemma Absorb3(x: Sum, a: Action, b: Action, c: Action)
    ensures AbsorbAll(x, [a, b, c]) == Absorb(Absorb(Absorb(x, a), b), c)
  {
    assert [a, b, c] == [a, b] + [c];
    AbsorbCat(x, [a, b], [c]);
    Absorb2(x, a, b);
  }

  /** `turn` after `said`, absorbed piece by piece. */
  lemma AbsorbAfter(x: Sum, said: seq<Action>, turn: Turn)
    ensures AbsorbAll(x, After(said, turn).out) == AbsorbAll(AbsorbAll(x, said), turn.out)
  {
    AbsorbCat(x, said, turn.out);
  }

  lemma AbsorbNone(x: Sum)
    ensures AbsorbAll(x, []) == x
  {
  }

  lemma AbsorbStep(x: Sum, a: Action)
    ensures Absorb(x, a).ok <==> x.ok && !x.closed
    ensures x.closed ==> Absorb(x, a).closed
    ensures Absorb(x, a).ended <==> x.ended || a.Exit?
    ensures Absorb(x, a).replies.Nobody? ==> x.replies.Nobody?
    ensures x.replies.Several? ==> Absorb(x, a).replies.Several?
    ensures x.replies.For? ==> Absorb(x, a).replies == x.replies || Absorb(x, a).replies.Several?
  {
  }

  lemma {:induction false} AbsorbKeeps(x: Sum, acts: seq<Action>)
    ensures AbsorbAll(x, acts).ok ==> x.ok && (x.closed ==> acts == [])
    ensures AbsorbAll(x, acts).ended <==> x.ended || Exit in acts
    ensures AbsorbAll(x, acts).replies.Nobody? ==> x.replies.Nobody?
    ensures x.replies.Several? ==> AbsorbAll(x, acts).replies.Several?
    ensures x.replies.For? ==> AbsorbAll(x, acts).replies == x.replies || AbsorbAll(x, acts).replies.Several?
    decreases |acts|
  {
    hide Absorb;
    if acts != [] {
      AbsorbStep(x, acts[0]);
      AbsorbKeeps(Absorb(x, acts[0]), acts[1..]);
      assert acts == [acts[0]] + acts[1..];
    }
  }

  // ------------------------------------------------------------------
  // What each phase allows

  /** The timers a phase calls for, given the reply it is waiting for. */
  function Armed(s: Service, replies: Awaited): Timers {
    match s.phase
    case InStartup(_) => NoTimers.(probe := replies.Nobody?)
    case InService(_, _, _) =>
      NoTimers.(liveness := s.cfg.liveness.Some? && replies != For(RProbe(ForLiveness)),
                reload := s.cfg.followsReloads && replies != For(RCounters))
    case BackingOff => NoTimers.(backoff := true)
    case _ => NoTimers
  }

  /** The replies a phase may be waiting for. */
  predicate Awaits(s: Service, r: Awaited) {
    match s.phase
    case AtGate(WaitingOnDeps) => r.Nobody? || r == For(RBegin)
    case AtGate(Draining) => r == For(RDrain) || r == For(RDrained(true)) || r == For(RDrained(false))
    case Reclaiming => r == For(RPort)
    case AwaitingSlot => r == For(RSlotAsked) || r == For(RSlot)
    case Spawning => r == For(RSpawn) || r == For(RSpawned) || r == For(RSpawnFailed)
    case InStartup(_) => r.Nobody? || r == For(RProbe(ForReady))
    case InService(_, _, pending) =>
      && (pending.Some? <==> r == For(RProbe(ForReload)))
      && (|| r.Nobody?
          || (r == For(RProbe(ForLiveness)) && s.cfg.liveness.Some?)
          || ((r == For(RCounters) || r == For(RProbe(ForReload))) && s.cfg.followsReloads))
    case Ending(_) => r == For(RStopped)
    case BackingOff => r.Nobody? || r == For(RCounters)
    case Parked(_, _) => r.Nobody? || r == For(RCounters)
    case Served => r.Nobody?
    case Finished => r.Nobody?
  }

  /** Whether a phase has a running child, once the actions asked for are done. */
  predicate ChildFits(s: Service, x: Sum) {
    match s.phase
    case Spawning => x.child <==> x.replies == For(RSpawned)
    case InStartup(_) => x.child
    case InService(_, _, _) => x.child
    case _ => !x.child
  }

  /** Whether a phase holds a build slot, once the actions asked for are done. */
  predicate SlotFits(s: Service, x: Sum) {
    match s.phase
    case AwaitingSlot => x.slot <==> x.replies == For(RSlot)
    case Spawning => x.slot
    case InStartup(_) => x.slot
    case Ending(next) => next.ThenCycle? ==> !x.slot
    case _ => !x.slot
  }

  predicate RunningFits(s: Service) {
    s.phase.InService? ==>
      && (s.phase.alive.Some? <==> s.cfg.liveness.Some?)
      && (s.phase.rebuild.Off? <==> !s.cfg.followsReloads)
  }

  predicate StatusFits(s: Service, x: Sum) {
    && (s.cfg.hasCmd && !s.phase.InService? ==> !x.status.IsReady())
    && (s.phase.Spawning? || s.phase.InStartup? ==> x.status == Status.Starting)
    && (!s.cfg.hasCmd ==> s.phase.AtGate? || s.phase.Served? || s.phase.Finished?)
    && (s.phase.Served? ==> !s.cfg.hasCmd)
  }

  predicate Settled(s: Service, x: Sum) {
    && s.cfg.Valid()
    && x.ok
    && (x.ended <==> s.phase.Finished?)
    && x.timers == Armed(s, x.replies)
    && Awaits(s, x.replies)
    && ChildFits(s, x)
    && SlotFits(s, x)
    && RunningFits(s)
    && StatusFits(s, x)
  }

  /** Whether `ev` may be what a machine at rest is told next. */
  predicate TakenFits(s: Service, x: Sum, ev: Event) {
    && x.replies.Nobody? && !x.closed
    && if !ReplyOf(ev).Nobody? then Settled(s, x.(replies := ReplyOf(ev)))
       else if ev.TimerFired? then
         !x.timers.Has(ev.timer) && Settled(s, x.(timers := x.timers.Set(ev.timer, true)))
       else if ev.Exited? then !x.child && s.HasChild() && Settled(s, x.(child := true))
       else Settled(s, x)
  }

  /** A turn whose predicted state its phase allows. */
  predicate Lands(turn: Turn, x: Sum) {
    var y := AbsorbAll(x, turn.out);
    Settled(if y.ended then turn.next.(phase := Finished) else turn.next, y)
  }

  // ------------------------------------------------------------------
  // Every decision lands

  lemma OpenLands(s: Service, x: Sum)
    requires s.cfg.Valid() && x.ok && !x.closed && !x.ended && x.replies.Nobody? && x.timers == NoTimers
    requires !x.child && !x.slot && (s.cfg.hasCmd ==> !x.status.IsReady())
    ensures Lands(AfterGate(s), x)
  {
    hide AbsorbAll;
    if s.cfg.hasCmd && s.cfg.port.Some? {
      Absorb1(x, ReclaimPort(s.cfg.port.value));
    } else {
      Absorb1(x, SetStatus(Status.Healthy));
      Absorb1(x, AcquireSlot);
    }
  }

  lemma ShutLands(s: Service, gate: Gate, ev: Event, deps: Deps, x: Sum)
    requires s.cfg.Valid() && x.ok && !x.closed && !x.ended && x.replies.Nobody? && x.timers == NoTimers
    requires !x.child && !x.slot && (s.cfg.hasCmd ==> !x.status.IsReady())
    requires gate.Draining? ==> ev.Drained?
    requires !GateOn(gate, ev, deps).Open?
    ensures Lands(StepGate(s, gate, ev, deps), x)
  {
    hide AbsorbAll;
    AbsorbNone(x);
    var said := GateOn(gate, ev, deps).acts;
    if GateOn(gate, ev, deps).Ended? {
      Absorb2(x, said[0], said[1]);
    } else if said != [] {
      Absorb1(x, said[0]);
    }
  }

  lemma GateLands(s: Service, gate: Gate, ev: Event, deps: Deps, x: Sum)
    requires s.cfg.Valid() && x.ok && !x.closed && !x.ended && x.replies.Nobody? && x.timers == NoTimers
    requires !x.child && !x.slot && (s.cfg.hasCmd ==> !x.status.IsReady())
    requires gate.Draining? ==> ev.Drained?
    ensures Lands(StepGate(s, gate, ev, deps), x)
  {
    hide Lands, AfterGate;
    match GateOn(gate, ev, deps)
    case Open(seen) => OpenLands(s.(phase := AtGate(gate), seen := seen), x);
    case _ => ShutLands(s, gate, ev, deps, x);
  }

  lemma CycleLands(s: Service, deps: Deps, x: Sum)
    requires s.cfg.Valid() && x.ok && !x.closed && !x.ended && x.replies.Nobody? && x.timers == NoTimers
    requires !x.child && !x.slot && (s.cfg.hasCmd ==> !x.status.IsReady())
    ensures Lands(Cycle(s, deps), x)
  {
    hide AbsorbAll;
    AbsorbNone(x);
    GateLands(s, WaitingOnDeps, Board, deps, x);
  }

  lemma ReleasesSum(ready: bool, x: Sum)
    requires x.ok && !x.closed
    ensures AbsorbAll(x, [ReleaseSlot] + (if ready then [ReloadBrowser] else [])) == x.(slot := false)
  {
    Absorb1(x, ReleaseSlot);
    Absorb2(x, ReleaseSlot, ReloadBrowser);
    hide AbsorbAll;
    if ready {
      assert [ReleaseSlot] + [ReloadBrowser] == [ReleaseSlot, ReloadBrowser];
    } else {
      assert [ReleaseSlot] + [] == [ReleaseSlot];
    }
  }

  lemma CountersSum(follows: bool, x: Sum)
    requires x.ok && !x.closed && x.replies.Nobody?
    ensures AbsorbAll(x, if follows then [ReadReloadCounters] else [])
         == x.(replies := if follows then For(RCounters) else Nobody)
  {
    AbsorbNone(x);
    Absorb1(x, ReadReloadCounters);
    hide AbsorbAll;
  }

  lemma LivenessSum(watched: Option<LivenessConfig>, now: Instant, x: Sum)
    requires x.ok && !x.closed
    ensures AbsorbAll(x, if watched.Some? then [SetTimer(LivenessTimer, now + watched.value.every)] else [])
         == x.(timers := if watched.Some? then x.timers.(liveness := true) else x.timers)
  {
    AbsorbNone(x);
    if watched.Some? { Absorb1(x, SetTimer(LivenessTimer, now + watched.value.every)); }
    hide AbsorbAll;
  }

  /** Becoming ready leaves a running child with the timers it is watched by. */
  lemma BecomeReadySum(s: Service, ready: bool, now: Instant, x: Sum)
    requires x.ok && !x.closed && x.replies.Nobody?
    ensures AbsorbAll(x, BecomeReady(s, ready, now).out) ==
            x.(slot := false,
               replies := if s.cfg.followsReloads then For(RCounters) else Nobody,
               timers := if s.cfg.liveness.Some? then x.timers.(liveness := true) else x.timers)
  {
    hide AbsorbAll;
    var a := [ReleaseSlot] + (if ready then [ReloadBrowser] else []);
    var b := if s.cfg.followsReloads then [ReadReloadCounters] else [];
    var c := if s.cfg.liveness.Some? then [SetTimer(LivenessTimer, now + s.cfg.liveness.value.every)] else [];
    assert BecomeReady(s, ready, now).out == a + b + c;
    hide BecomeReady;
    AbsorbCat(x, a + b, c);
    AbsorbCat(x, a, b);
    ReleasesSum(ready, x);
    CountersSum(s.cfg.followsReloads, AbsorbAll(x, a));
    LivenessSum(s.cfg.liveness, now, AbsorbAll(x, a + b));
  }

  lemma BecomeReadyLands(s: Service, ready: bool, now: Instant, x: Sum)
    requires s.cfg.Valid() && s.cfg.hasCmd
    requires x.ok && !x.closed && !x.ended && x.replies.Nobody? && x.timers == NoTimers && x.child
    ensures Lands(BecomeReady(s, ready, now), x)
  {
    hide AbsorbAll;
    AbsorbNone(x);
    BecomeReadySum(s, ready, now, x);
  }

  lemma EndCrashLands(s: Service, tooMany: bool, code: int, now: Instant, show: bool, x: Sum)
    requires s.cfg.Valid() && s.cfg.hasCmd
    requires x.ok && !x.closed && !x.ended && x.timers == NoTimers && (x.replies.Nobody? || x.replies == For(RCounters))
    requires !x.child && !x.slot
    requires show || !x.status.IsReady()
    ensures Lands(if tooMany then GiveUp(s, code) else StartBackoff(s, now, show), x)
  {
    hide AbsorbAll;
    AbsorbNone(x);
    if tooMany {
      var why := GaveUp(s.crashes.restarts);
      Absorb3(x, Log(why), SetStatus(Status.Failed(code)), SetReason(why));
    } else if show {
      assert StartBackoff(s, now, show).out == [SetStatus(Status.Backoff(s.backoff)), SetTimer(BackoffTimer, now + s.backoff)];
      Absorb2(x, SetStatus(Status.Backoff(s.backoff)), SetTimer(BackoffTimer, now + s.backoff));
    } else {
      assert StartBackoff(s, now, show).out == [SetTimer(BackoffTimer, now + s.backoff)];
      Absorb1(x, SetTimer(BackoffTimer, now + s.backoff));
    }
  }

  lemma SpawningLands(s: Service, ev: Event, now: Instant, x: Sum)
    requires s.phase.Spawning? && TakenFits(s, x, ev)
    ensures Lands(StepSpawning(s, ev, now), x)
  {
    hide AbsorbAll;
    AbsorbNone(x);
    match ev
    case Spawned =>
      var s1 := s.(started := Some(now));
      if s.cfg.probed {
        Absorb1(x, Probe(ForReady));
      } else {
        AbsorbAfter(x, [SetStatus(Status.Healthy)], BecomeReady(s1, true, now));
        Absorb1(x, SetStatus(Status.Healthy));
        BecomeReadyLands(s1, true, now, Absorb(x, SetStatus(Status.Healthy)));
      }
    case SpawnFailed(e) => SpawnFailedLands(s, e, now, x);
    case _ =>
  }

  lemma SpawnFailedLands(s: Service, e: string, now: Instant, x: Sum)
    requires s.phase.Spawning? && TakenFits(s, x, SpawnFailed(e))
    ensures Lands(StepSpawning(s, SpawnFailed(e), now), x)
  {
    hide AbsorbAll;
    var said := [Fail(CannotSpawn(e), 127), ReleaseSlot];
    Absorb2(x, said[0], said[1]);
    if s.cfg.restart == Never {
      AbsorbCat(x, said, [Exit]);
      Absorb1(AbsorbAll(x, said), Exit);
    } else {
      var (crashes, tooMany) := s.crashes.Record(0);
      var s1 := s.(crashes := crashes);
      AbsorbAfter(x, said, if tooMany then GiveUp(s1, 127) else StartBackoff(s1, now, false));
      EndCrashLands(s1, tooMany, 127, now, false, AbsorbAll(x, said));
    }
  }

  predicate OnlyRunningTimers(cfg: ServiceConfig, t: Timers) {
    && !t.probe && !t.backoff
    && (t.liveness ==> cfg.liveness.Some?)
    && (t.reload ==> cfg.followsReloads)
  }

  /** A child's exit, with `x` what has been asked for before it. */
  lemma ChildExitedLands(s: Service, code: int, now: Instant, x: Sum)
    requires s.cfg.Valid() && s.cfg.hasCmd
    requires x.ok && !x.closed && !x.ended && (x.replies.Nobody? || x.replies == For(RCounters))
    requires OnlyRunningTimers(s.cfg, x.timers)
    requires !x.child && !x.slot
    ensures Lands(ChildExited(s, code, now), x)
  {
    hide AbsorbAll;
    AbsorbNone(x);
    var cancels := CancelRunningTimers(s.cfg);
    CancelSum(s.cfg, x);
    var y := AbsorbAll(x, cancels);
    AbsorbAfter(x, cancels, AfterExit(s, code, now));
    var shown :=
      if code == 0 && s.cfg.restart != Always then [SetStatus(Status.Exited)]
      else if code != 0 then [SetStatus(Status.Failed(code))]
      else [];
    AbsorbNone(y);
    if shown != [] { Absorb1(y, shown[0]); }
    var z := AbsorbAll(y, shown);
    if s.cfg.restart == Always {
      var ran := Ran(s, now);
      var s1 := if ran > s.crashes.settled then s.(backoff := s.cfg.backoffMin) else s;
      var (crashes, tooMany) := s1.crashes.Record(ran);
      var s2 := s1.(crashes := crashes);
      AbsorbAfter(y, shown, if tooMany then GiveUp(s2, code) else StartBackoff(s2, now, true));
      EndCrashLands(s2, tooMany, code, now, true, z);
    }
  }

  lemma CancelSum(cfg: ServiceConfig, x: Sum)
    requires x.ok && !x.closed
    ensures AbsorbAll(x, CancelRunningTimers(cfg)) ==
            x.(timers := x.timers.(liveness := x.timers.liveness && cfg.liveness.None?,
                                   reload := x.timers.reload && !cfg.followsReloads))
  {
    hide AbsorbAll;
    AbsorbNone(x);
    var a := if cfg.liveness.Some? then [CancelTimer(LivenessTimer)] else [];
    var b := if cfg.followsReloads then [CancelTimer(ReloadPoll)] else [];
    AbsorbCat(x, a, b);
    if a != [] { Absorb1(x, a[0]); }
    AbsorbNone(AbsorbAll(x, a));
    if b != [] { Absorb1(AbsorbAll(x, a), b[0]); }
  }

  lemma GiveUpReadinessSum(s: Service, now: Instant, x: Sum)
    requires x.ok && !x.closed && x.replies.Nobody?
    ensures AbsorbAll(x, GiveUpReadiness(s, now).out) ==
            x.(status := Status.Unhealthy, slot := false,
               replies := if s.cfg.followsReloads then For(RCounters) else Nobody,
               timers := if s.cfg.liveness.Some? then x.timers.(liveness := true) else x.timers)
  {
    hide AbsorbAll;
    AbsorbNone(x);
    var said := [Log(NeverPassed), SetStatus(Status.Unhealthy), SetReason(NotReadyWithin(s.cfg.readyTimeout))];
    AbsorbAfter(x, said, BecomeReady(s, false, now));
    Absorb3(x, said[0], said[1], said[2]);
    BecomeReadySum(s, false, now, AbsorbAll(x, said));
  }

  lemma StartupProbedLands(s: Service, result: ProbeResult, now: Instant, deps: Deps, x: Sum)
    requires s.phase.InStartup? && TakenFits(s, x, Probed(ForReady, result))
    ensures Lands(StepStartup(s, s.phase.deadline, Probed(ForReady, result), deps, now), x)
  {
    hide AbsorbAll;
    match result
    case Pass =>
      var said := [CancelTimer(ProbeTimer), SetStatus(Status.Healthy)];
      var s1 := s.(backoff := s.cfg.backoffMin);
      AbsorbAfter(x, said, BecomeReady(s1, true, now));
      Absorb2(x, said[0], said[1]);
      BecomeReadyLands(s1, true, now, AbsorbAll(x, said));
    case Miss(why) =>
      if now >= s.phase.deadline {
        AbsorbAfter(x, [Log(LastAttempt(why))], GiveUpReadiness(s, now));
        Absorb1(x, Log(LastAttempt(why)));
        GiveUpReadinessSum(s, now, x);
      } else {
        Absorb1(x, SetTimer(ProbeTimer, now + s.cfg.probeInterval));
      }
  }

  lemma StartupExitedLands(s: Service, code: int, now: Instant, deps: Deps, x: Sum)
    requires s.phase.InStartup? && TakenFits(s, x, Event.Exited(code))
    ensures Lands(StepStartup(s, s.phase.deadline, Event.Exited(code), deps, now), x)
  {
    hide AbsorbAll, Lands, ChildExited;
    var first := GiveUpReadiness(s, now);
    var x1 := Absorb(x, CancelTimer(ProbeTimer));
    AbsorbAfter(x, [CancelTimer(ProbeTimer)] + first.out, ChildExited(first.next, code, now));
    AbsorbCat(x, [CancelTimer(ProbeTimer)], first.out);
    Absorb1(x, CancelTimer(ProbeTimer));
    GiveUpReadinessSum(s, now, x1);
    ChildExitedLands(first.next, code, now, AbsorbAll(x1, first.out));
    LandsAfter(x, [CancelTimer(ProbeTimer)] + first.out, ChildExited(first.next, code, now));
  }

  lemma LandsAfter(x: Sum, said: seq<Action>, turn: Turn)
    requires Lands(turn, AbsorbAll(x, said))
    ensures Lands(After(said, turn), x)
  {
    hide Settled, AbsorbAll;
    AbsorbAfter(x, said, turn);
  }

  lemma StartupOtherLands(s: Service, ev: Event, deps: Deps, now: Instant, x: Sum)
    requires s.phase.InStartup? && TakenFits(s, x, ev)
    requires !ev.Exited? && !(ev.Probed? && ev.purpose.ForReady?)
    ensures Lands(StepStartup(s, s.phase.deadline, ev, deps, now), x)
  {
    hide AbsorbAll;
    AbsorbNone(x);
    match ev
    case TimerFired(_) =>
      Absorb1(x, Probe(ForReady));
    case Board =>
      if DependencyMoved(s, deps).Some? { InterruptLands(s, DependencyMoved(s, deps).value, x); }
    case Restart(r) =>
      InterruptLands(s, r, x);
    case Stop => StartupStops(s, deps, now, x);
    case _ =>
  }

  lemma StartupStops(s: Service, deps: Deps, now: Instant, x: Sum)
    requires s.phase.InStartup? && TakenFits(s, x, Event.Stop)
    ensures Lands(StepStartup(s, s.phase.deadline, Event.Stop, deps, now), x)
  {
    hide AbsorbAll;
    Absorb3(x, CancelTimer(ProbeTimer), SetStatus(Status.Stopped), StopChild(s.cfg.stopTimeout));
  }

  lemma StartupLands(s: Service, ev: Event, deps: Deps, now: Instant, x: Sum)
    requires s.phase.InStartup? && TakenFits(s, x, ev)
    ensures Lands(StepStartup(s, s.phase.deadline, ev, deps, now), x)
  {
    hide TakenFits, Lands, StepStartup;
    if ev.Exited? {
      StartupExitedLands(s, ev.code, now, deps, x);
    } else if ev.Probed? && ev.purpose.ForReady? {
      StartupProbedLands(s, ev.result, now, deps, x);
    } else {
      StartupOtherLands(s, ev, deps, now, x);
    }
  }

  lemma InterruptLands(s: Service, why: Text, x: Sum)
    requires s.phase.InStartup? && Settled(s, x) && !x.closed && x.replies.Nobody?
    ensures Lands(InterruptStartup(s, why), x)
  {
    hide AbsorbAll;
    AbsorbNone(x);
    var a := [CancelTimer(ProbeTimer), SetStatus(Status.Stopping), Log(MidStartup(why))];
    var b := [ReleaseSlot, StopChild(s.cfg.stopTimeout)];
    assert InterruptStartup(s, why).out == a + b;
    AbsorbCat(x, a, b);
    Absorb3(x, a[0], a[1], a[2]);
    Absorb2(AbsorbAll(x, a), b[0], b[1]);
  }

  lemma RestartRunningLands(s: Service, why: Text, x: Sum)
    requires s.cfg.Valid() && s.cfg.hasCmd
    requires x.ok && !x.closed && !x.ended && x.replies.Nobody? && !x.slot
    requires OnlyRunningTimers(s.cfg, x.timers)
    ensures Lands(RestartRunning(s, why), x)
  {
    hide AbsorbAll;
    AbsorbNone(x);
    var a := CancelRunningTimers(s.cfg);
    var b := [SetStatus(Status.Stopping), CountRestart(why)];
    var c := [Log(Restarting(why)), StopChild(s.cfg.stopTimeout)];
    assert RestartRunning(s, why).out == a + (b + c);
    AbsorbCat(x, a, b + c);
    CancelSum(s.cfg, x);
    var y := AbsorbAll(x, a);
    AbsorbCat(y, b, c);
    Absorb2(y, b[0], b[1]);
    Absorb2(AbsorbAll(y, b), c[0], c[1]);
  }

  lemma LivenessLands(s: Service, result: ProbeResult, now: Instant, x: Sum)
    requires s.phase.InService? && TakenFits(s, x, Probed(ForLiveness, result))
    ensures Lands(LivenessAnswered(s, result, now), x)
  {
    hide AbsorbAll;
    AbsorbNone(x);
    var a := s.phase.alive.value;
    var again := [SetTimer(LivenessTimer, now + a.every)];
    Absorb1(x, again[0]);
    var y := AbsorbAll(x, again);
    match result
    case Pass =>
      if a.tookDown {
        var rest := [Log(AnsweringAgain), SetStatus(Status.Healthy), SetReason(AnsweringAgain)];
        AbsorbCat(x, again, rest);
        Absorb3(y, rest[0], rest[1], rest[2]);
      }
    case Miss(why) =>
      var said := NotAnswering(a.misses + 1, why);
      if a.misses + 1 == a.failures {
        if s.cfg.restart == Always {
          AbsorbAfter(x, again + [Log(said)], RestartRunning(s, said));
          AbsorbCat(x, again, [Log(said)]);
          Absorb1(y, Log(said));
          RestartRunningLands(s, said, y);
        } else {
          var rest := [Log(said), SetStatus(Status.Unhealthy), SetReason(said)];
          AbsorbCat(x, again, rest);
          Absorb3(y, rest[0], rest[1], rest[2]);
        }
      }
  }

  lemma SettleLands(s: Service, c: ReloadCounters, pass: bool, now: Instant, x: Sum)
    requires s.phase.InService? && s.phase.pending.None? && !s.phase.rebuild.Off?
    requires Settled(s, x) && x.replies.Nobody? && !x.closed
    ensures Lands(Settle(s, c, pass, now), x)
  {
    hide AbsorbAll;
    AbsorbNone(x);
    if ReadyAgain(c) && pass {
      Absorb2(x, SetStatus(Status.Healthy), SetReason(ReloadedItself));
    } else if s.phase.rebuild.Rebuilding? {
      match RebuildVerdict(s.cfg, s.phase.rebuild.deadline, c, now)
      case None =>
      case Some(why) => Absorb3(x, Log(ReloadFailed(why)), SetStatus(Status.Unhealthy), SetReason(why));
    }
  }

  lemma JudgeLands(s: Service, r: Rebuild, c: ReloadCounters, now: Instant, x: Sum)
    requires s.phase.InService? && s.phase.pending.None? && !r.Off? && s.cfg.followsReloads
    requires Settled(s, x) && x.replies.Nobody? && !x.closed
    ensures Lands(JudgeReload(s, r, c, now), x)
  {
    hide AbsorbAll;
    AbsorbNone(x);
    if r.UpToDate? {
      if c.failures > 0 {
        Absorb3(x, Log(ReportedFailure), SetStatus(Status.Unhealthy), SetReason(RebuildFailed));
      }
    } else if s.cfg.probed {
      Absorb1(x, Probe(ForReload));
    } else {
      SettleLands(s.(phase := s.phase.(rebuild := r, pending := None)), c, true, now, x);
    }
  }

  lemma CountersLand(s: Service, c: ReloadCounters, now: Instant, x: Sum)
    requires s.phase.InService? && s.phase.pending.None? && s.cfg.followsReloads
    requires Settled(s, x) && x.replies.Nobody? && !x.closed
    ensures Lands(CountersRead(s, c, now), x)
  {
    hide AbsorbAll;
    AbsorbNone(x);
    var r := s.phase.rebuild;
    var seen := if InFlightAtFirstLook(c) then c.reloadMatches - 1 else c.reloadMatches;
    var known := if !r.Unknown? then r else if r.ready then UpToDate(seen) else NotReady(seen);
    if !r.Unknown? || InFlightAtFirstLook(c) {
      if c.reloadMatches != known.Seen() {
        var said := [SetStatus(Status.Reloading), SetReason(RebuildingItself)];
        var next := Rebuilding(c.reloadMatches, now + s.cfg.readyTimeout);
        AbsorbAfter(x, said, JudgeReload(s, next, c, now));
        Absorb2(x, said[0], said[1]);
        JudgeLands(s, next, c, now, AbsorbAll(x, said));
      } else {
        JudgeLands(s, known, c, now, x);
      }
    }
  }

  lemma ServiceAskedLands(s: Service, ev: Event, deps: Deps, now: Instant, x: Sum)
    requires s.phase.InService? && TakenFits(s, x, ev)
    requires ev.Board? || ev.Restart? || ev.Stop? || ev.Exited?
    ensures Lands(StepService(s, ev, deps, now), x)
  {
    hide AbsorbAll, ChildExited, RestartRunning, CancelRunningTimers;
    AbsorbNone(x);
    match ev
    case Exited(code) => ChildExitedLands(s, code, now, x);
    case Board =>
      if DependencyMoved(s, deps).Some? { RestartRunningLands(s, DependencyMoved(s, deps).value, x); }
    case Restart(r) =>
      if s.cfg.onChange == SignalIt && s.cfg.reload != SelfManaged {
        Absorb1(x, RestartAsked(s, r).out[0]);
      }
      RestartRunningLands(s, r, x);
    case Stop =>
      var a := CancelRunningTimers(s.cfg);
      var b := [SetStatus(Status.Stopped), StopChild(s.cfg.stopTimeout)];
      AbsorbCat(x, a, b);
      CancelSum(s.cfg, x);
      Absorb2(AbsorbAll(x, a), b[0], b[1]);
  }

  lemma ServiceTimerLands(s: Service, t: Timer, deps: Deps, now: Instant, x: Sum)
    requires s.phase.InService? && TakenFits(s, x, TimerFired(t))
    ensures Lands(StepService(s, TimerFired(t), deps, now), x)
  {
    hide AbsorbAll;
    Absorb1(x, Probe(ForLiveness));
    Absorb1(x, ReadReloadCounters);
    if s.phase.alive.Some? { Absorb1(x, SetTimer(LivenessTimer, now + s.phase.alive.value.every)); }
  }

  lemma ServiceCountersLand(s: Service, c: ReloadCounters, deps: Deps, now: Instant, x: Sum)
    requires s.phase.InService? && TakenFits(s, x, Counters(c))
    ensures Lands(StepService(s, Counters(c), deps, now), x)
  {
    hide AbsorbAll, CountersRead, Lands;
    var again := [SetTimer(ReloadPoll, now + s.cfg.probeInterval)];
    Absorb1(x, again[0]);
    CountersLand(s, c, now, AbsorbAll(x, again));
    LandsAfter(x, again, CountersRead(s, c, now));
  }

  lemma ServiceLands(s: Service, ev: Event, deps: Deps, now: Instant, x: Sum)
    requires s.phase.InService? && TakenFits(s, x, ev)
    ensures Lands(StepService(s, ev, deps, now), x)
  {
    hide AbsorbAll, LivenessAnswered, CountersRead, Settle, RestartAsked, RestartRunning, ChildExited;
    AbsorbNone(x);
    match ev
    case TimerFired(t) => ServiceTimerLands(s, t, deps, now, x);
    case Counters(c) => ServiceCountersLand(s, c, deps, now, x);
    case Probed(ForLiveness, result) => LivenessLands(s, result, now, x);
    case Probed(ForReload, result) =>
      SettleLands(s.(phase := s.phase.(pending := None)), s.phase.pending.value, result.Pass?, now, x);
    case Probed(ForReady, _) =>
    case Board => ServiceAskedLands(s, ev, deps, now, x);
    case Restart(_) => ServiceAskedLands(s, ev, deps, now, x);
    case Stop => ServiceAskedLands(s, ev, deps, now, x);
    case Exited(_) => ServiceAskedLands(s, ev, deps, now, x);
    case _ =>
  }

  lemma BackoffStops(s: Service, x: Sum)
    requires s.phase.BackingOff? && TakenFits(s, x, Event.Stop)
    ensures Lands(After([CancelTimer(BackoffTimer)], ExitStopped(s)), x)
  {
    hide AbsorbAll;
    AbsorbAfter(x, [CancelTimer(BackoffTimer)], ExitStopped(s));
    Absorb1(x, CancelTimer(BackoffTimer));
    Absorb2(Absorb(x, CancelTimer(BackoffTimer)), SetStatus(Status.Stopped), Exit);
  }

  lemma BackoffLands(s: Service, ev: Event, deps: Deps, x: Sum)
    requires s.phase.BackingOff? && TakenFits(s, x, ev)
    ensures Lands(StepBackoff(s, ev, deps), x)
  {
    hide AbsorbAll;
    AbsorbNone(x);
    match ev
    case TimerFired(BackoffTimer) => CycleLands(s, deps, x);
    case Stop => BackoffStops(s, x);
    case Restart(r) => BackoffRestarts(s, r, deps, x);
    case _ =>
  }

  lemma BackoffRestarts(s: Service, r: Text, deps: Deps, x: Sum)
    requires s.phase.BackingOff? && TakenFits(s, x, Restart(r))
    ensures Lands(StepBackoff(s, Restart(r), deps), x)
  {
    hide AbsorbAll, Cycle;
    var said := [CancelTimer(BackoffTimer), Log(Restarting(r))];
    var s1 := s.(backoff := s.cfg.backoffMin, crashes := s.crashes.(restarts := 0));
    AbsorbAfter(x, said, Cycle(s1, deps));
    Absorb2(x, said[0], said[1]);
    CycleLands(s1, deps, AbsorbAll(x, said));
    hide Settled;
  }

  lemma ParkedLands(s: Service, ev: Event, deps: Deps, x: Sum)
    requires s.phase.Parked? && TakenFits(s, x, ev)
    ensures Lands(StepParked(s, ev, deps), x)
  {
    hide AbsorbAll;
    AbsorbNone(x);
    if ev.Stop? {
      Absorb1(x, Exit);
    } else if WakeReason(s.seen, ev, deps).Some? {
      var said := if s.phase.announce then [Log(Restarting(WakeReason(s.seen, ev, deps).value))] else [];
      var s1 := if s.phase.reset then s.(crashes := s.crashes.(restarts := 0)) else s;
      AbsorbAfter(x, said, Cycle(s1, deps));
      if said != [] { Absorb1(x, said[0]); }
      CycleLands(s1, deps, AbsorbAll(x, said));
    }
  }

  lemma SimpleLands(s: Service, ev: Event, deps: Deps, now: Instant, x: Sum)
    requires s.phase.Reclaiming? || s.phase.AwaitingSlot?
    requires TakenFits(s, x, ev)
    ensures Lands(Step(s, ev, deps, now), x)
  {
    hide AbsorbAll;
    AbsorbNone(x);
    Absorb1(x, AcquireSlot);
    Absorb2(x, SetStatus(Status.Starting), Spawn);
  }

  lemma RestingLands(s: Service, ev: Event, deps: Deps, now: Instant, x: Sum)
    requires s.phase.Ending? || s.phase.Served?
    requires TakenFits(s, x, ev)
    ensures Lands(Step(s, ev, deps, now), x)
  {
    hide Lands, Step, TakenFits;
    if s.phase.Served? {
      ServedLands(s, ev, deps, now, x);
    } else {
      EndingLands(s, ev, deps, now, x);
    }
  }

  lemma ServedLands(s: Service, ev: Event, deps: Deps, now: Instant, x: Sum)
    requires s.phase.Served? && TakenFits(s, x, ev)
    ensures Lands(Step(s, ev, deps, now), x)
  {
    hide AbsorbAll, Cycle;
    AbsorbNone(x);
    Absorb1(x, Exit);
    if ev.Restart? || ev.Board? { CycleLands(s, deps, x); }
  }

  lemma EndingLands(s: Service, ev: Event, deps: Deps, now: Instant, x: Sum)
    requires s.phase.Ending? && TakenFits(s, x, ev)
    ensures Lands(Step(s, ev, deps, now), x)
  {
    hide AbsorbAll, Cycle;
    AbsorbNone(x);
    Absorb1(x, Exit);
    if ev.ChildStopped? && s.phase.next.ThenCycle? { CycleLands(s, deps, x); }
  }

  lemma StepLands(s: Service, ev: Event, deps: Deps, now: Instant, x: Sum)
    requires TakenFits(s, x, ev) && !x.ended
    ensures Lands(Step(s, ev, deps, now), x)
  {
    hide Lands, StepGate, StepSpawning, StepStartup, StepService, StepBackoff, StepParked, Cycle, AbsorbAll;
    match s.phase
    case AtGate(gate) => GateLands(s, gate, ev, deps, x);
    case Spawning => SpawningLands(s, ev, now, x);
    case InStartup(_) => StartupLands(s, ev, deps, now, x);
    case InService(_, _, _) => ServiceLands(s, ev, deps, now, x);
    case BackingOff => BackoffLands(s, ev, deps, x);
    case Parked(_, _) => ParkedLands(s, ev, deps, x);
    case Finished =>
    case Reclaiming => SimpleLands(s, ev, deps, now, x);
    case AwaitingSlot => SimpleLands(s, ev, deps, now, x);
    case _ => RestingLands(s, ev, deps, now, x);
  }

  /** Whatever a machine at rest is told, the state it asks for is one its next phase allows. */
  lemma EveryTurnLands(s: Service, ev: Event, deps: Deps, now: Instant, x: Sum)
    requires TakenFits(s, x, ev) && !x.ended
    ensures Settled(On(s, ev, deps, now).next, AbsorbAll(x, On(s, ev, deps, now).out))
  {
    hide Step, Settled, AbsorbAll;
    StepLands(s, ev, deps, now, x);
    AbsorbKeeps(x, Step(s, ev, deps, now).out);
  }
}
