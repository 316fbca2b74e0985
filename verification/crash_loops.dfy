/** Crash loops are bounded: how long each delay is, and how many there can be,
    over every sequence of events a service can be told. */
module CrashLoops {
  import opened Status
  import opened Lifecycle

  datatype Input = Input(ev: Event, deps: Deps, now: Instant)

  /** A machine with two counts kept beside it: backoffs since the delay last
      started over, and backoffs since the crash count last started over. */
  datatype Tracked = Tracked(s: Service, delays: nat, restarts: nat)

  /** The service was stopped to start again while it ran. */
  predicate RestartedRunning(s: Service, t: Service) {
    s.phase.InService? && t.phase == Ending(ThenCycle)
  }

  /** A run that outlasted the longest delay ended. */
  predicate LongRunEnded(s: Service, i: Input) {
    && s.HasChild() && i.ev.Exited? && s.cfg.restart == Always
    && Ran(s, i.now) > s.cfg.backoffMax
  }

  /** The moments that start the delays over. */
  predicate DelayReset(s: Service, i: Input, t: Service) {
    || (s.phase.InStartup? && i.ev == Probed(ForReady, Pass))
    || (s.phase.BackingOff? && i.ev.Restart?)
    || RestartedRunning(s, t)
    || LongRunEnded(s, i)
    || (!s.phase.Parked? && t.phase == Parked(true, true))
  }

  /** The moments that start the crash count over. */
  predicate CountReset(s: Service, i: Input, t: Service) {
    || (s.phase.BackingOff? && i.ev.Restart?)
    || RestartedRunning(s, t)
    || LongRunEnded(s, i)
    || (s.phase.Parked? && s.phase.reset && t.phase.AtGate?)
  }

  predicate BacksOff(s: Service, t: Service) {
    !s.phase.BackingOff? && t.phase.BackingOff?
  }

  function Advance(k: Tracked, i: Input): Tracked {
    var t := On(k.s, i.ev, i.deps, i.now).next;
    var delays := if DelayReset(k.s, i, t) then 0 else k.delays;
    var restarts := if CountReset(k.s, i, t) then 0 else k.restarts;
    if BacksOff(k.s, t) then Tracked(t, delays + 1, restarts + 1) else Tracked(t, delays, restarts)
  }

  function Track(cfg: ServiceConfig, inputs: seq<Input>): Tracked {
    if inputs == [] then Tracked(NewService(cfg), 0, 0)
    else Advance(Track(cfg, inputs[..|inputs|-1]), inputs[|inputs|-1])
  }

  function Pow2(k: nat): nat {
    if k == 0 then 1 else 2 * Pow2(k - 1)
  }

  /** The k-th delay of a crash loop: doubled each time, up to a ceiling. */
  function Delay(cfg: ServiceConfig, k: nat): Duration {
    Min(cfg.backoffMin * Pow2(k), cfg.backoffMax)
  }

  lemma Doubles(cfg: ServiceConfig, k: nat)
    ensures Min(Delay(cfg, k) * 2, cfg.backoffMax) == Delay(cfg, k + 1)
  {
    assert cfg.backoffMin * Pow2(k + 1) == 2 * (cfg.backoffMin * Pow2(k));
  }

  predicate CrashInv(cfg: ServiceConfig, k: Tracked) {
    && k.s.cfg == cfg
    && k.s.crashes.limit == cfg.maxRestarts && k.s.crashes.settled == cfg.backoffMax
    && k.s.backoff == Delay(cfg, k.delays)
    && (cfg.maxRestarts.Some? ==> k.s.crashes.restarts == k.restarts <= cfg.maxRestarts.value)
  }

  /** What a crash does to the count and the delay, and whether it gives up. */
  predicate CrashedTo(s: Service, t: Service, out: seq<Action>, now: Instant) {
    if t.phase == Parked(true, true) then
      && s.crashes.limit.Some? && s.crashes.restarts >= s.crashes.limit.value
      && t.crashes == s.crashes && t.backoff == s.cfg.backoffMin
    else
      && t.phase.BackingOff?
      && t.backoff == Min(s.backoff * 2, s.cfg.backoffMax)
      && SetTimer(BackoffTimer, now + s.backoff) in out
      && t.crashes == (if s.crashes.limit.None? then s.crashes else s.crashes.(restarts := s.crashes.restarts + 1))
      && (s.crashes.limit.Some? ==> s.crashes.restarts < s.crashes.limit.value)
  }

  /** The service as a long run leaves it: the loop it may have been in is over. */
  function Refreshed(s: Service, i: Input): Service {
    if LongRunEnded(s, i) then s.(backoff := s.cfg.backoffMin, crashes := s.crashes.(restarts := 0)) else s
  }

  lemma ExitCrashes(s: Service, code: int, i: Input)
    requires s.cfg.restart == Always && s.crashes.settled == s.cfg.backoffMax
    requires s.HasChild() && i.ev == Event.Exited(code)
    ensures var turn := AfterExit(s, code, i.now);
            CrashedTo(Refreshed(s, i), turn.next, turn.out, i.now)
  {
    var turn := AfterExit(s, code, i.now);
    var r := Refreshed(s, i);
    if turn.next.phase.BackingOff? {
      assert turn.out[|turn.out| - 1] == SetTimer(BackoffTimer, i.now + r.backoff);
    }
  }

  lemma SpawnFailureCrashes(s: Service, e: string, now: Instant)
    requires s.cfg.restart != Never && s.crashes.settled >= 0
    ensures var turn := FailSpawn(s, e, now);
            CrashedTo(s, turn.next, turn.out, now)
  {
    var turn := FailSpawn(s, e, now);
    if turn.next.phase.BackingOff? {
      assert turn.out[|turn.out| - 1] == SetTimer(BackoffTimer, now + s.backoff);
    }
  }

  predicate Collapsed(s: Service, t: Service) {
    BacksOff(s, t) || (!s.phase.Parked? && t.phase == Parked(true, true))
  }

  /** What a step does to the delay and the count: a crash's doing, or a reset, or nothing. */
  predicate Effects(s: Service, i: Input, turn: Turn) {
    var t := turn.next;
    if Collapsed(s, t) then
      && CrashedTo(Refreshed(s, i), t, turn.out, i.now)
      && !RestartedRunning(s, t) && !s.phase.Parked? && !s.phase.BackingOff? && i.ev != Probed(ForReady, Pass)
    else
      && t.backoff == (if DelayReset(s, i, t) then s.cfg.backoffMin else s.backoff)
      && t.crashes == (if CountReset(s, i, t) then s.crashes.(restarts := 0) else s.crashes)
  }

  lemma SpawningEffects(s: Service, i: Input)
    requires s.phase.Spawning? && s.crashes.settled == s.cfg.backoffMax
    ensures Effects(s, i, StepSpawning(s, i.ev, i.now))
  {
    if i.ev.SpawnFailed? && s.cfg.restart != Never { SpawnFailureCrashes(s, i.ev.error, i.now); }
  }

  lemma ChildExitedEffects(s: Service, t: Service, code: int, i: Input, said: seq<Action>)
    requires s.HasChild() && s.crashes.settled == s.cfg.backoffMax && i.ev == Event.Exited(code)
    requires t == s || t == GiveUpReadiness(s, i.now).next
    ensures Effects(s, i, After(said, ChildExited(t, code, i.now)))
  {
    GivesUpAlike(s, i.now);
    hide GiveUpReadiness, ChildExited, Effects;
    if s.cfg.restart == Always {
      CrashEffects(s, t, code, i, said);
    } else {
      DeathEffects(s, t, code, i, said);
    }
  }

  /** `t` is `s`, but for what it says of its readiness. */
  predicate Alike(s: Service, t: Service) {
    && t.cfg == s.cfg && t.HasChild() && s.HasChild()
    && t.backoff == s.backoff && t.crashes == s.crashes && t.started == s.started
  }

  lemma CrashEffects(s: Service, t: Service, code: int, i: Input, said: seq<Action>)
    requires Alike(s, t) && s.crashes.settled == s.cfg.backoffMax && i.ev == Event.Exited(code) && s.cfg.restart == Always
    ensures Effects(s, i, After(said, ChildExited(t, code, i.now)))
  {
    hide CancelRunningTimers;
    ExitCrashes(t, code, i);
    AlwaysCollapses(t, code, i.now);
    hide AfterExit;
  }

  lemma DeathEffects(s: Service, t: Service, code: int, i: Input, said: seq<Action>)
    requires Alike(s, t) && i.ev == Event.Exited(code) && s.cfg.restart != Always
    ensures Effects(s, i, After(said, ChildExited(t, code, i.now)))
  {
    hide CrashedTo, CancelRunningTimers;
  }

  lemma GivesUpAlike(s: Service, now: Instant)
    ensures var t := GiveUpReadiness(s, now).next;
            t.phase.InService? && t.backoff == s.backoff && t.crashes == s.crashes && t.started == s.started
  {
  }

  lemma StartupEffects(s: Service, i: Input)
    requires s.phase.InStartup? && s.crashes.settled == s.cfg.backoffMax
    ensures Effects(s, i, StepStartup(s, s.phase.deadline, i.ev, i.deps, i.now))
  {
    if i.ev.Exited? {
      hide ChildExited, Effects;
      var first := GiveUpReadiness(s, i.now);
      ChildExitedEffects(s, first.next, i.ev.code, i, [CancelTimer(ProbeTimer)] + first.out);
    } else {
      StartupStarts(s, i);
      hide StepStartup, CrashedTo;
    }
  }

  /** What a step of startup that is no exit does to the delay and the count. */
  lemma StartupStarts(s: Service, i: Input)
    requires s.phase.InStartup? && !i.ev.Exited?
    ensures var t := StepStartup(s, s.phase.deadline, i.ev, i.deps, i.now).next;
            && (t.phase.InStartup? || t.phase.InService? || t.phase.Ending?)
            && t.crashes == s.crashes
            && t.backoff == (if i.ev == Probed(ForReady, Pass) then s.cfg.backoffMin else s.backoff)
  {
  }

  lemma ServiceEffects(s: Service, i: Input)
    requires s.phase.InService? && s.crashes.settled == s.cfg.backoffMax
    ensures Effects(s, i, StepService(s, i.ev, i.deps, i.now))
  {
    hide StepService, ChildExited, Effects;
    if i.ev.Exited? {
      ChildExitedEffects(s, s, i.ev.code, i, []);
      ExitInService(s, i);
    } else {
      ServingEffects(s, i);
    }
  }

  lemma ExitInService(s: Service, i: Input)
    requires s.phase.InService? && i.ev.Exited?
    ensures StepService(s, i.ev, i.deps, i.now) == After([], ChildExited(s, i.ev.code, i.now))
  {
    hide ChildExited;
    var turn := ChildExited(s, i.ev.code, i.now);
    assert [] + turn.out == turn.out;
  }

  /** What a serving step that is no exit can do to the delay and the count:
      nothing, or the reset that comes with a restart. */
  predicate Serves(s: Service, t: Service) {
    || ((t.phase.InService? || t.phase == Ending(ThenExit)) && t.backoff == s.backoff && t.crashes == s.crashes)
    || (t.phase == Ending(ThenCycle) && t.backoff == s.cfg.backoffMin && t.crashes == s.crashes.(restarts := 0))
  }

  lemma LivenessServes(s: Service, result: ProbeResult, now: Instant)
    requires s.phase.InService?
    ensures Serves(s, LivenessAnswered(s, result, now).next)
  {
  }

  lemma SettleServes(s: Service, c: ReloadCounters, pass: bool, now: Instant)
    requires s.phase.InService?
    ensures Settle(s, c, pass, now).next.phase.InService?
    ensures Serves(s, Settle(s, c, pass, now).next)
  {
  }

  lemma CountersServe(s: Service, c: ReloadCounters, now: Instant)
    requires s.phase.InService?
    ensures Serves(s, CountersRead(s, c, now).next)
  {
    hide Settle;
    forall r: Rebuild {
      SettleServes(s.(phase := s.phase.(rebuild := r, pending := None)), c, true, now);
    }
  }

  lemma ServingServes(s: Service, i: Input)
    requires s.phase.InService? && !i.ev.Exited?
    ensures Serves(s, StepService(s, i.ev, i.deps, i.now).next)
  {
    hide LivenessAnswered, CountersRead, Settle;
    match i.ev
    case Probed(ForLiveness, result) => LivenessServes(s, result, i.now);
    case Counters(c) => CountersServe(s, c, i.now);
    case Probed(ForReload, result) =>
      if s.phase.pending.Some? {
        SettleServes(s.(phase := s.phase.(pending := None)), s.phase.pending.value, result.Pass?, i.now);
      }
    case _ =>
  }

  lemma ServingEffects(s: Service, i: Input)
    requires s.phase.InService? && s.crashes.settled == s.cfg.backoffMax && !i.ev.Exited?
    ensures Effects(s, i, StepService(s, i.ev, i.deps, i.now))
  {
    ServingServes(s, i);
    hide StepService, CrashedTo;
  }

  lemma StartupNeverExits(s: Service, i: Input)
    requires s.phase.InStartup?
    ensures Exit !in StepStartup(s, s.phase.deadline, i.ev, i.deps, i.now).out
    ensures Spawn !in StepStartup(s, s.phase.deadline, i.ev, i.deps, i.now).out
  {
    match i.ev
    case Exited(code) => DeathNeverExits(s, code, i);
    case Probed(ForReady, result) => AnswerNeverExits(s, result, i);
    case _ => hide BecomeReady, ChildExited;
  }

  lemma DeathNeverExits(s: Service, code: int, i: Input)
    requires s.phase.InStartup? && i.ev == Event.Exited(code)
    ensures Exit !in StepStartup(s, s.phase.deadline, i.ev, i.deps, i.now).out
    ensures Spawn !in StepStartup(s, s.phase.deadline, i.ev, i.deps, i.now).out
  {
    hide AfterExit, GiveUpReadiness;
    GivingUpNeverExits(s, i.now);
    AfterExitNeverExits(GiveUpReadiness(s, i.now).next, code, i.now);
  }

  lemma GivingUpNeverExits(s: Service, now: Instant)
    ensures Exit !in GiveUpReadiness(s, now).out && Spawn !in GiveUpReadiness(s, now).out
  {
  }

  lemma AnswerNeverExits(s: Service, result: ProbeResult, i: Input)
    requires s.phase.InStartup? && i.ev == Probed(ForReady, result)
    ensures Exit !in StepStartup(s, s.phase.deadline, i.ev, i.deps, i.now).out
    ensures Spawn !in StepStartup(s, s.phase.deadline, i.ev, i.deps, i.now).out
  {
    GivingUpNeverExits(s, i.now);
    hide GiveUpReadiness, ChildExited;
  }

  lemma AfterExitNeverExits(s: Service, code: int, now: Instant)
    ensures Exit !in AfterExit(s, code, now).out
    ensures Spawn !in AfterExit(s, code, now).out
  {
  }

  lemma ServiceNeverExits(s: Service, i: Input)
    requires s.phase.InService?
    ensures Exit !in StepService(s, i.ev, i.deps, i.now).out
    ensures Spawn !in StepService(s, i.ev, i.deps, i.now).out
  {
    hide StepService;
    match i.ev
    case Exited(_) => ExitNeverExits(s, i);
    case Probed(_, _) => AnswerInServiceNeverExits(s, i);
    case Counters(_) => CountsInServiceNeverExit(s, i);
    case _ => OthersNeverExit(s, i);
  }

  lemma CountsInServiceNeverExit(s: Service, i: Input)
    requires s.phase.InService? && i.ev.Counters?
    ensures Exit !in StepService(s, i.ev, i.deps, i.now).out
    ensures Spawn !in StepService(s, i.ev, i.deps, i.now).out
  {
    PollNeverExits(s, i.ev.counters, i.now);
    hide CountersRead;
  }

  lemma OthersNeverExit(s: Service, i: Input)
    requires s.phase.InService? && !i.ev.Exited? && !i.ev.Probed? && !i.ev.Counters?
    ensures Exit !in StepService(s, i.ev, i.deps, i.now).out
    ensures Spawn !in StepService(s, i.ev, i.deps, i.now).out
  {
  }

  lemma ExitNeverExits(s: Service, i: Input)
    requires s.phase.InService? && i.ev.Exited?
    ensures Exit !in StepService(s, i.ev, i.deps, i.now).out
    ensures Spawn !in StepService(s, i.ev, i.deps, i.now).out
  {
    hide AfterExit;
    AfterExitNeverExits(s, i.ev.code, i.now);
  }

  lemma AnswerInServiceNeverExits(s: Service, i: Input)
    requires s.phase.InService? && i.ev.Probed?
    ensures Exit !in StepService(s, i.ev, i.deps, i.now).out
    ensures Spawn !in StepService(s, i.ev, i.deps, i.now).out
  {
    hide LivenessAnswered, Settle;
    match i.ev
    case Probed(ForLiveness, result) => LivenessNeverExits(s, result, i.now);
    case Probed(ForReload, result) =>
      if s.phase.pending.Some? {
        SettleNeverExits(s.(phase := s.phase.(pending := None)), s.phase.pending.value, result.Pass?, i.now);
      }
    case _ =>
  }

  lemma LivenessNeverExits(s: Service, result: ProbeResult, now: Instant)
    requires s.phase.InService?
    ensures Exit !in LivenessAnswered(s, result, now).out
    ensures Spawn !in LivenessAnswered(s, result, now).out
  {
  }

  lemma SettleNeverExits(s: Service, c: ReloadCounters, pass: bool, now: Instant)
    requires s.phase.InService?
    ensures Exit !in Settle(s, c, pass, now).out
    ensures Spawn !in Settle(s, c, pass, now).out
  {
  }

  lemma PollNeverExits(s: Service, c: ReloadCounters, now: Instant)
    requires s.phase.InService?
    ensures Exit !in CountersRead(s, c, now).out
    ensures Spawn !in CountersRead(s, c, now).out
  {
    hide Settle;
    forall r: Rebuild, pass: bool
      ensures var out := Settle(s.(phase := s.phase.(rebuild := r, pending := None)), c, pass, now).out;
              Exit !in out && Spawn !in out
    {
      SettleNeverExits(s.(phase := s.phase.(rebuild := r, pending := None)), c, pass, now);
    }
  }

  lemma SpawningOnEffects(s: Service, i: Input)
    requires s.phase.Spawning? && s.crashes.settled == s.cfg.backoffMax
    ensures Effects(s, i, On(s, i.ev, i.deps, i.now))
  {
    SpawningEffects(s, i);
  }

  lemma EveryStepEffects(s: Service, i: Input)
    requires s.crashes.settled == s.cfg.backoffMax
    ensures Effects(s, i, On(s, i.ev, i.deps, i.now))
  {
    hide StepStartup, StepService, StepSpawning;
    match s.phase
    case Spawning =>
      hide On, Effects;
      SpawningOnEffects(s, i);
    case InStartup(_) =>
      hide Effects;
      StartupEffects(s, i);
      StartupNeverExits(s, i);
    case InService(_, _, _) =>
      hide Effects;
      ServiceEffects(s, i);
      ServiceNeverExits(s, i);
    case _ =>
  }

  // ------------------------------------------------------------------
  // Over every run

  lemma AdvanceKeeps(cfg: ServiceConfig, k: Tracked, i: Input)
    requires cfg.backoffMin <= cfg.backoffMax && CrashInv(cfg, k)
    ensures CrashInv(cfg, Advance(k, i))
  {
    hide On;
    EveryStepEffects(k.s, i);
    Doubles(cfg, k.delays);
    Doubles(cfg, 0);
    assert Delay(cfg, 0) == cfg.backoffMin;
  }

  lemma {:induction false} TrackKeeps(cfg: ServiceConfig, inputs: seq<Input>)
    requires cfg.backoffMin <= cfg.backoffMax
    ensures CrashInv(cfg, Track(cfg, inputs))
    decreases |inputs|
  {
    assert Delay(cfg, 0) == Min(cfg.backoffMin * 1, cfg.backoffMax);
    if inputs != [] {
      TrackKeeps(cfg, inputs[..|inputs|-1]);
      AdvanceKeeps(cfg, Track(cfg, inputs[..|inputs|-1]), inputs[|inputs|-1]);
    }
  }

  lemma OneDelay(cfg: ServiceConfig, k: Tracked, i: Input)
    requires cfg.backoffMin <= cfg.backoffMax && CrashInv(cfg, k)
    requires BacksOff(k.s, On(k.s, i.ev, i.deps, i.now).next)
    ensures var turn := On(k.s, i.ev, i.deps, i.now);
            var nth := if DelayReset(k.s, i, turn.next) then 0 else k.delays;
            SetTimer(BackoffTimer, i.now + Delay(cfg, nth)) in turn.out
  {
    hide On, Delay;
    FirstDelayObeys(cfg);
    EveryStepEffects(k.s, i);
  }

  /** The delay law: after any run, a service that backs off sleeps the delay
      belonging to how often it has since the delays last started over. */
  lemma DelaysDouble(cfg: ServiceConfig, inputs: seq<Input>, i: Input)
    requires cfg.backoffMin <= cfg.backoffMax
    requires BacksOff(Track(cfg, inputs).s, On(Track(cfg, inputs).s, i.ev, i.deps, i.now).next)
    ensures var k := Track(cfg, inputs);
            var turn := On(k.s, i.ev, i.deps, i.now);
            var nth := if DelayReset(k.s, i, turn.next) then 0 else k.delays;
            SetTimer(BackoffTimer, i.now + Delay(cfg, nth)) in turn.out
  {
    hide On, CrashInv, DelayReset, BacksOff;
    TrackKeeps(cfg, inputs);
    OneDelay(cfg, Track(cfg, inputs), i);
  }

  /** Without the ordering of the two bounds the first delay breaks the ceiling;
      with it, it is the floor: the first delay obeys the law exactly then. */
  lemma FirstDelayObeys(cfg: ServiceConfig)
    ensures NewService(cfg).backoff == Delay(cfg, 0) <==> cfg.backoffMin <= cfg.backoffMax
  {
    assert Delay(cfg, 0) == Min(cfg.backoffMin * 1, cfg.backoffMax);
  }

  // ------------------------------------------------------------------
  // After giving up

  /** What can end a park: a request, a moved dependency, or a stop. */
  predicate Wakes(s: Service, i: Input) {
    i.ev.Stop? || WakeReason(s.seen, i.ev, i.deps).Some?
  }

  function RunFrom(s: Service, inputs: seq<Input>): Service
    decreases |inputs|
  {
    if inputs == [] then s
    else RunFrom(On(s, inputs[0].ev, inputs[0].deps, inputs[0].now).next, inputs[1..])
  }

  /** A parked service does nothing at all until something wakes it: no event but
      those is answered with any action, so nothing is spawned. */
  lemma {:induction false} ParkedStays(s: Service, inputs: seq<Input>)
    requires s.phase.Parked?
    requires forall i <- inputs :: !Wakes(s, i)
    ensures RunFrom(s, inputs) == s
    ensures forall i <- inputs :: On(s, i.ev, i.deps, i.now).out == []
    decreases |inputs|
  {
    if inputs != [] {
      var i := inputs[0];
      assert !Wakes(s, i);
      assert On(s, i.ev, i.deps, i.now) == Turn(s, []);
      ParkedStays(s, inputs[1..]);
      assert inputs == [i] + inputs[1..];
    }
  }

  // ------------------------------------------------------------------
  // The crash limit

  /** The count since it last started over is the one the program keeps, and
      never more than the limit. */
  predicate CountInv(cfg: ServiceConfig, k: Tracked) {
    && k.s.cfg == cfg
    && k.s.crashes.limit == cfg.maxRestarts && k.s.crashes.settled == cfg.backoffMax
    && (cfg.maxRestarts.Some? ==> k.s.crashes.restarts == k.restarts <= cfg.maxRestarts.value)
  }

  lemma AdvanceCounts(cfg: ServiceConfig, k: Tracked, i: Input)
    requires CountInv(cfg, k)
    ensures CountInv(cfg, Advance(k, i))
  {
    hide On;
    EveryStepEffects(k.s, i);
  }

  /** Somebody asked for a new cycle that is no crash's doing: a startup was
      interrupted, or a service at rest woken. */
  predicate Asked(s: Service, i: Input, t: Service) {
    || (s.phase.InStartup? && t.phase == Ending(ThenCycle))
    || ((s.phase.Parked? || s.phase.Served?) && t.phase.AtGate? && !CountReset(s, i, t))
  }

  /** On the way to a spawn. */
  predicate Heading(ph: Phase) {
    ph.AtGate? || ph.Reclaiming? || ph.AwaitingSlot? || ph.BackingOff? || ph == Ending(ThenCycle)
  }

  /** What is counted since the crash count last started over: backoffs,
      processes spawned, and cycles asked for. */
  datatype Loop = Loop(k: Tracked, spawns: nat, asked: nat)

  function Turned(l: Loop, i: Input): Loop {
    var turn := On(l.k.s, i.ev, i.deps, i.now);
    var reset := CountReset(l.k.s, i, turn.next);
    Loop(Advance(l.k, i),
         (if reset then 0 else l.spawns) + (if Spawn in turn.out then 1 else 0),
         (if reset then 0 else l.asked) + (if Asked(l.k.s, i, turn.next) then 1 else 0))
  }

  function Looped(cfg: ServiceConfig, inputs: seq<Input>): Loop {
    if inputs == [] then Loop(Track(cfg, []), 0, 0)
    else Turned(Looped(cfg, inputs[..|inputs|-1]), inputs[|inputs|-1])
  }

  /** A spawn is paid for by the cycle that leads to it, and a cycle begins with
      a backoff, a reset, or a request. */
  predicate Paid(s: Service, i: Input, turn: Turn) {
    var t := turn.next;
    && (Spawn in turn.out ==> s.phase.AwaitingSlot? && !Heading(t.phase))
    && (Heading(t.phase) && !Heading(s.phase) ==> BacksOff(s, t) || Asked(s, i, t) || CountReset(s, i, t))
  }

  lemma StartupPaid(s: Service, i: Input)
    requires s.phase.InStartup?
    ensures Paid(s, i, StepStartup(s, s.phase.deadline, i.ev, i.deps, i.now))
  {
    hide AfterExit, CountReset;
    StartupNeverExits(s, i);
    if i.ev.Exited? { ExitRests(GiveUpReadiness(s, i.now).next, i.ev.code, i.now); }
  }

  lemma ExitRests(s: Service, code: int, now: Instant)
    ensures var ph := AfterExit(s, code, now).next.phase; ph.Parked? || ph.BackingOff?
  {
  }

  lemma ServicePaid(s: Service, i: Input)
    requires s.phase.InService?
    ensures Paid(s, i, StepService(s, i.ev, i.deps, i.now))
  {
    ServiceNeverExits(s, i);
    if i.ev.Exited? {
      ExitInService(s, i);
      ExitRests(s, i.ev.code, i.now);
    } else {
      ServingServes(s, i);
    }
    hide StepService, AfterExit;
  }

  lemma SpawningPaid(s: Service, i: Input)
    requires s.phase.Spawning?
    ensures Paid(s, i, StepSpawning(s, i.ev, i.now))
  {
  }

  lemma CyclePaid(s: Service, deps: Deps)
    ensures Cycle(s, deps).next.phase.AtGate? && Spawn !in Cycle(s, deps).out
  {
  }

  lemma ParkedPaid(s: Service, i: Input)
    requires s.phase.Parked?
    ensures Paid(s, i, StepParked(s, i.ev, i.deps))
  {
    hide Cycle;
    CyclePaid(if s.phase.reset then s.(crashes := s.crashes.(restarts := 0)) else s, i.deps);
  }

  lemma BackoffPaid(s: Service, i: Input)
    requires s.phase.BackingOff?
    ensures Paid(s, i, StepBackoff(s, i.ev, i.deps))
  {
    hide Cycle;
    CyclePaid(s, i.deps);
    CyclePaid(s.(backoff := s.cfg.backoffMin, crashes := s.crashes.(restarts := 0)), i.deps);
  }

  lemma EveryStepPaid(s: Service, i: Input)
    ensures Paid(s, i, Step(s, i.ev, i.deps, i.now))
  {
    hide StepStartup, StepService, StepSpawning, StepBackoff, StepParked;
    match s.phase
    case Spawning => SpawningPaid(s, i);
    case InStartup(_) => StartupPaid(s, i);
    case InService(_, _, _) => ServicePaid(s, i);
    case BackingOff => BackoffPaid(s, i);
    case Parked(_, _) => ParkedPaid(s, i);
    case _ =>
  }

  lemma OnPaid(s: Service, i: Input)
    ensures Paid(s, i, On(s, i.ev, i.deps, i.now))
  {
    hide Step;
    EveryStepPaid(s, i);
  }

  predicate LoopInv(cfg: ServiceConfig, l: Loop) {
    && CountInv(cfg, l.k)
    && l.spawns + (if Heading(l.k.s.phase) then 1 else 0) <= 1 + l.k.restarts + l.asked
  }

  lemma TurnKeeps(cfg: ServiceConfig, l: Loop, i: Input)
    requires LoopInv(cfg, l)
    ensures LoopInv(cfg, Turned(l, i))
  {
    hide On, CountReset;
    AdvanceCounts(cfg, l.k, i);
    OnPaid(l.k.s, i);
    if CountReset(l.k.s, i, On(l.k.s, i.ev, i.deps, i.now).next) { ResetHeads(l.k.s, i); }
  }

  /** The count starts over where nothing is being spawned. */
  lemma ResetHeads(s: Service, i: Input)
    requires CountReset(s, i, On(s, i.ev, i.deps, i.now).next)
    ensures !s.phase.AwaitingSlot?
  {
  }

  lemma {:induction false} LoopsKeep(cfg: ServiceConfig, inputs: seq<Input>)
    ensures LoopInv(cfg, Looped(cfg, inputs))
    ensures Looped(cfg, inputs).k == Track(cfg, inputs)
    decreases |inputs|
  {
    hide LoopInv, On;
    if inputs == [] {
      LoopStarts(cfg);
    } else {
      LoopsKeep(cfg, inputs[..|inputs|-1]);
      TurnKeeps(cfg, Looped(cfg, inputs[..|inputs|-1]), inputs[|inputs|-1]);
    }
  }

  lemma LoopStarts(cfg: ServiceConfig)
    ensures LoopInv(cfg, Looped(cfg, []))
  {
  }

  /** A child that died, or could not be started, under a policy to restart it. */
  predicate Crashes(s: Service, ev: Event) {
    || (s.HasChild() && ev.Exited? && s.cfg.restart == Always)
    || (s.phase.Spawning? && ev.SpawnFailed? && s.cfg.restart != Never)
  }

  /** Crashes since the count last started over, as a crash at `i` finds it. */
  function Earned(k: Tracked, i: Input): nat {
    if LongRunEnded(k.s, i) then 0 else k.restarts
  }

  lemma CrashCollapses(s: Service, i: Input)
    requires Crashes(s, i.ev)
    ensures Collapsed(s, On(s, i.ev, i.deps, i.now).next)
  {
    hide AfterExit;
    if s.phase.InStartup? {
      var first := GiveUpReadiness(s, i.now).next;
      StartupNeverExits(s, i);
      AlwaysCollapses(first, i.ev.code, i.now);
    } else if s.phase.InService? {
      ServiceNeverExits(s, i);
      AlwaysCollapses(s, i.ev.code, i.now);
    } else {
      hide StepGate, StepBackoff, StepParked;
    }
  }

  lemma AlwaysCollapses(s: Service, code: int, now: Instant)
    requires s.cfg.restart == Always
    ensures var ph := AfterExit(s, code, now).next.phase; ph.BackingOff? || ph == Parked(true, true)
  {
  }

  /** A crash parks the service exactly when the limit is spent. */
  lemma CrashAtLimit(cfg: ServiceConfig, k: Tracked, i: Input)
    requires CountInv(cfg, k) && Crashes(k.s, i.ev) && cfg.maxRestarts.Some?
    ensures On(k.s, i.ev, i.deps, i.now).next.phase == Parked(true, true) <==> Earned(k, i) == cfg.maxRestarts.value
  {
    hide On;
    CrashCollapses(k.s, i);
    EveryStepEffects(k.s, i);
  }

  /** Crash loops are bounded, over every history and for any two bounds of the
      delay. Between two resets of the count there are at most as many backoffs
      as the limit, and at most one process more, besides those of cycles that
      were asked for. The crash that finds the limit spent, and no other, parks
      the service; nothing is done then, and so nothing spawned, until a request,
      a stop, or a dependency that moved. */
  lemma RestartsBounded(cfg: ServiceConfig, inputs: seq<Input>, i: Input, quiet: seq<Input>)
    requires cfg.maxRestarts.Some?
    ensures var l := Looped(cfg, inputs);
            && l.k == Track(cfg, inputs)
            && l.k.restarts <= cfg.maxRestarts.value
            && l.spawns <= cfg.maxRestarts.value + 1 + l.asked
    ensures var k := Track(cfg, inputs);
            var t := On(k.s, i.ev, i.deps, i.now).next;
            Crashes(k.s, i.ev) ==>
              && (t.phase == Parked(true, true) <==> Earned(k, i) == cfg.maxRestarts.value)
              && (Earned(k, i) == cfg.maxRestarts.value && (forall q <- quiet :: !Wakes(t, q)) ==>
                    && RunFrom(t, quiet) == t
                    && forall q <- quiet :: On(t, q.ev, q.deps, q.now).out == [])
  {
    hide On, CountInv;
    LoopsKeep(cfg, inputs);
    LoopMeans(cfg, Looped(cfg, inputs));
    var k := Track(cfg, inputs);
    var t := On(k.s, i.ev, i.deps, i.now).next;
    if Crashes(k.s, i.ev) {
      CrashAtLimit(cfg, k, i);
      if t.phase.Parked? && forall q <- quiet :: !Wakes(t, q) { ParkedStays(t, quiet); }
    }
  }

  lemma LoopMeans(cfg: ServiceConfig, l: Loop)
    requires LoopInv(cfg, l) && cfg.maxRestarts.Some?
    ensures CountInv(cfg, l.k) && l.k.restarts <= cfg.maxRestarts.value
    ensures l.spawns <= cfg.maxRestarts.value + 1 + l.asked
  {
  }

  const NeverAgain := ServiceConfig(
    true, None, true, 1, 100, 10, Always, RestartIt, None, ByRestart, false, None, 1, 8, Some(0))

  function NeverIn(ph: Phase, seen: seq<nat>, started: Option<Instant>): Service {
    NewService(NeverAgain).(phase := ph, seen := seen, started := started)
  }

  /** One more event, where it leads and what is counted. */
  lemma LoopOn(inputs: seq<Input>, i: Input, s: Service, spawns: nat, asked: nat) returns (more: seq<Input>)
    requires Looped(NeverAgain, inputs) == Loop(Tracked(s, 0, 0), spawns, asked)
    requires var t := On(s, i.ev, i.deps, i.now).next;
             !CountReset(s, i, t) && !DelayReset(s, i, t) && !BacksOff(s, t)
    ensures var turn := On(s, i.ev, i.deps, i.now);
            Looped(NeverAgain, more) == Loop(Tracked(turn.next, 0, 0),
                                             spawns + (if Spawn in turn.out then 1 else 0),
                                             asked + (if Asked(s, i, turn.next) then 1 else 0))
  {
    hide On, CountReset, DelayReset, BacksOff;
    more := inputs + [i];
    assert more[..|more| - 1] == inputs;
  }

  /** From an open gate to a process in startup. */
  lemma SpawnsOnce(inputs: seq<Input>, deps: Deps, seen: seq<nat>, started: Option<Instant>, spawns: nat, asked: nat)
    returns (more: seq<Input>)
    requires Looped(NeverAgain, inputs) == Loop(Tracked(NeverIn(AtGate(Draining), seen, started), 0, 0), spawns, asked)
    ensures Looped(NeverAgain, more)
         == Loop(Tracked(NeverIn(InStartup(100), deps.generations, Some(0)), 0, 0), spawns + 1, asked)
  {
    GateTurn(deps, seen, started);
    SlotTurn(deps, started);
    ChildTurn(deps, started);
    hide Looped, On, CountReset, DelayReset, BacksOff, Asked;
    more := LoopOn(inputs, Input(Drained(false), deps, 0), NeverIn(AtGate(Draining), seen, started), spawns, asked);
    more := LoopOn(more, Input(SlotAcquired, deps, 0), NeverIn(AwaitingSlot, deps.generations, started), spawns, asked);
    more := LoopOn(more, Input(Spawned, deps, 0), NeverIn(Spawning, deps.generations, started), spawns + 1, asked);
  }

  /** A turn that neither resets the counts nor backs off. */
  predicate Plain(s: Service, i: Input, t: Service) {
    !CountReset(s, i, t) && !DelayReset(s, i, t) && !BacksOff(s, t)
  }

  lemma GateTurn(deps: Deps, seen: seq<nat>, started: Option<Instant>)
    ensures var s, i := NeverIn(AtGate(Draining), seen, started), Input(Drained(false), deps, 0);
            var turn := On(s, i.ev, i.deps, i.now);
            && turn.next == NeverIn(AwaitingSlot, deps.generations, started) && Spawn !in turn.out
            && Plain(s, i, turn.next) && !Asked(s, i, turn.next)
  {
    hide StepService, StepStartup, StepSpawning, StepBackoff, StepParked;
  }

  lemma SlotTurn(deps: Deps, started: Option<Instant>)
    ensures var s, i := NeverIn(AwaitingSlot, deps.generations, started), Input(SlotAcquired, deps, 0);
            var turn := On(s, i.ev, i.deps, i.now);
            && turn.next == NeverIn(Spawning, deps.generations, started) && Spawn in turn.out
            && Plain(s, i, turn.next) && !Asked(s, i, turn.next)
  {
    hide StepService, StepStartup, StepSpawning, StepBackoff, StepParked, StepGate;
    assert [SetStatus(Status.Starting), Spawn][1] == Spawn;
  }

  lemma ChildTurn(deps: Deps, started: Option<Instant>)
    ensures var s, i := NeverIn(Spawning, deps.generations, started), Input(Spawned, deps, 0);
            var turn := On(s, i.ev, i.deps, i.now);
            && turn.next == NeverIn(InStartup(100), deps.generations, Some(0)) && Spawn !in turn.out
            && Plain(s, i, turn.next) && !Asked(s, i, turn.next)
  {
    hide StepService, StepStartup, StepBackoff, StepParked, StepGate, BecomeReady;
  }

  const Unmoved := Deps(None, [1], ["db"])
  const Moved := Deps(None, [2], ["db"])

  /** A service in startup is stopped because its dependency moved. */
  lemma Interrupted() returns (inputs: seq<Input>)
    ensures Looped(NeverAgain, inputs) == Loop(Tracked(NeverIn(Ending(ThenCycle), [1], Some(0)), 0, 0), 1, 1)
  {
    LoopBegins();
    FirstTurns();
    hide Looped, On, CountReset, DelayReset, BacksOff, Asked;
    inputs := LoopOn([], Input(Board, Unmoved, 0), NeverIn(AtGate(WaitingOnDeps), [], None), 0, 0);
    inputs := SpawnsOnce(inputs, Unmoved, [], None, 0, 0);
    inputs := LoopOn(inputs, Input(Board, Moved, 0), NeverIn(InStartup(100), [1], Some(0)), 1, 0);
  }

  lemma FirstTurns()
    ensures var s, i := NeverIn(AtGate(WaitingOnDeps), [], None), Input(Board, Unmoved, 0);
            var turn := On(s, i.ev, i.deps, i.now);
            && turn.next == NeverIn(AtGate(Draining), [], None) && Spawn !in turn.out
            && Plain(s, i, turn.next) && !Asked(s, i, turn.next)
    ensures var s, i := NeverIn(InStartup(100), [1], Some(0)), Input(Board, Moved, 0);
            var turn := On(s, i.ev, i.deps, i.now);
            && turn.next == NeverIn(Ending(ThenCycle), [1], Some(0)) && Spawn !in turn.out
            && Plain(s, i, turn.next) && Asked(s, i, turn.next)
  {
    hide StepService, StepSpawning, StepBackoff, StepParked;
    assert DependencyMoved(NeverIn(InStartup(100), [1], Some(0)), Moved).Some?;
  }

  /** The requests count: a dependency that moves during startup has the process
      started a second time, without a backoff and without a reset, at limit 0. */
  lemma AskedSpawnsAgain() returns (inputs: seq<Input>)
    ensures Looped(NeverAgain, inputs).spawns == 2
    ensures Looped(NeverAgain, inputs).asked == 1 && Looped(NeverAgain, inputs).k.restarts == 0
  {
    hide Looped, StepService, StepStartup, StepSpawning, StepBackoff, StepParked;
    inputs := Interrupted();
    inputs := LoopOn(inputs, Input(ChildStopped, Moved, 0), NeverIn(Ending(ThenCycle), [1], Some(0)), 1, 1);
    inputs := SpawnsOnce(inputs, Moved, [1], Some(0), 1, 1);
  }

  lemma LoopBegins()
    ensures Looped(NeverAgain, []) == Loop(Tracked(NeverIn(AtGate(WaitingOnDeps), [], None), 0, 0), 0, 0)
  {
  }
}
