/** What a supervisor decides. The decisions are functions of an event, a
    snapshot of the dependencies and the time; the imperative machines in
    `LifecycleMachine` are proved to compute exactly these functions. */
module Lifecycle {
  import opened Status

  // ------------------------------------------------------------------
  // Inputs

  /** A snapshot of the board, as far as one node depends on it. */
  datatype Deps = Deps(unready: Option<Name>, generations: seq<nat>, names: seq<Name>)
  {
    /** A dependency, the earliest listed, that is not at the generation noted in `seen`. */
    function MovedSince(seen: seq<nat>): (d: Option<Name>)
      ensures d.None? <==> forall i :: 0 <= i < Shared(seen) ==> generations[i] == seen[i]
      ensures d.Some? ==> exists i ::
                  && 0 <= i < Shared(seen) && generations[i] != seen[i] && d.value == names[i]
                  && forall j :: 0 <= j < i ==> generations[j] == seen[j]
    {
      MovedFrom(seen, 0)
    }

    function Shared(seen: seq<nat>): nat {
      Min(|names|, Min(|generations|, |seen|))
    }

    function MovedFrom(seen: seq<nat>, from: nat): (d: Option<Name>)
      requires from <= Shared(seen)
      ensures d.None? <==> forall i :: from <= i < Shared(seen) ==> generations[i] == seen[i]
      ensures d.Some? ==> exists i ::
                  && from <= i < Shared(seen) && generations[i] != seen[i] && d.value == names[i]
                  && forall j :: from <= j < i ==> generations[j] == seen[j]
      decreases Shared(seen) - from
    {
      if from == Shared(seen) then None
      else if generations[from] != seen[from] then Some(names[from])
      else MovedFrom(seen, from + 1)
    }
  }

  datatype Timer = ProbeTimer | BackoffTimer | LivenessTimer | ReloadPoll

  datatype Purpose = ForReady | ForReload | ForLiveness

  /** Text the machines put in logs and reasons, kept structured: what is said,
      not how it is spelled. */
  datatype Text =
    | Given(text: string)
    | Restarting(why: Text)
    | MidStartup(why: Text)
    | DependencyChanged(dep: Name)
    | DependencyRebuilding(dep: Name)
    | DependencyNewResult(dep: Name)
    | CannotSpawn(error: string)
    | GaveUp(restarts: nat)
    | LastAttempt(why: Text)
    | NeverPassed
    | NotReadyWithin(limit: Duration)
    | NotAnswering(misses: nat, why: Text)
    | AnsweringAgain
    | SignalMissing
    | RebuildingItself
    | ReportedFailure
    | RebuildFailed
    | RebuildErrors(count: nat)
    | RebuildTooSlow(limit: Duration)
    | ReloadFailed(why: Text)
    | ReloadedItself

  datatype ProbeResult = Pass | Miss(why: Text)

  /** The output counters kept for a self-reloading process. */
  datatype ReloadCounters = ReloadCounters(
    reloadMatches: nat,
    readyMatches: nat,
    readyMatchesAtReload: nat,
    errors: nat,
    failures: nat)

  datatype Event =
    | Begin
    | Board
    | Restart(why: Text)
    | Stop
    | Drained(stop: bool)
    | PortReclaimed
    | SlotAcquired
    | Spawned
    | SpawnFailed(error: string)
    | Exited(code: int)
    | ChildStopped
    | TimerFired(timer: Timer)
    | Probed(purpose: Purpose, result: ProbeResult)
    | Counters(counters: ReloadCounters)
    | JobDone(code: int, cached: bool)

  // ------------------------------------------------------------------
  // Outputs

  datatype Action =
    | SetStatus(status: Status)
    | SetReason(reason: Text)
    | Log(line: Text)
    | Fail(error: Text, code: int)
    | CountRestart(reason: Text)
    | DrainControl
    | ReclaimPort(port: nat)
    | AcquireSlot
    | ReleaseSlot
    | Spawn
    | StopChild(grace: Duration)
    | Signal(sig: int, reason: Text)
    | Probe(purpose: Purpose)
    | ReadReloadCounters
    | SetTimer(timer: Timer, at: Instant)
    | CancelTimer(timer: Timer)
    | ReloadBrowser
    | RunJob
    | Exit

  // ------------------------------------------------------------------
  // Configuration

  datatype RestartPolicy = Always | OnlyOnChange | Never
  datatype OnChange = RestartIt | Queue | SignalIt | Ignore
  datatype Reload = ByRestart | SelfManaged

  datatype LivenessConfig = LivenessConfig(every: Duration, failures: nat)

  datatype ServiceConfig = ServiceConfig(
    hasCmd: bool,
    port: Option<nat>,
    probed: bool,
    probeInterval: Duration,
    readyTimeout: Duration,
    stopTimeout: Duration,
    restart: RestartPolicy,
    onChange: OnChange,
    signal: Option<int>,
    reload: Reload,
    followsReloads: bool,
    liveness: Option<LivenessConfig>,
    backoffMin: Duration,
    backoffMax: Duration,
    maxRestarts: Option<nat>)
  {
    /** What `from_node` guarantees: only a self-managed process is followed. */
    predicate Valid() {
      followsReloads ==> reload == SelfManaged
    }
  }

  // ------------------------------------------------------------------
  // The gate every cycle starts with

  datatype Gate = WaitingOnDeps | Draining

  datatype Gated =
    | Wait(gate: Gate, acts: seq<Action>)
    | Open(seen: seq<nat>)
    | Ended(gate: Gate, acts: seq<Action>)

  const EndAtGate: seq<Action> := [SetStatus(Status.Stopped), Exit]

  function GateOn(gate: Gate, ev: Event, deps: Deps): Gated {
    if ev == Stop then Ended(gate, EndAtGate)
    else if gate == Draining then
      if ev == Drained(true) then Ended(gate, EndAtGate)
      else if ev == Drained(false) then Open(deps.generations)
      else Wait(gate, [])
    else
      match deps.unready
      case Some(dep) => Wait(WaitingOnDeps, [SetStatus(Status.Waiting(dep))])
      case None => Wait(Draining, [DrainControl])
  }

  // ------------------------------------------------------------------
  // A service

  datatype Crashes = Crashes(limit: Option<nat>, settled: Duration, restarts: nat)
  {
    /** A crash that ended a run of length `ran`: how the count goes on, and whether
        it was already at the limit. */
    function Record(ran: Duration): (Crashes, bool) {
      var base := if ran > settled then this.(restarts := 0) else this;
      match limit
      case None => (base, false)
      case Some(max) =>
        if base.restarts >= max then (base, true)
        else (base.(restarts := base.restarts + 1), false)
    }
  }

  datatype Rebuild =
    | Off
    | Unknown(ready: bool)
    | UpToDate(seen: nat)
    | Rebuilding(seen: nat, deadline: Instant)
    | NotReady(seen: nat)
  {
    function Seen(): nat {
      if UpToDate? || Rebuilding? || NotReady? then seen else 0
    }
  }

  datatype Alive = Alive(every: Duration, failures: nat, misses: nat, tookDown: bool)

  datatype Then = ThenExit | ThenCycle

  datatype Phase =
    | AtGate(gate: Gate)
    | Reclaiming
    | AwaitingSlot
    | Spawning
    | InStartup(deadline: Instant)
    | InService(rebuild: Rebuild, alive: Option<Alive>, pending: Option<ReloadCounters>)
    | Ending(next: Then)
    | BackingOff
    | Parked(announce: bool, reset: bool)
    | Served
    | Finished

  datatype Service = Service(
    cfg: ServiceConfig,
    phase: Phase,
    seen: seq<nat>,
    backoff: Duration,
    crashes: Crashes,
    started: Option<Instant>)
  {
    predicate HasChild() {
      phase.InStartup? || phase.InService?
    }
  }

  function NewService(cfg: ServiceConfig): Service {
    Service(cfg, AtGate(WaitingOnDeps), [], cfg.backoffMin,
            Crashes(cfg.maxRestarts, cfg.backoffMax, 0), None)
  }

  /** A machine after one event, and what it asks for. */
  datatype Turn = Turn(next: Service, out: seq<Action>)

  /** `turn` preceded by `acts`. */
  function After(acts: seq<Action>, turn: Turn): Turn {
    Turn(turn.next, acts + turn.out)
  }

  function On(s: Service, ev: Event, deps: Deps, now: Instant): (turn: Turn)
    ensures turn.next.cfg == s.cfg
  {
    var t := Step(s, ev, deps, now);
    if Exit in t.out then t.(next := t.next.(phase := Finished)) else t
  }

  function Step(s: Service, ev: Event, deps: Deps, now: Instant): (turn: Turn)
    ensures turn.next.cfg == s.cfg
  {
    match s.phase
    case Finished => Turn(s, [])
    case AtGate(gate) => StepGate(s, gate, ev, deps)
    case Reclaiming =>
      if ev.PortReclaimed? then Acquire(s)
      else if ev.Stop? then ExitStopped(s)
      else Turn(s, [])
    case AwaitingSlot =>
      if ev.SlotAcquired? then
        Turn(s.(phase := Spawning), [SetStatus(Status.Starting), Spawn])
      else if ev.Stop? then ExitStopped(s)
      else Turn(s, [])
    case Spawning => StepSpawning(s, ev, now)
    case InStartup(deadline) => StepStartup(s, deadline, ev, deps, now)
    case InService(_, _, _) => StepService(s, ev, deps, now)
    case Ending(next) =>
      if !ev.ChildStopped? then Turn(s, [])
      else if next.ThenExit? then Turn(s, [Exit])
      else Cycle(s, deps)
    case BackingOff => StepBackoff(s, ev, deps)
    case Parked(_, _) => StepParked(s, ev, deps)
    case Served =>
      if ev.Stop? then Turn(s, [Exit])
      else if ev.Restart? || (ev.Board? && deps.MovedSince(s.seen).Some?) then Cycle(s, deps)
      else Turn(s, [])
  }

  function StepGate(s: Service, gate: Gate, ev: Event, deps: Deps): (turn: Turn)
    ensures turn.next.cfg == s.cfg
  {
    match GateOn(gate, ev, deps)
    case Wait(g, acts) => Turn(s.(phase := AtGate(g)), acts)
    case Ended(g, acts) => Turn(s.(phase := AtGate(g)), acts)
    case Open(seen) => AfterGate(s.(phase := AtGate(gate), seen := seen))
  }

  function AfterGate(s: Service): (turn: Turn)
    ensures turn.next.cfg == s.cfg
  {
    if !s.cfg.hasCmd then
      Turn(s.(phase := Served), [SetStatus(Status.Healthy)])
    else
      match s.cfg.port
      case Some(port) => Turn(s.(phase := Reclaiming), [ReclaimPort(port)])
      case None => Acquire(s)
  }

  /** A new cycle: back to the gate, evaluated at once. */
  function Cycle(s: Service, deps: Deps): (turn: Turn)
    ensures turn.next.cfg == s.cfg
  {
    StepGate(s, WaitingOnDeps, Board, deps)
  }

  function Acquire(s: Service): (turn: Turn)
    ensures turn.next.cfg == s.cfg
  {
    Turn(s.(phase := AwaitingSlot), [AcquireSlot])
  }

  function ExitStopped(s: Service): (turn: Turn)
    ensures turn.next.cfg == s.cfg
  {
    Turn(s, [SetStatus(Status.Stopped), Exit])
  }

  function StepSpawning(s: Service, ev: Event, now: Instant): (turn: Turn)
    ensures turn.next.cfg == s.cfg
  {
    match ev
    case Spawned =>
      var s1 := s.(started := Some(now));
      if s.cfg.probed then
        Turn(s1.(phase := InStartup(now + s.cfg.readyTimeout)), [Probe(ForReady)])
      else
        After([SetStatus(Status.Healthy)], BecomeReady(s1, true, now))
    case SpawnFailed(e) => FailSpawn(s, e, now)
    case _ => Turn(s, [])
  }

  function FailSpawn(s: Service, e: string, now: Instant): (turn: Turn)
    ensures turn.next.cfg == s.cfg
  {
    var said := [Fail(CannotSpawn(e), 127), ReleaseSlot];
    if s.cfg.restart == Never then Turn(s, said + [Exit])
    else
      var (crashes, tooMany) := s.crashes.Record(0);
      var s1 := s.(crashes := crashes);
      After(said, if tooMany then GiveUp(s1, 127) else StartBackoff(s1, now, false))
  }

  function GiveUp(s: Service, code: int): (turn: Turn)
    ensures turn.next.cfg == s.cfg
  {
    var why := GaveUp(s.crashes.restarts);
    Turn(s.(backoff := s.cfg.backoffMin, phase := Parked(true, true)),
         [Log(why), SetStatus(Status.Failed(code)), SetReason(why)])
  }

  function StartBackoff(s: Service, now: Instant, show: bool): (turn: Turn)
    ensures turn.next.cfg == s.cfg
  {
    Turn(s.(backoff := Min(s.backoff * 2, s.cfg.backoffMax), phase := BackingOff),
         (if show then [SetStatus(Status.Backoff(s.backoff))] else [])
         + [SetTimer(BackoffTimer, now + s.backoff)])
  }

  /** The end of startup, ready or not: the slot goes back, and the watches that
      the settings ask for begin. */
  function BecomeReady(s: Service, ready: bool, now: Instant): (turn: Turn)
    ensures turn.next.cfg == s.cfg
  {
    Turn(s.(phase := InService(
                       if s.cfg.followsReloads then Unknown(ready) else Off,
                       match s.cfg.liveness {
                         case Some(l) => Some(Alive(l.every, l.failures, 0, false))
                         case None => None
                       },
                       None)),
         [ReleaseSlot]
         + (if ready then [ReloadBrowser] else [])
         + (if s.cfg.followsReloads then [ReadReloadCounters] else [])
         + (if s.cfg.liveness.Some? then [SetTimer(LivenessTimer, now + s.cfg.liveness.value.every)] else []))
  }

  /** What about the dependencies makes a started node start over, if anything. */
  function DependencyMoved(s: Service, deps: Deps): Option<Text> {
    match deps.unready
    case Some(d) => Some(DependencyRebuilding(d))
    case None =>
      match deps.MovedSince(s.seen)
      case Some(d) => Some(DependencyNewResult(d))
      case None => None
  }

  function StepStartup(s: Service, deadline: Instant, ev: Event, deps: Deps, now: Instant): (turn: Turn)
    ensures turn.next.cfg == s.cfg
  {
    match ev
    case Probed(ForReady, Pass) =>
      After([CancelTimer(ProbeTimer), SetStatus(Status.Healthy)],
            BecomeReady(s.(backoff := s.cfg.backoffMin), true, now))
    case Probed(ForReady, Miss(why)) =>
      if now >= deadline then After([Log(LastAttempt(why))], GiveUpReadiness(s, now))
      else Turn(s, [SetTimer(ProbeTimer, now + s.cfg.probeInterval)])
    case TimerFired(ProbeTimer) => Turn(s, [Probe(ForReady)])
    case Exited(code) =>
      // A death during startup is two things in turn: no readiness, then an exit.
      var unready := GiveUpReadiness(s, now);
      After([CancelTimer(ProbeTimer)] + unready.out, ChildExited(unready.next, code, now))
    case Board =>
      (match DependencyMoved(s, deps)
       case Some(why) => InterruptStartup(s, why)
       case None => Turn(s, []))
    case Restart(r) =>
      if s.cfg.onChange == RestartIt && s.cfg.reload == ByRestart then InterruptStartup(s, r)
      else Turn(s, [])
    case Stop =>
      Turn(s.(phase := Ending(ThenExit)),
           [CancelTimer(ProbeTimer), SetStatus(Status.Stopped), StopChild(s.cfg.stopTimeout)])
    case _ => Turn(s, [])
  }

  /** In service without having become ready: shown as unhealthy. */
  function GiveUpReadiness(s: Service, now: Instant): (turn: Turn)
    ensures turn.next.cfg == s.cfg
  {
    After([Log(NeverPassed), SetStatus(Status.Unhealthy), SetReason(NotReadyWithin(s.cfg.readyTimeout))],
          BecomeReady(s, false, now))
  }

  function InterruptStartup(s: Service, why: Text): (turn: Turn)
    ensures turn.next.cfg == s.cfg
  {
    Turn(s.(phase := Ending(ThenCycle)),
         [CancelTimer(ProbeTimer), SetStatus(Status.Stopping), Log(MidStartup(why)),
          ReleaseSlot, StopChild(s.cfg.stopTimeout)])
  }

  function StepBackoff(s: Service, ev: Event, deps: Deps): (turn: Turn)
    ensures turn.next.cfg == s.cfg
  {
    match ev
    case TimerFired(BackoffTimer) => Cycle(s, deps)
    case Stop => After([CancelTimer(BackoffTimer)], ExitStopped(s))
    case Restart(r) =>
      After([CancelTimer(BackoffTimer), Log(Restarting(r))],
            Cycle(s.(backoff := s.cfg.backoffMin, crashes := s.crashes.(restarts := 0)), deps))
    case _ => Turn(s, [])
  }

  /** What wakes a parked node. */
  function WakeReason(seen: seq<nat>, ev: Event, deps: Deps): Option<Text> {
    match ev
    case Restart(r) => Some(r)
    case Board =>
      (match deps.MovedSince(seen)
       case Some(d) => Some(DependencyChanged(d))
       case None => None)
    case _ => None
  }

  function StepParked(s: Service, ev: Event, deps: Deps): (turn: Turn)
    requires s.phase.Parked?
    ensures turn.next.cfg == s.cfg
  {
    if ev.Stop? then Turn(s, [Exit])
    else
      match WakeReason(s.seen, ev, deps)
      case None => Turn(s, [])
      case Some(why) =>
        After(if s.phase.announce then [Log(Restarting(why))] else [],
              Cycle(if s.phase.reset then s.(crashes := s.crashes.(restarts := 0)) else s, deps))
  }

  // ------------------------------------------------------------------
  // A running service

  function StepService(s: Service, ev: Event, deps: Deps, now: Instant): (turn: Turn)
    requires s.phase.InService?
    ensures turn.next.cfg == s.cfg
  {
    match ev
    case Exited(code) => ChildExited(s, code, now)
    case Board =>
      (match DependencyMoved(s, deps)
       case Some(why) => RestartRunning(s, why)
       case None => Turn(s, []))
    case Restart(r) => RestartAsked(s, r)
    case Stop =>
      Turn(s.(phase := Ending(ThenExit)),
           CancelRunningTimers(s.cfg) + [SetStatus(Status.Stopped), StopChild(s.cfg.stopTimeout)])
    case TimerFired(LivenessTimer) =>
      if !s.phase.rebuild.Rebuilding? then Turn(s, [Probe(ForLiveness)])
      else if s.phase.alive.Some? then Turn(s, [SetTimer(LivenessTimer, now + s.phase.alive.value.every)])
      else Turn(s, [])
    case Probed(ForLiveness, result) => LivenessAnswered(s, result, now)
    case TimerFired(ReloadPoll) => Turn(s, [ReadReloadCounters])
    case Counters(c) =>
      After([SetTimer(ReloadPoll, now + s.cfg.probeInterval)], CountersRead(s, c, now))
    case Probed(ForReload, result) =>
      var s1 := s.(phase := s.phase.(pending := None));
      (match s.phase.pending
       case Some(c) => Settle(s1, c, result.Pass?, now)
       case None => Turn(s1, []))
    case _ => Turn(s, [])
  }

  function RestartAsked(s: Service, r: Text): (turn: Turn)
    ensures turn.next.cfg == s.cfg
  {
    if s.cfg.reload == SelfManaged then Turn(s, [])
    else
      match s.cfg.onChange
      case Ignore => Turn(s, [])
      case SignalIt =>
        Turn(s, [if s.cfg.signal.Some? then Signal(s.cfg.signal.value, r) else Log(SignalMissing)])
      case RestartIt => RestartRunning(s, r)
      case Queue => RestartRunning(s, r)
  }

  function LivenessAnswered(s: Service, result: ProbeResult, now: Instant): (turn: Turn)
    requires s.phase.InService?
    ensures turn.next.cfg == s.cfg
  {
    match s.phase.alive
    case None => Turn(s, [])
    case Some(a) =>
      var again := [SetTimer(LivenessTimer, now + a.every)];
      match result
      case Pass =>
        if a.tookDown then
          Turn(s.(phase := s.phase.(alive := Some(a.(misses := 0, tookDown := false)))),
               again + [Log(AnsweringAgain), SetStatus(Status.Healthy), SetReason(AnsweringAgain)])
        else
          Turn(s.(phase := s.phase.(alive := Some(a.(misses := 0)))), again)
      case Miss(why) =>
        var a1 := a.(misses := a.misses + 1);
        if a1.misses != a1.failures then
          Turn(s.(phase := s.phase.(alive := Some(a1))), again)
        else
          var said := NotAnswering(a1.misses, why);
          if s.cfg.restart == Always then
            After(again + [Log(said)], RestartRunning(s, said))
          else
            Turn(s.(phase := s.phase.(alive := Some(a1.(tookDown := true)))),
                 again + [Log(said), SetStatus(Status.Unhealthy), SetReason(said)])
  }

  /** Whether a rebuild announced during startup is still under way at the first look. */
  predicate InFlightAtFirstLook(c: ReloadCounters) {
    c.reloadMatches > 0 && c.readyMatchesAtReload == c.readyMatches
  }

  /** A reload poll, up to the probe it may need. */
  function CountersRead(s: Service, c: ReloadCounters, now: Instant): (turn: Turn)
    requires s.phase.InService?
    ensures turn.next.cfg == s.cfg
  {
    var r := s.phase.rebuild;
    if r.Unknown? then
      var seen := if InFlightAtFirstLook(c) then c.reloadMatches - 1 else c.reloadMatches;
      var known := if r.ready then UpToDate(seen) else NotReady(seen);
      if !InFlightAtFirstLook(c) then
        Turn(s.(phase := s.phase.(rebuild := known, pending := None)), [])
      else
        NoticeReload(s, known, c, now)
    else
      NoticeReload(s, r, c, now)
  }

  function NoticeReload(s: Service, r: Rebuild, c: ReloadCounters, now: Instant): (turn: Turn)
    requires s.phase.InService?
    ensures turn.next.cfg == s.cfg
  {
    if c.reloadMatches != r.Seen() then
      // Takes the node out of ready, and its process stays.
      After([SetStatus(Status.Reloading), SetReason(RebuildingItself)],
            JudgeReload(s, Rebuilding(c.reloadMatches, now + s.cfg.readyTimeout), c, now))
    else
      JudgeReload(s, r, c, now)
  }

  function JudgeReload(s: Service, r: Rebuild, c: ReloadCounters, now: Instant): (turn: Turn)
    requires s.phase.InService?
    ensures turn.next.cfg == s.cfg
  {
    var p := s.phase.(rebuild := r, pending := None);
    if r.UpToDate? then
      if c.failures > 0 then
        Turn(s.(phase := p.(rebuild := NotReady(r.seen))),
             [Log(ReportedFailure), SetStatus(Status.Unhealthy), SetReason(RebuildFailed)])
      else
        Turn(s.(phase := p), [])
    else if s.cfg.probed then
      Turn(s.(phase := p.(pending := Some(c))), [Probe(ForReload)])
    else
      Settle(s.(phase := p), c, true, now)
  }

  /** Whether the counters say the latest rebuild came back. */
  predicate ReadyAgain(c: ReloadCounters) {
    c.readyMatches > c.readyMatchesAtReload && c.failures == 0
  }

  /** The verdict on a rebuild, after the probes, if it took any. */
  function Settle(s: Service, c: ReloadCounters, probesPass: bool, now: Instant): (turn: Turn)
    requires s.phase.InService?
    ensures turn.next.cfg == s.cfg
  {
    var r := s.phase.rebuild;
    if ReadyAgain(c) && probesPass then
      Turn(s.(phase := s.phase.(rebuild := UpToDate(r.Seen()))),
           [SetStatus(Status.Healthy), SetReason(ReloadedItself)])
    else if r.Rebuilding? then
      match RebuildVerdict(s.cfg, r.deadline, c, now)
      case None => Turn(s, [])
      case Some(why) =>
        Turn(s.(phase := s.phase.(rebuild := NotReady(r.Seen()))),
             [Log(ReloadFailed(why)), SetStatus(Status.Unhealthy), SetReason(why)])
    else
      Turn(s, [])
  }

  function RebuildVerdict(cfg: ServiceConfig, deadline: Instant, c: ReloadCounters, now: Instant): Option<Text> {
    if c.failures > 0 then Some(RebuildFailed)
    else if c.errors > 0 then Some(RebuildErrors(c.errors))
    else if now >= deadline then Some(RebuildTooSlow(cfg.readyTimeout))
    else None
  }

  function CancelRunningTimers(cfg: ServiceConfig): seq<Action> {
    (if cfg.liveness.Some? then [CancelTimer(LivenessTimer)] else [])
    + (if cfg.followsReloads then [CancelTimer(ReloadPoll)] else [])
  }

  function RestartRunning(s: Service, why: Text): (turn: Turn)
    ensures turn.next.cfg == s.cfg
  {
    Turn(s.(backoff := s.cfg.backoffMin,
            crashes := s.crashes.(restarts := 0),
            phase := Ending(ThenCycle)),
         CancelRunningTimers(s.cfg)
         + [SetStatus(Status.Stopping), CountRestart(why), Log(Restarting(why)), StopChild(s.cfg.stopTimeout)])
  }

  /** How long the process that just ended ran. */
  function Ran(s: Service, now: Instant): Duration {
    match s.started
    case Some(t) => if now > t then now - t else 0
    case None => 0
  }

  /** The running child exited by itself. */
  function ChildExited(s: Service, code: int, now: Instant): (turn: Turn)
    ensures turn.next.cfg == s.cfg
  {
    After(CancelRunningTimers(s.cfg), AfterExit(s, code, now))
  }

  function AfterExit(s: Service, code: int, now: Instant): (turn: Turn)
    ensures turn.next.cfg == s.cfg
  {
    var shown :=
      if code == 0 && s.cfg.restart != Always then [SetStatus(Status.Exited)]
      else if code != 0 then [SetStatus(Status.Failed(code))]
      else [];
    if s.cfg.restart != Always then
      Turn(s.(phase := Parked(true, false)), shown)
    else
      var ran := Ran(s, now);
      var s1 := if ran > s.crashes.settled then s.(backoff := s.cfg.backoffMin) else s;
      var (crashes, tooMany) := s1.crashes.Record(ran);
      var s2 := s1.(crashes := crashes);
      After(shown, if tooMany then GiveUp(s2, code) else StartBackoff(s2, now, true))
  }

  // ------------------------------------------------------------------
  // A task

  datatype TaskPhase = TaskAtGate(gate: Gate) | TaskRunning | TaskParked | TaskFinished

  datatype Task = Task(phase: TaskPhase, seen: seq<nat>)

  datatype TaskTurn = TaskTurn(next: Task, out: seq<Action>)

  function NewTask(): Task {
    Task(TaskAtGate(WaitingOnDeps), [])
  }

  function TaskOn(t: Task, ev: Event, deps: Deps): TaskTurn {
    var turn := TaskStep(t, ev, deps);
    if Exit in turn.out then turn.(next := turn.next.(phase := TaskFinished)) else turn
  }

  function TaskStep(t: Task, ev: Event, deps: Deps): TaskTurn {
    match t.phase
    case TaskFinished => TaskTurn(t, [])
    case TaskAtGate(gate) => TaskStepGate(t, gate, ev, deps)
    case TaskRunning =>
      if ev.JobDone? then
        TaskTurn(t.(phase := TaskParked), if ev.code == 0 && !ev.cached then [ReloadBrowser] else [])
      else TaskTurn(t, [])
    case TaskParked =>
      if ev.Stop? then TaskTurn(t, [Exit])
      else
        match WakeReason(t.seen, ev, deps)
        case None => TaskTurn(t, [])
        case Some(why) =>
          var turn := TaskStepGate(t, WaitingOnDeps, Board, deps);
          TaskTurn(turn.next, [SetReason(why)] + turn.out)
  }

  function TaskStepGate(t: Task, gate: Gate, ev: Event, deps: Deps): TaskTurn {
    match GateOn(gate, ev, deps)
    case Wait(g, acts) => TaskTurn(t.(phase := TaskAtGate(g)), acts)
    case Ended(g, acts) => TaskTurn(t.(phase := TaskAtGate(g)), acts)
    case Open(seen) => TaskTurn(Task(TaskRunning, seen), [SetStatus(Status.Running), RunJob])
  }
}
