/** A change upstream that lands while a node does something else is marked seen
    with what it does, and is not looked at until a later tick. For a service that
    is a way to rest on an old result under exactly the settings that let it take
    an event in service other than a tick and stay. */
module StaleRuns {
  import opened Status
  import opened Lifecycle
  import opened Supervisor
  import opened World
  import opened WorldInvariant
  import opened Progress
  import opened TwoNodeRuns
  import Ctl
  import SI = SupervisorInvariant
  import SR = ServiceRuns

  // ------------------------------------------------------------------
  // A service coming up, whatever its settings

  /** A service past its gate, against the first result of its dependency. */
  predicate Past(n: Node, cfg: ServiceConfig, ph: Phase, acts: seq<Action>, queue: seq<Event>) {
    && n.machine.Svc? && n.machine.service.cfg == cfg && n.machine.service.phase == ph
    && n.machine.service.seen == [1]
    && n.taken.None? && n.micro == [] && n.acts == acts && n.queue == queue
    && !n.exited && n.inbox == Ctl.EmptyInbox
  }

  /** The dependency stands at its first result. */
  predicate OnFirst(sc: Scene) {
    sc.dep == Served1(1, sc.dep.tick)
  }

  predicate SameDep(sc: Scene, sc1: Scene) {
    sc1.dep == sc.dep && sc1.clock == sc.clock
  }

  const FirstResult := Deps(None, [1], [DEP])

  /** At its gate, against the first result, with a stop looked for or about to be. */
  function GateNode(cfg: ServiceConfig, acts: seq<Action>, queue: seq<Event>, tick: nat): Node {
    NewNode(Svc(NewService(cfg).(phase := Phase.AtGate(Draining))), FirstResult).(acts := acts, queue := queue, tick := tick)
  }

  lemma GateDrains(cfg: ServiceConfig, version: nat, now: Instant)
    ensures var n := NewNode(Svc(NewService(cfg)), BeforeDep);
            && CanTake(n, FromQueue, version, true, now)
            && Decide(Take(n, FromQueue, version), FirstResult, now) == GateNode(cfg, [DrainControl], [], version)
  {
    hide StepService, StepStartup, StepSpawning, StepBackoff, StepParked;
    assert [Begin][1..] == [];
  }

  lemma GateAsks(cfg: ServiceConfig, tick: nat)
    ensures var n := GateNode(cfg, [DrainControl], [], tick);
            && CanRun(n, Nothing, 1)
            && RunStep(n, Nothing, 1) == Effect(GateNode(cfg, [], [Drained(false)], tick), 1, false)
  {
  }

  lemma GatePasses(cfg: ServiceConfig, version: nat, tick: nat, now: Instant)
    requires cfg.hasCmd
    ensures var drained := GateNode(cfg, [], [Drained(false)], tick);
            var n := Decide(Take(drained, FromQueue, version), FirstResult, now);
            && CanTake(drained, FromQueue, version, true, now)
            && n.status == Status.Pending
            && if cfg.port.Some? then Past(n, cfg, Reclaiming, [ReclaimPort(cfg.port.value)], [])
               else Past(n, cfg, AwaitingSlot, [AcquireSlot], [])
  {
    hide StepService, StepStartup, StepSpawning, StepBackoff, StepParked;
    assert [Drained(false)][1..] == [];
  }

  lemma GateOpens(w: World, sc: Scene, cfg: ServiceConfig) returns (w1: World, sc1: Scene)
    requires Shows(w, sc) && OnFirst(sc) && sc.free == 1
    requires sc.app == NewNode(Svc(NewService(cfg)), BeforeDep) && cfg.hasCmd
    ensures Shows(w1, sc1) && SameDep(sc, sc1) && sc1.free == 1 && sc1.app.status == Status.Pending
    ensures if cfg.port.Some? then Past(sc1.app, cfg, Reclaiming, [ReclaimPort(cfg.port.value)], [])
            else Past(sc1.app, cfg, AwaitingSlot, [AcquireSlot], [])
  {
    assert ViewOf(sc.dep) == FirstResult;
    hide Shows, On, Decide, Take, Past, RunStep, CanTake, CanRun, GateNode, NewNode, OnFirst, ViewOf;
    GateDrains(cfg, sc.version, sc.clock);
    w1, sc1 := AppTurns(w, sc, FromQueue);
    GateAsks(cfg, sc.version);
    w1, sc1 := AppDoes(w1, sc1, Nothing);
    GatePasses(cfg, sc.version, sc.version, sc.clock);
    w1, sc1 := AppTurns(w1, sc1, FromQueue);
  }

  lemma PortFreed(w: World, sc: Scene, cfg: ServiceConfig) returns (w1: World, sc1: Scene)
    requires Shows(w, sc) && cfg.port.Some?
    requires Past(sc.app, cfg, Reclaiming, [ReclaimPort(cfg.port.value)], [])
    ensures Shows(w1, sc1) && SameDep(sc, sc1) && sc1.free == sc.free && sc1.app.status == sc.app.status
    ensures Past(sc1.app, cfg, AwaitingSlot, [AcquireSlot], [])
  {
    hide Shows, StepService, StepStartup, StepSpawning, StepBackoff, StepParked, StepGate;
    w1, sc1 := AppDoes(w, sc, Nothing);
    w1, sc1 := AppTurns(w1, sc1, FromQueue);
  }

  lemma SlotTaken(w: World, sc: Scene, cfg: ServiceConfig) returns (w1: World, sc1: Scene)
    requires Shows(w, sc) && sc.free == 1 && sc.app.status == Status.Pending
    requires Past(sc.app, cfg, AwaitingSlot, [AcquireSlot], [])
    ensures Shows(w1, sc1) && SameDep(sc, sc1)
    ensures Past(sc1.app, cfg, Spawning, [SetStatus(Status.Starting), Spawn], [])
    ensures sc1.app.status == Status.Pending
  {
    hide Shows, StepService, StepStartup, StepSpawning, StepBackoff, StepParked, StepGate;
    w1, sc1 := AppDoes(w, sc, Nothing);
    w1, sc1 := AppTurns(w1, sc1, FromQueue);
  }

  lemma ChildStarts(w: World, sc: Scene, cfg: ServiceConfig) returns (w1: World, sc1: Scene)
    requires Shows(w, sc) && sc.app.status == Status.Pending
    requires Past(sc.app, cfg, Spawning, [SetStatus(Status.Starting), Spawn], [])
    ensures Shows(w1, sc1) && SameDep(sc, sc1)
    ensures Past(sc1.app, cfg, Spawning, [], [Spawned])
  {
    hide Shows, On;
    w1, sc1 := AppDoes(w, sc, Nothing);
    w1, sc1 := AppDoes(w1, sc1, Nothing);
    w1, sc1 := AppDoes(w1, sc1, Nothing);
  }

  function Watch(cfg: ServiceConfig): Option<Alive> {
    match cfg.liveness
    case Some(l) => Some(Alive(l.every, l.failures, 0, false))
    case None => None
  }

  /** In service with nothing noticed yet: what is left of coming up is to say so. */
  predicate Entered(n: Node, cfg: ServiceConfig, acts: seq<Action>) {
    && Past(n, cfg, InService(if cfg.followsReloads then Unknown(true) else Off, Watch(cfg), None), acts, [])
    && (forall a <- acts :: Quiet(a) || (cfg.followsReloads && a.ReadReloadCounters?))
    && Replies(acts) == (if cfg.followsReloads then [NoLines] else [])
  }

  const NoLines := Counters(ReloadCounters(0, 0, 0, 0, 0))

  /** Actions that ask for nothing. */
  predicate Quiet(a: Action) {
    a.SetStatus? || a.SetReason? || a.Log? || a.ReleaseSlot? || a.SetTimer? || a.CancelTimer? || a.ReloadBrowser? || a.Signal?
  }

  /** What comes of asking a process that has printed nothing. */
  function Replies(acts: seq<Action>): seq<Event> {
    if acts == [] then [] else Reply(acts[0]) + Replies(acts[1..])
  }

  function Reply(a: Action): seq<Event> {
    if a.ReadReloadCounters? then [NoLines] else []
  }

  lemma {:induction false} RepliesCat(a: seq<Action>, b: seq<Action>)
    ensures Replies(a + b) == Replies(a) + Replies(b)
    decreases |a|
  {
    if a == [] {
      assert a + b == b;
    } else {
      hide Reply;
      assert (a + b)[1..] == a[1..] + b;
      RepliesCat(a[1..], b);
      assert Replies(a + b) == Reply(a[0]) + Replies(a[1..] + b);
      assert Reply(a[0]) + (Replies(a[1..]) + Replies(b)) == (Reply(a[0]) + Replies(a[1..])) + Replies(b);
    }
  }

  lemma ReadyReplies(s: Service, now: Instant, said: seq<Action>)
    requires forall a <- said :: Quiet(a) && !a.ReadReloadCounters?
    requires Replies(said) == []
    ensures var acts := said + BecomeReady(s, true, now).out;
            && (forall a <- acts :: Quiet(a) || (s.cfg.followsReloads && a.ReadReloadCounters?))
            && Replies(acts) == (if s.cfg.followsReloads then [NoLines] else [])
  {
    var a := [ReleaseSlot, ReloadBrowser];
    var b := if s.cfg.followsReloads then [ReadReloadCounters] else [];
    var c := if s.cfg.liveness.Some? then [SetTimer(LivenessTimer, now + s.cfg.liveness.value.every)] else [];
    assert BecomeReady(s, true, now).out == (a + b) + c;
    hide BecomeReady;
    AllReply(a, b, c, s.cfg.followsReloads);
    hide Quiet, Replies;
    RepliesCat(said, (a + b) + c);
    assert [] + Replies((a + b) + c) == Replies((a + b) + c);
  }

  lemma AllReply(a: seq<Action>, b: seq<Action>, c: seq<Action>, follows: bool)
    requires a == [ReleaseSlot, ReloadBrowser] && b == (if follows then [ReadReloadCounters] else [])
    requires c == [] || (|c| == 1 && c[0].SetTimer?)
    ensures forall x <- (a + b) + c :: Quiet(x) || (follows && x.ReadReloadCounters?)
    ensures Replies((a + b) + c) == (if follows then [NoLines] else [])
  {
    hide Replies, Quiet;
    AllQuiet(a, b, c, follows);
    RepliesCat(a + b, c);
    RepliesCat(a, b);
    OneReply(ReleaseSlot, [ReloadBrowser]);
    OneReply(ReloadBrowser, []);
    assert a == [ReleaseSlot] + [ReloadBrowser] && [ReloadBrowser] + [] == [ReloadBrowser];
    if c != [] {
      OneReply(c[0], []);
      assert c == [c[0]] + [];
    }
    if b != [] {
      OneReply(b[0], []);
      assert b == [b[0]] + [];
    }
    assert Replies([]) == [] by { NothingReplied(); }
  }

  lemma NothingReplied()
    ensures Replies([]) == []
  {
  }

  lemma AllQuiet(a: seq<Action>, b: seq<Action>, c: seq<Action>, follows: bool)
    requires a == [ReleaseSlot, ReloadBrowser] && b == (if follows then [ReadReloadCounters] else [])
    requires c == [] || (|c| == 1 && c[0].SetTimer?)
    ensures forall x <- (a + b) + c :: Quiet(x) || (follows && x.ReadReloadCounters?)
  {
  }

  lemma OneReply(x: Action, rest: seq<Action>)
    ensures Replies([x] + rest) == Reply(x) + Replies(rest)
  {
    assert ([x] + rest)[1..] == rest;
  }

  lemma UnprobedEnters(w: World, sc: Scene, cfg: ServiceConfig) returns (w1: World, sc1: Scene)
    requires Shows(w, sc) && !cfg.probed && Past(sc.app, cfg, Spawning, [], [Spawned])
    ensures Shows(w1, sc1) && SameDep(sc, sc1) && Entered(sc1.app, cfg, sc1.app.acts)
  {
    hide Shows, StepService, StepStartup, StepBackoff, StepParked, StepGate, BecomeReady;
    w1, sc1 := AppTurns(w, sc, FromQueue);
    EntersFrom(sc.app.machine.service, sc.clock);
  }

  lemma EntersFrom(s: Service, now: Instant)
    requires s.phase.Spawning? && !s.cfg.probed
    ensures var t := On(s, Spawned, FirstResult, now);
            && t.next == s.(started := Some(now), phase := InService(if s.cfg.followsReloads then Unknown(true) else Off, Watch(s.cfg), None))
            && (forall a <- t.out :: Quiet(a) || (s.cfg.followsReloads && a.ReadReloadCounters?))
            && Replies(t.out) == (if s.cfg.followsReloads then [NoLines] else [])
  {
    hide StepService, StepStartup, StepBackoff, StepParked, StepGate;
    assert [SetStatus(Status.Healthy)][1..] == [];
    ReadyReplies(s.(started := Some(now)), now, [SetStatus(Status.Healthy)]);
    NoExitReady(s.(started := Some(now)), now, [SetStatus(Status.Healthy)]);
  }

  lemma NoExitReady(s: Service, now: Instant, said: seq<Action>)
    requires Exit !in said
    ensures Exit !in said + BecomeReady(s, true, now).out
  {
  }

  lemma ProbedAsks(w: World, sc: Scene, cfg: ServiceConfig) returns (w1: World, sc1: Scene)
    requires Shows(w, sc) && OnFirst(sc) && cfg.probed && Past(sc.app, cfg, Spawning, [], [Spawned])
    ensures Shows(w1, sc1) && SameDep(sc, sc1)
    ensures Past(sc1.app, cfg, InStartup(sc.clock + cfg.readyTimeout), [Probe(ForReady)], [])
  {
    hide Shows, StepService, StepBackoff, StepParked, StepGate, BecomeReady, StepStartup;
    w1, sc1 := AppTurns(w, sc, FromQueue);
  }

  lemma ProbeAnswers(w: World, sc: Scene, cfg: ServiceConfig, until: Instant) returns (w1: World, sc1: Scene)
    requires Shows(w, sc) && Past(sc.app, cfg, InStartup(until), [Probe(ForReady)], [])
    ensures Shows(w1, sc1) && SameDep(sc, sc1)
    ensures Past(sc1.app, cfg, InStartup(until), [], [Probed(ForReady, Pass)])
  {
    hide Shows, On;
    w1, sc1 := AppDoes(w, sc, ProbeSays(Pass));
  }

  lemma ProbedEnters(w: World, sc: Scene, cfg: ServiceConfig) returns (w1: World, sc1: Scene)
    requires Shows(w, sc) && OnFirst(sc) && cfg.probed && Past(sc.app, cfg, Spawning, [], [Spawned])
    ensures Shows(w1, sc1) && SameDep(sc, sc1) && Entered(sc1.app, cfg, sc1.app.acts)
  {
    hide Shows, Past, Entered;
    w1, sc1 := ProbedAsks(w, sc, cfg);
    w1, sc1 := ProbeAnswers(w1, sc1, cfg, sc.clock + cfg.readyTimeout);
    AnswerTaken(sc1.app, cfg, sc.clock + cfg.readyTimeout, ViewOf(sc1.dep), sc1.version, sc1.clock);
    w1, sc1 := AppTurns(w1, sc1, FromQueue);
  }

  lemma AnswerTaken(n: Node, cfg: ServiceConfig, until: Instant, deps: Deps, version: nat, now: Instant)
    requires Past(n, cfg, InStartup(until), [], [Probed(ForReady, Pass)])
    ensures CanTake(n, FromQueue, version, true, now)
    ensures var m := Decide(Take(n, FromQueue, version), deps, now); Entered(m, cfg, m.acts)
  {
    AnswerEnters(n.machine.service, deps, now);
    hide On, Quiet, Replies;
    assert [Probed(ForReady, Pass)][1..] == [];
  }

  lemma AnswerEnters(s: Service, deps: Deps, now: Instant)
    requires s.phase.InStartup?
    ensures var t := On(s, Probed(ForReady, Pass), deps, now);
            && t.next == s.(backoff := s.cfg.backoffMin,
                            phase := InService(if s.cfg.followsReloads then Unknown(true) else Off, Watch(s.cfg), None))
            && (forall a <- t.out :: Quiet(a) || (s.cfg.followsReloads && a.ReadReloadCounters?))
            && Replies(t.out) == (if s.cfg.followsReloads then [NoLines] else [])
  {
    hide StepService, StepBackoff, StepParked, StepGate, ChildExited;
    var said := [CancelTimer(ProbeTimer), SetStatus(Status.Healthy)];
    assert said[1..] == [SetStatus(Status.Healthy)] && said[1..][1..] == [];
    ReadyReplies(s.(backoff := s.cfg.backoffMin), now, said);
    NoExitReady(s.(backoff := s.cfg.backoffMin), now, said);
  }

  // ------------------------------------------------------------------
  // Doing what was said

  /** What doing quiet actions leaves as it was. */
  predicate SameMachine(n: Node, m: Node) {
    m.machine == n.machine && m.taken == n.taken && m.inbox == n.inbox && m.exited == n.exited && m.tick == n.tick
  }

  lemma QuietStep(n: Node, free: nat) returns (ans: Answer)
    requires n.taken.None? && !n.exited && n.micro == [] && n.acts != []
    requires Quiet(n.acts[0]) || n.acts[0].ReadReloadCounters?
    ensures CanRun(n, ans, free)
    ensures var e := RunStep(n, ans, free);
            && SameMachine(n, e.node) && e.node.acts == n.acts[1..] && e.node.queue == n.queue + Reply(n.acts[0])
            && (e.node.micro == [] || (e.node.micro == [Bump] && n.acts[0].SetStatus?)) && !e.ticked
  {
    ans := if n.acts[0].ReadReloadCounters? then CountersSay(ReloadCounters(0, 0, 0, 0, 0)) else Nothing;
    var m := RunStep(n, ans, free).node;
    assert n.queue + [] == n.queue;
  }

  lemma {:induction false} RunsQuietly(w: World, sc: Scene) returns (w1: World, sc1: Scene)
    requires Shows(w, sc) && sc.app.taken.None? && !sc.app.exited && (sc.app.micro == [] || sc.app.micro == [Bump])
    requires forall a <- sc.app.acts :: Quiet(a) || a.ReadReloadCounters?
    ensures Shows(w1, sc1) && SameDep(sc, sc1) && SameMachine(sc.app, sc1.app)
    ensures sc1.app.acts == [] && sc1.app.micro == [] && sc1.app.queue == sc.app.queue + Replies(sc.app.acts)
    ensures sc.app.micro == [] && (forall a <- sc.app.acts :: !a.SetStatus?) ==> sc1.version == sc.version
    decreases |sc.app.acts|, |sc.app.micro|
  {
    hide Shows, RunStep, CanRun, Quiet;
    if sc.app.micro == [Bump] {
      Bumps(sc.app, sc.free);
      w1, sc1 := AppDoes(w, sc, Nothing);
      w1, sc1 := RunsQuietly(w1, sc1);
    } else if sc.app.acts == [] {
      w1, sc1 := w, sc;
      assert sc.app.queue + [] == sc.app.queue;
    } else {
      assert sc.app.acts[0] in sc.app.acts;
      var ans := QuietStep(sc.app, sc.free);
      w1, sc1 := AppDoes(w, sc, ans);
      var queue := sc1.app.queue;
      assert forall a <- sc1.app.acts :: a in sc.app.acts;
      w1, sc1 := RunsQuietly(w1, sc1);
      assert queue + Replies(sc.app.acts[1..]) == sc.app.queue + Replies(sc.app.acts);
    }
  }

  lemma Bumps(n: Node, free: nat)
    requires n.taken.None? && !n.exited && n.micro == [Bump]
    ensures CanRun(n, Nothing, free) && RunStep(n, Nothing, free) == Effect(n.(micro := []), free, true)
  {
  }

  /** In service, told and asked nothing. */
  predicate AtWork(n: Node, cfg: ServiceConfig) {
    Past(n, cfg, InService(if cfg.followsReloads then UpToDate(0) else Off, Watch(cfg), None), [], [])
  }

  lemma Settles(w: World, sc: Scene, cfg: ServiceConfig) returns (w1: World, sc1: Scene)
    requires Shows(w, sc) && Entered(sc.app, cfg, sc.app.acts)
    ensures Shows(w1, sc1) && SameDep(sc, sc1) && AtWork(sc1.app, cfg)
  {
    hide Shows, On, RunStep, Quiet;
    w1, sc1 := RunsQuietly(w, sc);
    if cfg.followsReloads {
      FirstLook(sc1.app.machine.service, ViewOf(sc1.dep), sc1.clock);
      w1, sc1 := AppTurns(w1, sc1, FromQueue);
      assert sc1.app.acts[1..] == [];
      w1, sc1 := RunsQuietly(w1, sc1);
    }
  }

  lemma FirstLook(s: Service, deps: Deps, now: Instant)
    requires s.phase.InService? && s.phase.rebuild == Unknown(true)
    ensures On(s, NoLines, deps, now)
         == Turn(s.(phase := s.phase.(rebuild := UpToDate(0), pending := None)),
                 [SetTimer(ReloadPoll, now + s.cfg.probeInterval)])
    ensures Quiet(SetTimer(ReloadPoll, now + s.cfg.probeInterval))
  {
    hide ChildExited, LivenessAnswered, Settle;
    var out := [SetTimer(ReloadPoll, now + s.cfg.probeInterval)];
    assert out + [] == out;
  }

  const DepMachine := Svc(NewService(ServedConfig))

  /** Any service with a command comes to run against its dependency's first result. */
  lemma ComesUp(cfg: ServiceConfig) returns (w: World, sc: Scene)
    requires cfg.Valid() && cfg.hasCmd
    ensures Shows(w, sc) && OnFirst(sc) && AtWork(sc.app, cfg)
  {
    hide Shows, Entered, AtWork;
    w, sc := Opens(DepMachine, Svc(NewService(cfg)));
    w, sc := DepServes(w, sc);
    w, sc := GateOpens(w, sc, cfg);
    if cfg.port.Some? {
      w, sc := PortFreed(w, sc, cfg);
    }
    w, sc := SlotTaken(w, sc, cfg);
    w, sc := ChildStarts(w, sc, cfg);
    if cfg.probed {
      w, sc := ProbedEnters(w, sc, cfg);
    } else {
      w, sc := UnprobedEnters(w, sc, cfg);
    }
    w, sc := Settles(w, sc, cfg);
  }

  // ------------------------------------------------------------------
  // Ways to be told something else

  /** A service in service, at rest, with no write in flight. */
  ghost predicate Rests(plan: Plan, w: World, name: Name, cfg: ServiceConfig) {
    && Reachable(plan, w) && Blocked(w, name) && NoWriteInFlight(w) && name in plan.deps
    && w.nodes[name].machine.Svc? && w.nodes[name].machine.service.phase.InService?
    && w.nodes[name].machine.service.cfg == cfg
  }

  /** And that on what its dependencies are no longer. */
  ghost predicate RestsStale(plan: Plan, w: World, name: Name, cfg: ServiceConfig) {
    && Rests(plan, w, name, cfg)
    && !Current(w.nodes[name].machine.service.seen, DepView(w, plan.deps[name]))
  }

  lemma StaleScene(w: World, sc: Scene, cfg: ServiceConfig)
    requires Shows(w, sc) && AtWork(sc.app, cfg) && sc.app.tick == sc.version
    requires sc.dep == Served1(2, sc.dep.tick)
    ensures RestsStale(TwoNodes, w, APP, cfg)
  {
    hide Reachable;
    assert DepView(w, [DEP]).generations[0] == 2;
  }

  /** Settings under which a request to restart is taken and nothing comes of it. */
  predicate ShrugsOff(cfg: ServiceConfig) {
    cfg.reload == SelfManaged || cfg.onChange == SignalIt || cfg.onChange == Ignore
  }

  lemma ShrugsOn(s: Service, deps: Deps, now: Instant)
    requires s.phase.InService? && ShrugsOff(s.cfg)
    ensures var t := On(s, Restart(Given("")), deps, now);
            t.next == s && Replies(t.out) == [] && forall a <- t.out :: Quiet(a) && !a.SetStatus?
  {
    hide ChildExited, LivenessAnswered, Settle, CountersRead;
    var t := On(s, Restart(Given("")), deps, now);
    assert t.out == [] || (|t.out| == 1 && t.out[1..] == []);
  }

  lemma AskedRestsStale(w: World, sc: Scene, cfg: ServiceConfig) returns (w1: World)
    requires Shows(w, sc) && OnFirst(sc) && AtWork(sc.app, cfg) && ShrugsOff(cfg)
    ensures RestsStale(TwoNodes, w1, APP, cfg)
  {
    hide Shows, On, RunStep, Quiet, ShrugsOff;
    var sc1 := sc;
    w1, sc1 := AppAsked(w, sc1);
    w1, sc1 := DepAgain(w1, sc1, 1);
    ShrugsOn(sc1.app.machine.service, ViewOf(sc1.dep), sc1.clock);
    w1, sc1 := AppTurns(w1, sc1, NormalMessage);
    assert sc1.app.inbox == Ctl.EmptyInbox;
    w1, sc1 := RunsQuietly(w1, sc1);
    StaleScene(w1, sc1, cfg);
  }

  /** At rest only the liveness timer runs when nothing else is followed. */
  lemma LivenessArmed(w: World, sc: Scene, cfg: ServiceConfig)
    requires Shows(w, sc) && AtWork(sc.app, cfg) && cfg.liveness.Some? && !cfg.followsReloads
    ensures sc.app.timers.Keys == {LivenessTimer}
  {
    hide SR.SvcInv, SR.StopInv, Reachable, Inv;
    ReachableKeeps(TwoNodes, w);
    LocalAt(TwoNodes, w, APP);
    TickOf(sc.app, [DEP], sc.version);
    OnlyLiveness(sc.app);
  }

  lemma OnlyLiveness(n: Node)
    requires SR.SvcInv(n) && n.Idle() && n.queue == [] && n.machine.service.phase.InService?
    requires n.machine.service.cfg.liveness.Some? && !n.machine.service.cfg.followsReloads
    ensures n.timers.Keys == {LivenessTimer}
  {
    SR.AtRest(n);
    hide SR.SvcInv;
    var timers := SI.TimersIn(n.timers);
    assert timers == SI.Armed(n.machine.service, SI.Nobody);
    forall t: Timer ensures t in n.timers <==> t == LivenessTimer {
      assert t in n.timers <==> timers.Has(t);
    }
  }

  /** Settings under which nothing but liveness disturbs a service in service. */
  predicate OnlyProbed(cfg: ServiceConfig) {
    cfg.liveness.Some? && !cfg.followsReloads && cfg.reload == ByRestart
  }

  lemma ProbeOn(s: Service, deps: Deps, now: Instant)
    requires s.phase.InService? && s.phase.alive.Some? && !s.phase.alive.value.tookDown && !s.phase.rebuild.Rebuilding?
    requires s.phase.alive == Watch(s.cfg)
    ensures On(s, TimerFired(LivenessTimer), deps, now) == Turn(s, [Probe(ForLiveness)])
    ensures var t := On(s, Probed(ForLiveness, Pass), deps, now);
            t.next == s && |t.out| == 1 && t.out[0].SetTimer?
  {
    hide ChildExited, CountersRead, Settle;
  }

  lemma FirstAlarm(n: Node)
    requires n.timers.Keys == {LivenessTimer} && n.Idle() && n.queue == []
    ensures forall version: nat, now: Instant | n.timers[LivenessTimer] <= now ::
              CanTake(n, FromTimer(LivenessTimer), version, true, now)
  {
  }

  lemma ProbeAsks(n: Node, free: nat)
    requires n.taken.None? && !n.exited && n.micro == [] && n.acts == [Probe(ForLiveness)]
    ensures CanRun(n, ProbeSays(Pass), free)
    ensures RunStep(n, ProbeSays(Pass), free) == Effect(n.(acts := [], queue := n.queue + [Probed(ForLiveness, Pass)]), free, false)
  {
    assert n.acts[1..] == [];
  }

  lemma ProbedRestsStale(w: World, sc: Scene, cfg: ServiceConfig) returns (w1: World)
    requires Shows(w, sc) && OnFirst(sc) && AtWork(sc.app, cfg) && OnlyProbed(cfg)
    ensures RestsStale(TwoNodes, w1, APP, cfg)
  {
    hide Shows, On, RunStep, CanRun, Quiet, CanTake;
    LivenessArmed(w, sc, cfg);
    FirstAlarm(sc.app);
    var s := sc.app.machine.service;
    var sc1 := sc;
    w1, sc1 := TimePasses(w, sc, sc.app.timers[LivenessTimer]);
    ProbeOn(s, ViewOf(sc1.dep), sc1.clock);
    w1, sc1 := AppTurns(w1, sc1, FromTimer(LivenessTimer));
    w1, sc1 := DepAgain(w1, sc1, 1);
    ProbeAsks(sc1.app, sc1.free);
    w1, sc1 := AppDoes(w1, sc1, ProbeSays(Pass));
    ProbeOn(s, ViewOf(sc1.dep), sc1.clock);
    Queued(sc1.app);
    w1, sc1 := AppTurns(w1, sc1, FromQueue);
    TimersAreQuiet(sc1.app.acts);
    w1, sc1 := RunsQuietly(w1, sc1);
    StaleScene(w1, sc1, cfg);
  }

  lemma Queued(n: Node)
    requires n.Idle() && n.queue != []
    ensures forall version: nat, now: Instant :: CanTake(n, FromQueue, version, true, now)
  {
  }

  lemma TimersAreQuiet(acts: seq<Action>)
    requires |acts| == 1 && acts[0].SetTimer?
    ensures Replies(acts) == [] && forall a <- acts :: Quiet(a) && !a.SetStatus?
  {
    assert acts[1..] == [];
  }

  /** Under any settings but the restful ones a service can rest stale. */
  lemma CanRestStale(cfg: ServiceConfig) returns (w: World)
    requires cfg.Valid() && cfg.hasCmd && !Restful(cfg)
    ensures RestsStale(TwoNodes, w, APP, cfg)
  {
    hide Shows;
    var sc: Scene;
    w, sc := ComesUp(cfg);
    if ShrugsOff(cfg) {
      w := AskedRestsStale(w, sc, cfg);
    } else {
      w := ProbedRestsStale(w, sc, cfg);
    }
  }

  /** A service rests on nothing but what its dependencies are, in every session,
      exactly under these settings: no liveness probe, reloaded by restarting, and
      restarted or queued on a change. */
  lemma RestfulExactly(cfg: ServiceConfig)
    requires cfg.Valid() && cfg.hasCmd
    ensures Restful(cfg) <==> forall plan: Plan, w: World, name: Name :: !RestsStale(plan, w, name, cfg)
  {
    if Restful(cfg) {
      forall plan: Plan, w: World, name: Name ensures !RestsStale(plan, w, name, cfg) {
        if Rests(plan, w, name, cfg) { RestfulIsCurrent(plan, w, name, cfg); }
      }
    } else {
      var w := CanRestStale(cfg);
    }
  }

  lemma RestfulIsCurrent(plan: Plan, w: World, name: Name, cfg: ServiceConfig)
    requires Rests(plan, w, name, cfg) && Restful(cfg)
    ensures Current(w.nodes[name].machine.service.seen, DepView(w, plan.deps[name]))
  {
    hide Reachable, NoWriteInFlight;
    NoStaleRest(plan, w, name);
    assert w.nodes[name].machine.service.seen == DepView(w, plan.deps[name]).generations;
  }

  // ------------------------------------------------------------------
  // A task whose dependency has another result during its run

  function Job(ph: TaskPhase, view: Deps): Node {
    NewNode(Tsk(Task(ph, [1])), view).(queue := [])
  }

  lemma JobBegins(w: World, sc: Scene) returns (w1: World, sc1: Scene)
    requires Shows(w, sc) && OnFirst(sc) && sc.version == 1
    requires sc.app == NewNode(Tsk(NewTask()), BeforeDep)
    ensures sc1 == sc.(app := Job(TaskRunning, FirstResult).(acts := [SetStatus(Status.Running), RunJob], tick := 1))
    ensures Shows(w1, sc1)
  {
    assert ViewOf(sc.dep) == FirstResult;
    JobOpens(sc.free, sc.clock);
    JobPasses(sc.clock);
    hide Shows, Decide, Take, RunStep, CanRun, JobAtGate, NewNode, Job;
    w1, sc1 := AppTurns(w, sc, FromQueue);
    w1, sc1 := AppDoes(w1, sc1, Nothing);
    w1, sc1 := AppTurns(w1, sc1, FromQueue);
  }

  function JobAtGate(acts: seq<Action>, queue: seq<Event>): Node {
    NewNode(Tsk(Task(TaskAtGate(Draining), [])), FirstResult).(acts := acts, queue := queue, tick := 1)
  }

  lemma JobOpens(free: nat, now: Instant)
    ensures var n := NewNode(Tsk(NewTask()), BeforeDep);
            && CanTake(n, FromQueue, 1, true, now)
            && Decide(Take(n, FromQueue, 1), FirstResult, now) == JobAtGate([DrainControl], [])
    ensures var n := JobAtGate([DrainControl], []);
            && CanRun(n, Nothing, free)
            && RunStep(n, Nothing, free) == Effect(JobAtGate([], [Drained(false)]), free, false)
  {
    assert [Begin][1..] == [];
  }

  lemma JobPasses(now: Instant)
    ensures var n := JobAtGate([], [Drained(false)]);
            && CanTake(n, FromQueue, 1, true, now)
            && Decide(Take(n, FromQueue, 1), FirstResult, now)
            == Job(TaskRunning, FirstResult).(acts := [SetStatus(Status.Running), RunJob], tick := 1)
  {
    assert [Drained(false)][1..] == [];
  }

  function JobLeft(micro: seq<Micro>): Node {
    Job(TaskRunning, FirstResult).(status := Status.Running, micro := micro, tick := 1)
  }

  const ToHit: seq<Micro> := [ReadStamps, SeedStamp, StampOutput(None), Publish(Status.Done(true, 0)), JobReply(0, true)]

  lemma JobHits(w: World, sc: Scene) returns (w1: World, sc1: Scene)
    requires Shows(w, sc) && sc.version == 1
    requires sc.app == Job(TaskRunning, FirstResult).(acts := [SetStatus(Status.Running), RunJob], tick := 1)
    ensures sc1 == sc.(app := JobLeft(ToHit[3..]), version := 2) && Shows(w1, sc1)
  {
    hide Shows, On, TaskOn;
    w1, sc1 := AppDoes(w, sc, Nothing);
    assert sc1.app == JobLeft([Bump]).(acts := [RunJob]);
    w1, sc1 := AppDoes(w1, sc1, Nothing);
    assert sc1.app == JobLeft([]).(acts := [RunJob]);
    w1, sc1 := AppDoes(w1, sc1, JobGoes(Hit(0, None)));
    assert sc1.app == JobLeft(ToHit);
    w1, sc1 := AppDoes(w1, sc1, Nothing);
    assert sc1.app == JobLeft(ToHit[1..]);
    w1, sc1 := AppDoes(w1, sc1, Nothing);
    assert ToHit[1..][1..] == ToHit[2..];
    w1, sc1 := AppDoes(w1, sc1, Nothing);
    assert ToHit[2..][1..] == ToHit[3..];
  }

  const SecondResult := Deps(None, [2], [DEP])

  lemma JobEnds(w: World, sc: Scene) returns (w1: World, sc1: Scene)
    requires Shows(w, sc) && sc.version == 3 && sc.dep == Served1(2, 2) && sc.app == JobLeft(ToHit[3..])
    ensures sc1 == sc.(app := Job(TaskParked, SecondResult).(status := Status.Done(true, 0), generation := 1, tick := 4),
                       version := 4)
    ensures Shows(w1, sc1)
  {
    hide Shows, On;
    var shown := JobLeft([JobReply(0, true)]).(status := Status.Done(true, 0), generation := 1);
    w1, sc1 := AppDoes(w, sc, Nothing);
    assert ToHit[3..][1..] == [JobReply(0, true)];
    assert sc1.app == shown.(micro := [Bump, JobReply(0, true)]);
    w1, sc1 := AppDoes(w1, sc1, Nothing);
    assert [Bump, JobReply(0, true)][1..] == [JobReply(0, true)];
    assert sc1.app == shown;
    w1, sc1 := AppDoes(w1, sc1, Nothing);
    assert ViewOf(sc1.dep) == SecondResult;
    w1, sc1 := AppTurns(w1, sc1, FromQueue);
    assert sc1.app == Job(TaskParked, SecondResult).(status := Status.Done(true, 0), generation := 1, tick := 4);
  }

  /** A task can park as done on a result its dependency replaced during the run:
      the case `TaskRest.RestsCurrentExactly` leaves. */
  lemma TaskCanParkStale() returns (w: World)
    ensures Reachable(TwoNodes, w) && Blocked(w, APP) && NoWriteInFlight(w)
    ensures w.nodes[APP].machine == Tsk(Task(TaskParked, [1])) && w.nodes[APP].status.Done?
    ensures GenerationOf(w, DEP) == 2
  {
    hide Reachable, Next, Enabled;
    var sc: Scene;
    w, sc := Opens(DepMachine, Tsk(NewTask()));
    w, sc := DepServes(w, sc);
    w, sc := JobBegins(w, sc);
    w, sc := JobHits(w, sc);
    w, sc := DepAgain(w, sc, 1);
    w, sc := JobEnds(w, sc);
  }

  // ------------------------------------------------------------------
  // A gate that opens on a dependency that is building again

  const ToGo: seq<Action> := [SetStatus(Status.Running), RunJob]

  function DepTask(ph: TaskPhase): Node {
    NewNode(Tsk(Task(ph, [])), NoDeps).(queue := [])
  }

  /** A task with nothing upstream starts a run, from a drained queue. */
  lemma DepRuns(w: World, sc: Scene) returns (w1: World, sc1: Scene)
    requires Shows(w, sc)
    requires sc.dep == DepTask(TaskAtGate(Draining)).(queue := [Drained(false)], status := sc.dep.status,
                                                      generation := sc.dep.generation, tick := sc.dep.tick)
    requires sc.dep.status != Status.Running
    ensures sc1 == sc.(dep := DepTask(TaskRunning).(acts := [RunJob], status := Status.Running,
                                                    generation := sc.dep.generation, tick := sc.version),
                       version := sc.version + 1)
    ensures Shows(w1, sc1)
  {
    hide Shows, On;
    w1, sc1 := DepTurns(w, sc, FromQueue);
    var going := DepTask(TaskRunning).(acts := ToGo, status := sc.dep.status,
                                       generation := sc.dep.generation, tick := sc.version);
    assert sc1.dep == going;
    w1, sc1 := DepDoes(w1, sc1, Nothing);
    assert ToGo[1..] == [RunJob];
    assert sc1.dep == going.(acts := [RunJob], status := Status.Running, micro := [Bump]);
    w1, sc1 := DepDoes(w1, sc1, Nothing);
  }

  /** Its first run: found in the cache. */
  lemma DepHits(w: World, sc: Scene) returns (w1: World, sc1: Scene)
    requires Shows(w, sc) && sc.version == 1
    requires sc.dep == DepTask(TaskRunning).(acts := [RunJob], status := Status.Running)
    ensures sc1 == sc.(dep := DepTask(TaskParked).(status := Status.Done(true, 0), generation := 1, tick := 2), version := 2)
    ensures Shows(w1, sc1)
  {
    hide Shows, On;
    var n := DepTask(TaskRunning).(status := Status.Running);
    w1, sc1 := DepDoes(w, sc, JobGoes(Hit(0, None)));
    assert sc1.dep == n.(micro := ToHit);
    w1, sc1 := DepDoes(w1, sc1, Nothing);
    assert sc1.dep == n.(micro := ToHit[1..]);
    w1, sc1 := DepDoes(w1, sc1, Nothing);
    assert ToHit[1..][1..] == ToHit[2..];
    w1, sc1 := DepDoes(w1, sc1, Nothing);
    assert ToHit[2..][1..] == ToHit[3..];
    assert sc1.dep == n.(micro := ToHit[3..]);
    w1, sc1 := DepShows(w1, sc1);
  }

  lemma DepShows(w: World, sc: Scene) returns (w1: World, sc1: Scene)
    requires Shows(w, sc) && sc.version == 1
    requires sc.dep == DepTask(TaskRunning).(status := Status.Running, micro := ToHit[3..])
    ensures sc1 == sc.(dep := DepTask(TaskParked).(status := Status.Done(true, 0), generation := 1, tick := 2), version := 2)
    ensures Shows(w1, sc1)
  {
    hide Shows, On;
    var n := DepTask(TaskRunning).(status := Status.Done(true, 0), generation := 1);
    w1, sc1 := DepDoes(w, sc, Nothing);
    assert ToHit[3..][1..] == [JobReply(0, true)];
    assert sc1.dep == n.(micro := [Bump, JobReply(0, true)]);
    w1, sc1 := DepDoes(w1, sc1, Nothing);
    assert [Bump, JobReply(0, true)][1..] == [JobReply(0, true)];
    assert sc1.dep == n.(micro := [JobReply(0, true)]);
    w1, sc1 := DepDoes(w1, sc1, Nothing);
    w1, sc1 := DepTurns(w1, sc1, FromQueue);
  }

  lemma DepDrains(w: World, sc: Scene) returns (w1: World, sc1: Scene)
    requires Shows(w, sc) && sc.dep == NewNode(Tsk(NewTask()), NoDeps)
    ensures sc1 == sc.(dep := DepTask(TaskAtGate(Draining)).(queue := [Drained(false)], tick := sc.version)) && Shows(w1, sc1)
  {
    hide Shows, On;
    w1, sc1 := DepTurns(w, sc, FromQueue);
    w1, sc1 := DepDoes(w1, sc1, Nothing);
  }

  /** It is asked to run again. */
  lemma DepReruns(w: World, sc: Scene) returns (w1: World, sc1: Scene)
    requires Shows(w, sc)
    requires sc.dep == DepTask(TaskParked).(status := Status.Done(true, 0), generation := 1, tick := sc.dep.tick)
    ensures Shows(w1, sc1) && sc1.app == sc.app && sc1.version == sc.version + 1 && sc1.clock == sc.clock
    ensures sc1.dep.status == Status.Running && sc1.dep.generation == 1
  {
    hide Shows, On;
    w1, sc1 := DepAsked(w, sc);
    w1, sc1 := DepTurns(w1, sc1, NormalMessage);
    var woken := DepTask(TaskAtGate(Draining)).(status := Status.Done(true, 0), generation := 1, tick := sc.version);
    assert sc1.dep == woken.(acts := [SetReason(Given("")), DrainControl]);
    w1, sc1 := DepDoes(w1, sc1, Nothing);
    assert [SetReason(Given("")), DrainControl][1..] == [DrainControl];
    w1, sc1 := DepDoes(w1, sc1, Nothing);
    assert sc1.dep == woken.(queue := [Drained(false)]);
    w1, sc1 := DepRuns(w1, sc1);
  }

  /** A node can pass its gate while its dependency, ready when it was looked at,
      builds again: the drain's answer opens the gate without another look. */
  lemma PassesGateUnready() returns (w: World, w1: World)
    ensures Reachable(TwoNodes, w) && Enabled(TwoNodes, w, DecideOn(APP)) && w1 == Next(TwoNodes, w, DecideOn(APP))
    ensures Reachable(TwoNodes, w1)
    ensures !Ready(w, DEP) && w.nodes[APP].machine == Tsk(Task(TaskAtGate(Draining), []))
    ensures w1.nodes[APP].machine == Tsk(Task(TaskRunning, [1]))
  {
    hide Reachable, Next, Enabled, On;
    var sc: Scene;
    w, sc := Opens(Tsk(NewTask()), Tsk(NewTask()));
    w, sc := DepDrains(w, sc);
    w, sc := DepRuns(w, sc);
    w, sc := DepHits(w, sc);
    w, sc := AppLooks(w, sc);
    w, sc := DepReruns(w, sc);
    w, w1 := AppGoes(w, sc);
  }

  lemma AppLooks(w: World, sc: Scene) returns (w1: World, sc1: Scene)
    requires Shows(w, sc) && sc.dep.status.IsReady() && sc.dep.generation == 1
    requires sc.app == NewNode(Tsk(NewTask()), BeforeDep)
    ensures sc1 == sc.(app := NewNode(Tsk(Task(TaskAtGate(Draining), [])), FirstResult).(queue := [Drained(false)], tick := sc.version))
    ensures Shows(w1, sc1)
  {
    hide Shows, On;
    assert ViewOf(sc.dep) == FirstResult;
    w1, sc1 := AppTurns(w, sc, FromQueue);
    w1, sc1 := AppDoes(w1, sc1, Nothing);
  }

  lemma AppGoes(w: World, sc: Scene) returns (w1: World, w2: World)
    requires Shows(w, sc) && sc.dep.status == Status.Running && sc.dep.generation == 1
    requires sc.app.Idle() && sc.app.queue == [Drained(false)] && sc.app.machine == Tsk(Task(TaskAtGate(Draining), []))
    ensures Reachable(TwoNodes, w1) && Enabled(TwoNodes, w1, DecideOn(APP)) && w2 == Next(TwoNodes, w1, DecideOn(APP))
    ensures Reachable(TwoNodes, w2)
    ensures !Ready(w1, DEP) && w1.nodes[APP].machine == sc.app.machine
    ensures w2.nodes[APP].machine == Tsk(Task(TaskRunning, [1]))
  {
    hide Reachable, On;
    w1 := Go(TwoNodes, w, TakeEvent(APP, FromQueue));
    assert DepView(w1, [DEP]).generations == [1];
    w2 := Go(TwoNodes, w1, DecideOn(APP));
  }
}
