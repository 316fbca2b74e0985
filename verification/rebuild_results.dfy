/** A process that rebuilds itself, in a session: its lines, the polls of its
    counters, and the board. However a rebuild falls between two polls, it ends in
    a new result that dependents can see. */
module RebuildResults {
  import opened Status
  import opened Lifecycle
  import opened Supervisor
  import opened World
  import opened WorldInvariant
  import opened BoardGenerations
  import F = ReloadFollower
  import Rest = TaskRest
  import SI = SupervisorInvariant
  import SR = ServiceRuns
  import CL = CrashLoops

  /** A session with the lines one node has printed, how many when its counters
      were last read, how many at the last reading its machine was told, how many
      readings it was told since it is in service, and the probe the last asked for. */
  datatype Talk = Talk(w: World, h: seq<F.Line>, read: nat, told: nat, looks: nat, probing: F.Probing)

  datatype Step = Moves(mv: Move) | Prints(line: F.Line)

  /** The counters are those of the lines so far. The count of errors is left out:
      it starts over with each process. */
  predicate CountersOf(c: ReloadCounters, h: seq<F.Line>) {
    c.(errors := 0) == F.Count(h).(errors := 0)
  }

  predicate Reads(w: World, name: Name, mv: Move) {
    && mv.DoNext? && mv.node == name && name in w.nodes
    && w.nodes[name].micro == [] && w.nodes[name].acts != [] && w.nodes[name].acts[0].ReadReloadCounters?
  }

  predicate Can(plan: Plan, name: Name, k: Talk, st: Step) {
    match st
    case Prints(_) => true
    case Moves(mv) =>
      && Enabled(plan, k.w, mv)
      && (Reads(k.w, name, mv) ==> mv.ans.CountersSay? && CountersOf(mv.ans.counters, k.h))
  }

  function Go(plan: Plan, name: Name, k: Talk, st: Step): Talk
    requires Can(plan, name, k, st)
  {
    match st
    case Prints(l) => k.(h := k.h + [l])
    case Moves(mv) =>
      var k1 := k.(w := Next(plan, k.w, mv), read := if Reads(k.w, name, mv) then |k.h| else k.read);
      if mv == DecideOn(name) && name in k.w.nodes then Hears(k1, k.w.nodes[name], k1.w.nodes[name]) else k1
  }

  /** What a decision made of the reading before it. */
  function Hears(k: Talk, n: Node, m: Node): Talk
    requires n.taken.Some?
  {
    var ev := n.taken.value;
    var k1 := k.(told := if ev.Counters? then k.read else k.told);
    if Serving(n) && Serving(m) then
      k1.(looks := if ev.Counters? then k.looks + 1 else k.looks, probing := F.ProbingAfter(k.probing, ev, m.acts))
    else
      k1.(looks := 0, probing := F.NotAsked)
  }

  predicate Serving(n: Node) {
    n.machine.Svc? && n.machine.service.phase.InService?
  }

  predicate Goes(plan: Plan, name: Name, k: Talk, steps: seq<Step>)
    decreases |steps|
  {
    steps == [] || (Can(plan, name, k, steps[0]) && Goes(plan, name, Go(plan, name, k, steps[0]), steps[1..]))
  }

  function EndOfTalk(plan: Plan, name: Name, k: Talk, steps: seq<Step>): Talk
    requires Goes(plan, name, k, steps)
    decreases |steps|
  {
    if steps == [] then k else EndOfTalk(plan, name, Go(plan, name, k, steps[0]), steps[1..])
  }

  /** In service all the while. */
  predicate Serves(plan: Plan, name: Name, k: Talk, steps: seq<Step>)
    requires Goes(plan, name, k, steps)
    decreases |steps|
  {
    && InServiceNow(k.w, name)
    && (steps != [] ==> Serves(plan, name, Go(plan, name, k, steps[0]), steps[1..]))
  }

  predicate InServiceNow(w: World, name: Name) {
    name in w.nodes && Serving(w.nodes[name])
  }

  function Begun(plan: Plan, machines: map<Name, Machine>): Talk
    requires machines.Keys == plan.deps.Keys
  {
    Talk(Start(plan, machines), [], 0, 0, 0, F.NotAsked)
  }

  // ------------------------------------------------------------------
  // What a decision in service knows of rebuilds

  predicate Watching(s: Service) {
    && s.phase.InService? && !s.phase.rebuild.Off?
    && (s.phase.rebuild.Unknown? ==> s.phase.pending.None?)
  }

  /** Counters told are the counters known, and what becomes ready says so. */
  predicate Learns(s: Service, ev: Event, t: Service, out: seq<Action>)
    requires s.phase.InService? && t.phase.InService?
  {
    var r, q := s.phase.rebuild, t.phase.rebuild;
    && Watching(t)
    && (if ev.Counters? then !q.Unknown? && q.Seen() == ev.counters.reloadMatches
        else q.Unknown? == r.Unknown? && q.Seen() == r.Seen())
    && (q.UpToDate? && !r.Unknown? ==> (r.UpToDate? && q.Seen() == r.Seen()) || F.Results(F.Shown(out)) > 0)
  }

  lemma OneResult(shown: seq<Status>)
    requires shown != [] && shown[|shown| - 1] == Status.Healthy
    ensures F.Results(shown) > 0
  {
  }

  lemma NoExit(s: Service, ev: Event, deps: Deps, now: Instant)
    requires s.phase.InService?
    ensures On(s, ev, deps, now) == StepService(s, ev, deps, now)
  {
    CL.ServiceNeverExits(s, CL.Input(ev, deps, now));
    hide StepService;
  }

  lemma LearnsOfCounters(s: Service, c: ReloadCounters, deps: Deps, now: Instant)
    requires Watching(s) && s.phase.pending.None?
    ensures var turn := On(s, Counters(c), deps, now);
            turn.next.phase.InService? && Learns(s, Counters(c), turn.next, turn.out)
  {
    NoExit(s, Counters(c), deps, now);
    NoExit(s, Counters(c), F.Nothing, now);
    F.OnCounters(s, c, now);
    hide On, CountersRead, F.Results, F.Shown;
    var turn := On(s, Counters(c), F.Nothing, now);
    assert On(s, Counters(c), deps, now) == turn;
    var shown := F.Shown(turn.out);
    if shown != [] && shown[|shown| - 1] == Status.Healthy { OneResult(shown); }
  }

  lemma LearnsOfProbe(s: Service, result: ProbeResult, deps: Deps, now: Instant)
    requires Watching(s)
    ensures var turn := On(s, Probed(ForReload, result), deps, now);
            turn.next.phase.InService? && Learns(s, Probed(ForReload, result), turn.next, turn.out)
  {
    NoExit(s, Probed(ForReload, result), deps, now);
    if s.phase.pending.Some? {
      F.SettleTells(s.(phase := s.phase.(pending := None)), s.phase.pending.value, result.Pass?, now);
      OneResult([Status.Healthy]);
    }
    hide On, Settle, F.Results, F.Shown;
  }

  /** No other event has a say in what is known. */
  lemma OthersSayNothing(s: Service, ev: Event, deps: Deps, now: Instant)
    requires s.phase.InService? && !ev.Counters? && !(ev.Probed? && ev.purpose.ForReload?)
    ensures var p := StepService(s, ev, deps, now).next.phase;
            p.InService? ==> p.rebuild == s.phase.rebuild && p.pending == s.phase.pending
  {
  }

  lemma Decides(s: Service, x: SI.Sum, ev: Event, deps: Deps, now: Instant)
    requires Watching(s) && SI.TakenFits(s, x, ev)
    ensures var turn := On(s, ev, deps, now);
            turn.next.phase.InService? ==> Learns(s, ev, turn.next, turn.out)
  {
    if ev.Counters? {
      NothingPending(s, x, ev);
      LearnsOfCounters(s, ev.counters, deps, now);
    } else if ev.Probed? && ev.purpose.ForReload? {
      LearnsOfProbe(s, ev.result, deps, now);
    } else {
      OthersSayNothing(s, ev, deps, now);
      NoExit(s, ev, deps, now);
    }
    hide On, StepService, SI.TakenFits, F.Results, F.Shown;
  }

  lemma NothingPending(s: Service, x: SI.Sum, ev: Event)
    requires s.phase.InService? && ev.Counters? && SI.TakenFits(s, x, ev)
    ensures s.phase.pending.None?
  {
  }

  /** A service comes into service knowing nothing of its output. */
  lemma EntersUnknowing(s: Service, ev: Event, deps: Deps, now: Instant)
    requires !s.phase.InService? && On(s, ev, deps, now).next.phase.InService?
    ensures var p := On(s, ev, deps, now).next.phase;
            p.pending.None? && if s.cfg.followsReloads then p.rebuild.Unknown? else p.rebuild.Off?
  {
    match s.phase
    case InStartup(_) => StartupEnters(s, ev, deps, now);
    case _ =>
  }

  lemma StartupEnters(s: Service, ev: Event, deps: Deps, now: Instant)
    requires s.phase.InStartup? && StepStartup(s, s.phase.deadline, ev, deps, now).next.phase.InService?
    ensures var p := StepStartup(s, s.phase.deadline, ev, deps, now).next.phase;
            p.pending.None? && if s.cfg.followsReloads then p.rebuild.Unknown? else p.rebuild.Off?
  {
    if ev.Exited? { ExitLeaves(GiveUpReadiness(s, now).next, ev.code, now); }
  }

  // ------------------------------------------------------------------
  // Over every session

  predicate Follows(m: Machine) {
    m.Svc? && m.service.cfg.followsReloads
  }

  /** What is on its way to the machine, and what it knows, is what was printed. */
  predicate NodeTold(n: Node, h: seq<F.Line>, read: nat, told: nat) {
    && Follows(n.machine) && told <= read <= |h|
    && (forall ev <- n.queue :: ev.Counters? ==> CountersOf(ev.counters, h[..read]))
    && (n.taken.Some? && n.taken.value.Counters? ==> CountersOf(n.taken.value.counters, h[..read]))
    && var s := n.machine.service;
       s.phase.InService? ==>
         && Watching(s)
         && (!s.phase.rebuild.Unknown? ==> s.phase.rebuild.Seen() == F.Count(h[..told]).reloadMatches)
  }

  predicate TalkInv(plan: Plan, name: Name, k: Talk) {
    Inv(plan, k.w) && name in k.w.nodes && NodeTold(k.w.nodes[name], k.h, k.read, k.told)
  }

  lemma PrintKeeps(n: Node, h: seq<F.Line>, read: nat, told: nat, line: F.Line)
    requires NodeTold(n, h, read, told)
    ensures NodeTold(n, h + [line], read, told)
  {
    assert (h + [line])[..read] == h[..read] && (h + [line])[..told] == h[..told];
    hide CountersOf, Watching;
  }

  lemma TakeKeeps(n: Node, src: Source, version: nat, hasDeps: bool, now: Instant, h: seq<F.Line>, read: nat, told: nat)
    requires NodeTold(n, h, read, told) && CanTake(n, src, version, hasDeps, now)
    ensures NodeTold(Take(n, src, version), h, read, told)
  {
    hide CountersOf, Watching;
    if src.FromQueue? { assert n.queue[0] in n.queue; }
  }

  /** A decision learns at most what was last read. */
  lemma DecideKeeps(n: Node, deps: Deps, now: Instant, h: seq<F.Line>, read: nat, told: nat)
    requires NodeTold(n, h, read, told) && SR.SvcInv(n) && n.taken.Some?
    ensures NodeTold(Decide(n, deps, now), h, read, if n.taken.value.Counters? then read else told)
  {
    var s, ev := n.machine.service, n.taken.value;
    if s.phase.InService? {
      Decides(s, SR.Base(n), ev, deps, now);
    } else if On(s, ev, deps, now).next.phase.InService? {
      EntersUnknowing(s, ev, deps, now);
    }
    hide On, F.Count, F.Results, F.Shown, SI.TakenFits;
  }

  /** What is read is what has been printed by then. */
  lemma DoKeeps(n: Node, ans: Answer, free: nat, h: seq<F.Line>, read: nat, told: nat)
    requires NodeTold(n, h, read, told) && SR.SvcInv(n) && CanRun(n, ans, free)
    requires AsksCounters(n) ==> CountersOf(ans.counters, h)
    ensures NodeTold(RunStep(n, ans, free).node, h, if AsksCounters(n) then |h| else read, told)
  {
    if AsksCounters(n) {
      SR.RequestEmpties(n);
      assert h[..|h|] == h;
      hide Watching, CountersOf, SR.SvcInv;
    } else {
      StepAddsNoCounters(n, ans, free);
      hide RunStep, Watching, CountersOf, SR.SvcInv;
    }
  }

  predicate AsksCounters(n: Node) {
    n.micro == [] && n.acts != [] && n.acts[0].ReadReloadCounters?
  }

  lemma StepAddsNoCounters(n: Node, ans: Answer, free: nat)
    requires CanRun(n, ans, free) && !AsksCounters(n)
    ensures forall ev <- RunStep(n, ans, free).node.queue :: ev.Counters? ==> ev in n.queue
  {
    hide RunAction;
    if n.micro == [] { ActionAddsNoCounters(n.(acts := n.acts[1..]), n.acts[0], ans, free); }
  }

  lemma ActionAddsNoCounters(n: Node, a: Action, ans: Answer, free: nat)
    requires a.Probe? ==> ans.ProbeSays?
    requires a.RunJob? ==> ans.JobGoes?
    requires !a.ReadReloadCounters?
    ensures forall ev <- RunAction(n, a, ans, free).node.queue :: ev.Counters? ==> ev in n.queue
  {
  }

  lemma GoKeeps(plan: Plan, name: Name, k: Talk, st: Step)
    requires TalkInv(plan, name, k) && Can(plan, name, k, st)
    ensures TalkInv(plan, name, Go(plan, name, k, st))
  {
    hide Inv, NodeTold, Take, Decide, RunStep, CountersOf, Enabled;
    var n := k.w.nodes[name];
    if st.Prints? {
      PrintKeeps(n, k.h, k.read, k.told, st.line);
    } else {
      NextKeeps(plan, k.w, st.mv);
      MoveKeeps(plan, name, k, st.mv);
    }
  }

  lemma MoveKeeps(plan: Plan, name: Name, k: Talk, mv: Move)
    requires TalkInv(plan, name, k) && Can(plan, name, k, Moves(mv))
    ensures var k1 := Go(plan, name, k, Moves(mv));
            name in k1.w.nodes && NodeTold(k1.w.nodes[name], k1.h, k1.read, k1.told)
  {
    LocalAt(plan, k.w, name);
    TickOf(k.w.nodes[name], plan.deps[name], k.w.version);
    FollowsService(k.w.nodes[name], k.h, k.read, k.told);
    hide Inv, NodeTold, SR.SvcInv, SR.StopInv, Can, Go;
    if mv == DecideOn(name) || (mv.TakeEvent? && mv.node == name) {
      TurnKeeps(plan, name, k, mv);
    } else if mv.DoNext? && mv.node == name {
      StepKeeps(plan, name, k, mv);
    } else {
      ElseKeeps(plan, name, k, mv);
    }
  }

  lemma TurnKeeps(plan: Plan, name: Name, k: Talk, mv: Move)
    requires name in k.w.nodes && NodeTold(k.w.nodes[name], k.h, k.read, k.told) && SR.SvcInv(k.w.nodes[name])
    requires Can(plan, name, k, Moves(mv)) && (mv == DecideOn(name) || (mv.TakeEvent? && mv.node == name))
    ensures var k1 := Go(plan, name, k, Moves(mv));
            name in k1.w.nodes && NodeTold(k1.w.nodes[name], k1.h, k1.read, k1.told)
  {
    hide NodeTold, SR.SvcInv, Take, Decide, CanTake, DepView;
    var n := k.w.nodes[name];
    if mv.TakeEvent? {
      TakeKeeps(n, mv.src, k.w.version, plan.deps[name] != [], k.w.clock, k.h, k.read, k.told);
    } else {
      DecideKeeps(n, DepView(k.w, plan.deps[name]), k.w.clock, k.h, k.read, k.told);
    }
  }

  lemma StepKeeps(plan: Plan, name: Name, k: Talk, mv: Move)
    requires name in k.w.nodes && NodeTold(k.w.nodes[name], k.h, k.read, k.told) && SR.SvcInv(k.w.nodes[name])
    requires Can(plan, name, k, Moves(mv)) && mv.DoNext? && mv.node == name
    ensures var k1 := Go(plan, name, k, Moves(mv));
            name in k1.w.nodes && NodeTold(k1.w.nodes[name], k1.h, k1.read, k1.told)
  {
    hide NodeTold, SR.SvcInv, RunStep, CountersOf, CanRun;
    DoKeeps(k.w.nodes[name], mv.ans, k.w.free, k.h, k.read, k.told);
  }

  lemma ElseKeeps(plan: Plan, name: Name, k: Talk, mv: Move)
    requires name in k.w.nodes && NodeTold(k.w.nodes[name], k.h, k.read, k.told)
    requires Can(plan, name, k, Moves(mv)) && mv != DecideOn(name)
    requires (mv.TakeEvent? || mv.DoNext?) ==> mv.node != name
    ensures var k1 := Go(plan, name, k, Moves(mv));
            name in k1.w.nodes && NodeTold(k1.w.nodes[name], k1.h, k1.read, k1.told)
  {
    SentKeeps(k.w.nodes[name], if mv.RestartOf? then mv.why else "", k.h, k.read, k.told);
    hide NodeTold, Take, Decide, RunStep, QueueStop, AnnounceStop, QueueRestart, DropSenders, CountersOf;
  }

  lemma FollowsService(n: Node, h: seq<F.Line>, read: nat, told: nat)
    requires NodeTold(n, h, read, told)
    ensures n.machine.Svc? && told <= |h|
  {
  }

  lemma SentKeeps(n: Node, why: string, h: seq<F.Line>, read: nat, told: nat)
    requires NodeTold(n, h, read, told)
    ensures NodeTold(QueueStop(n), h, read, told) && NodeTold(AnnounceStop(n), h, read, told)
    ensures NodeTold(QueueRestart(n, why), h, read, told) && NodeTold(DropSenders(n), h, read, told)
  {
    hide CountersOf, Watching;
  }

  lemma {:induction false} TalksKeep(plan: Plan, name: Name, k: Talk, steps: seq<Step>)
    requires TalkInv(plan, name, k) && Goes(plan, name, k, steps)
    ensures TalkInv(plan, name, EndOfTalk(plan, name, k, steps))
    decreases |steps|
  {
    hide TalkInv, Can, Go;
    if steps != [] {
      GoKeeps(plan, name, k, steps[0]);
      TalksKeep(plan, name, Go(plan, name, k, steps[0]), steps[1..]);
    }
  }

  lemma TalkStarts(plan: Plan, machines: map<Name, Machine>, name: Name)
    requires machines.Keys == plan.deps.Keys && plan.Closed()
    requires forall n <- machines :: Initial(machines[n])
    requires name in machines && Follows(machines[name])
    ensures TalkInv(plan, name, Begun(plan, machines))
  {
    StartKeeps(plan, machines);
    hide Inv, NodeTold;
    NewTold(machines[name].service.cfg, StartView(plan.deps[name]));
  }

  lemma NewTold(cfg: ServiceConfig, view: Deps)
    requires cfg.followsReloads
    ensures NodeTold(NewNode(Svc(NewService(cfg)), view), [], 0, 0)
  {
  }

  // ------------------------------------------------------------------
  // What is known of the newest reading

  /** What a machine in service makes of the lines it was told, by how many readings
      told it of them and what came of the newest one's probe. */
  predicate Knows(s: Service, h: seq<F.Line>, looks: nat, probing: F.Probing)
    requires s.phase.InService?
  {
    var c, r := F.Count(h), s.phase.rebuild;
    && Watching(s)
    && (r.Unknown? <==> looks == 0)
    && (probing.Asked? <==> s.phase.pending.Some?)
    && (s.phase.pending.Some? ==> CountersOf(s.phase.pending.value, h) && !r.UpToDate?)
    && (r.UpToDate? ==> c.reloadMatches == 0 || c.readyMatches > c.readyMatchesAtReload)
    && (r.UpToDate? && looks > 1 ==> c.failures == 0)
    && (looks > 1 && !probing.Asked? && !probing.Refused? && ReadyAgain(c) ==> r.UpToDate?)
  }

  predicate KnowsNow(k: Talk, name: Name)
    requires name in k.w.nodes && k.told <= |k.h|
  {
    Serving(k.w.nodes[name]) ==> Knows(k.w.nodes[name].machine.service, k.h[..k.told], k.looks, k.probing)
  }

  lemma KnowsOfCounters(s: Service, c: ReloadCounters, deps: Deps, now: Instant, h: seq<F.Line>, told: nat, read: nat, looks: nat, probing: F.Probing)
    requires told <= read <= |h| && s.phase.InService? && s.phase.pending.None? && Knows(s, h[..told], looks, probing)
    requires CountersOf(c, h[..read])
    requires !s.phase.rebuild.Unknown? ==> s.phase.rebuild.Seen() == F.Count(h[..told]).reloadMatches
    ensures var turn := On(s, Counters(c), deps, now);
            && turn.next.phase.InService?
            && Knows(turn.next, h[..read], looks + 1, F.ProbingAfter(probing, Counters(c), turn.out))
  {
    NoExit(s, Counters(c), deps, now);
    NoExit(s, Counters(c), F.Nothing, now);
    F.OnCounters(s, c, now);
    hide On, F.Count, F.Shown, F.Verdict, F.StandsAs;
    assert On(s, Counters(c), deps, now) == On(s, Counters(c), F.Nothing, now);
    F.CountGrows(h, told, read);
    F.CountMeans(h[..read]);
    hide F.Reloads, F.ReadyAfterReloads, F.NoFailureStands, F.NoErrorStands;
  }

  lemma KnowsOfReply(s: Service, result: ProbeResult, deps: Deps, now: Instant, h: seq<F.Line>, looks: nat, probing: F.Probing)
    requires s.phase.InService? && Knows(s, h, looks, probing)
    ensures var turn := On(s, Probed(ForReload, result), deps, now);
            && turn.next.phase.InService?
            && Knows(turn.next, h, looks, F.ProbingAfter(probing, Probed(ForReload, result), turn.out))
  {
    NoExit(s, Probed(ForReload, result), deps, now);
    if s.phase.pending.Some? {
      F.SettleTells(s.(phase := s.phase.(pending := None)), s.phase.pending.value, result.Pass?, now);
    }
    hide On, Settle, F.Count, F.Shown, F.Verdict, F.StandsAs;
  }

  lemma HearsRight(n: Node, deps: Deps, now: Instant, h: seq<F.Line>, read: nat, told: nat, looks: nat, probing: F.Probing)
    requires NodeTold(n, h, read, told) && SR.SvcInv(n) && n.taken.Some?
    requires Serving(n) && Serving(Decide(n, deps, now)) && Knows(n.machine.service, h[..told], looks, probing)
    ensures var ev, m := n.taken.value, Decide(n, deps, now);
            Knows(m.machine.service, h[..if ev.Counters? then read else told],
                  if ev.Counters? then looks + 1 else looks, F.ProbingAfter(probing, ev, m.acts))
  {
    var s, ev := n.machine.service, n.taken.value;
    if ev.Counters? {
      NothingPending(s, SR.Base(n), ev);
      KnowsOfCounters(s, ev.counters, deps, now, h, told, read, looks, probing);
    } else if ev.Probed? && ev.purpose.ForReload? {
      KnowsOfReply(s, ev.result, deps, now, h[..told], looks, probing);
    } else {
      OthersSayNothing(s, ev, deps, now);
      NoExit(s, ev, deps, now);
    }
    hide On, StepService, SI.TakenFits, F.Count;
  }

  lemma HearsKeeps(k: Talk, name: Name, deps: Deps, now: Instant)
    requires name in k.w.nodes && SR.SvcInv(k.w.nodes[name]) && k.w.nodes[name].taken.Some?
    requires NodeTold(k.w.nodes[name], k.h, k.read, k.told) && KnowsNow(k, name)
    ensures var m := Decide(k.w.nodes[name], deps, now);
            var k1 := Hears(k.(w := k.w.(nodes := k.w.nodes[name := m])), k.w.nodes[name], m);
            KnowsNow(k1, name)
  {
    var n := k.w.nodes[name];
    var m := Decide(n, deps, now);
    hide SR.SvcInv, CountersOf, F.Count;
    if Serving(m) {
      if Serving(n) {
        HearsRight(n, deps, now, k.h, k.read, k.told, k.looks, k.probing);
        hide On, Knows;
      } else {
        EntersUnknowing(n.machine.service, n.taken.value, deps, now);
        hide On;
      }
    }
  }

  lemma DecisionKnows(plan: Plan, name: Name, k: Talk)
    requires TalkInv(plan, name, k) && Can(plan, name, k, Moves(DecideOn(name)))
    requires k.told <= |k.h| && KnowsNow(k, name)
    ensures var k1 := Go(plan, name, k, Moves(DecideOn(name)));
            name in k1.w.nodes && k1.told <= |k1.h| && KnowsNow(k1, name)
  {
    LocalAt(plan, k.w, name);
    FollowsService(k.w.nodes[name], k.h, k.read, k.told);
    ReadBehind(k.w.nodes[name], k.h, k.read, k.told);
    hide Inv, NodeTold, Decide, SR.SvcInv, SR.StopInv, KnowsNow, Knows;
    HearsKeeps(k, name, DepView(k.w, plan.deps[name]), k.w.clock);
  }

  lemma ReadBehind(n: Node, h: seq<F.Line>, read: nat, told: nat)
    requires NodeTold(n, h, read, told)
    ensures told <= read <= |h|
  {
  }

  lemma PrintKnows(plan: Plan, name: Name, k: Talk, line: F.Line)
    requires name in k.w.nodes && k.told <= |k.h| && KnowsNow(k, name)
    ensures KnowsNow(Go(plan, name, k, Prints(line)), name)
  {
    hide Knows;
    assert (k.h + [line])[..k.told] == k.h[..k.told];
  }

  lemma GoKnows(plan: Plan, name: Name, k: Talk, st: Step)
    requires TalkInv(plan, name, k) && Can(plan, name, k, st) && k.told <= |k.h| && KnowsNow(k, name)
    ensures var k1 := Go(plan, name, k, st);
            TalkInv(plan, name, k1) && k1.told <= |k1.h| && KnowsNow(k1, name)
  {
    GoKeeps(plan, name, k, st);
    if st.Prints? {
      PrintKnows(plan, name, k, st.line);
    } else if st.mv == DecideOn(name) {
      DecisionKnows(plan, name, k);
    } else {
      Rest.MindKept(plan, k.w, st.mv, name);
      hide Next, Enabled, Reads, Knows;
    }
    hide Inv, NodeTold, KnowsNow, Hears, CountersOf;
  }

  /** The invariant of a talk, with what is known of its newest reading. */
  predicate TalkKnows(plan: Plan, name: Name, k: Talk) {
    TalkInv(plan, name, k) && k.told <= |k.h| && KnowsNow(k, name)
  }

  lemma {:induction false} TalksKnow(plan: Plan, name: Name, k: Talk, steps: seq<Step>)
    requires TalkKnows(plan, name, k) && Goes(plan, name, k, steps)
    ensures TalkKnows(plan, name, EndOfTalk(plan, name, k, steps))
    decreases |steps|
  {
    hide TalkInv, Can, Go, KnowsNow;
    if steps != [] {
      GoKnows(plan, name, k, steps[0]);
      TalksKnow(plan, name, Go(plan, name, k, steps[0]), steps[1..]);
    }
  }

  // ------------------------------------------------------------------
  // From one moment in service to another

  /** Since a moment when `seen` reloads were known and `owed` was the generation
      to come: none more is known, or the node is out of ready, or it has a new
      result to show for it. */
  predicate Since(seen: nat, owed: nat, n: Node) {
    && n.machine.Svc? && n.machine.service.phase.InService? && !n.machine.service.phase.rebuild.Unknown?
    && Owed(n) >= owed
    && var r := n.machine.service.phase.rebuild;
       !r.UpToDate? || r.Seen() == seen || Owed(n) > owed
  }

  lemma SinceMove(plan: Plan, name: Name, k: Talk, mv: Move, seen: nat, owed: nat)
    requires TalkInv(plan, name, k) && Can(plan, name, k, Moves(mv)) && Since(seen, owed, k.w.nodes[name])
    requires InServiceNow(Next(plan, k.w, mv), name)
    ensures Since(seen, owed, Next(plan, k.w, mv).nodes[name])
  {
    var n := k.w.nodes[name];
    MoveOwes(plan, k.w, mv, name);
    LocalAt(plan, k.w, name);
    TickOf(n, plan.deps[name], k.w.version);
    if mv == DecideOn(name) {
      SinceDecision(n, DepView(k.w, plan.deps[name]), k.w.clock, k.h, k.read, k.told, seen, owed);
    } else {
      hide Inv, Next, Enabled, NodeTold, Owed, SR.SvcInv, SR.StopInv;
      Rest.MindKept(plan, k.w, mv, name);
    }
  }

  lemma SinceDecision(n: Node, deps: Deps, now: Instant, h: seq<F.Line>, read: nat, told: nat, seen: nat, owed: nat)
    requires NodeTold(n, h, read, told) && SR.SvcInv(n) && n.taken.Some? && Since(seen, owed, n)
    requires var m := Decide(n, deps, now);
             && m.machine.service.phase.InService?
             && Owed(m) == Owed(n) + F.Results(F.Shown(m.acts))
    ensures Since(seen, owed, Decide(n, deps, now))
  {
    Decides(n.machine.service, SR.Base(n), n.taken.value, deps, now);
    hide On, Owed, F.Results, F.Shown, F.Count, SI.TakenFits;
  }

  lemma SinceGo(plan: Plan, name: Name, k: Talk, st: Step, seen: nat, owed: nat)
    requires TalkInv(plan, name, k) && Can(plan, name, k, st) && Since(seen, owed, k.w.nodes[name])
    requires InServiceNow(Go(plan, name, k, st).w, name)
    ensures Since(seen, owed, Go(plan, name, k, st).w.nodes[name])
  {
    hide Inv, NodeTold, Next, Enabled, Since, CountersOf, Serving;
    if st.Moves? { SinceMove(plan, name, k, st.mv, seen, owed); }
    hide Hears, Reads;
  }

  lemma {:induction false} SinceRuns(plan: Plan, name: Name, k: Talk, steps: seq<Step>, seen: nat, owed: nat)
    requires TalkInv(plan, name, k) && Goes(plan, name, k, steps) && Serves(plan, name, k, steps)
    requires Since(seen, owed, k.w.nodes[name])
    ensures var k1 := EndOfTalk(plan, name, k, steps);
            name in k1.w.nodes && Since(seen, owed, k1.w.nodes[name])
    decreases |steps|
  {
    hide Can, Go, Since, NodeTold, Inv, Serving;
    if steps != [] {
      GoKeeps(plan, name, k, steps[0]);
      SinceGo(plan, name, k, steps[0], seen, owed);
      SinceRuns(plan, name, Go(plan, name, k, steps[0]), steps[1..], seen, owed);
    }
  }

  /** What is told in service is told by a look. */
  lemma LookGrows(plan: Plan, name: Name, k: Talk, st: Step)
    requires TalkInv(plan, name, k) && Can(plan, name, k, st)
    requires InServiceNow(k.w, name) && InServiceNow(Go(plan, name, k, st).w, name)
    ensures var k1 := Go(plan, name, k, st); k1.looks > k.looks || (k1.looks == k.looks && k1.told == k.told)
  {
    hide Inv, NodeTold, Next, CountersOf, Reads, F.ProbingAfter;
  }

  lemma {:induction false} LooksGrow(plan: Plan, name: Name, k: Talk, steps: seq<Step>)
    requires TalkInv(plan, name, k) && Goes(plan, name, k, steps) && Serves(plan, name, k, steps)
    ensures var k1 := EndOfTalk(plan, name, k, steps); k1.looks > k.looks || (k1.looks == k.looks && k1.told == k.told)
    decreases |steps|
  {
    hide Can, Go, TalkInv;
    if steps != [] {
      GoKeeps(plan, name, k, steps[0]);
      LookGrows(plan, name, k, steps[0]);
      LooksGrow(plan, name, Go(plan, name, k, steps[0]), steps[1..]);
    }
    hide InServiceNow;
  }

  lemma {:induction false} TalkGrows(plan: Plan, name: Name, k: Talk, steps: seq<Step>)
    requires TalkInv(plan, name, k) && Goes(plan, name, k, steps)
    ensures var k1 := EndOfTalk(plan, name, k, steps); k.h <= k1.h && k.told <= k1.told
    decreases |steps|
  {
    hide Next, Enabled, Inv;
    if steps != [] {
      GoKeeps(plan, name, k, steps[0]);
      TalkGrows(plan, name, Go(plan, name, k, steps[0]), steps[1..]);
    }
  }

  /** The newest reading has been acted on, and no probe was refused. */
  predicate Acted(k: Talk) {
    !k.probing.Asked? && !k.probing.Refused?
  }

  /** The newest reload line told was followed by a ready line, and no failed line stands. */
  predicate Back(k: Talk)
    requires k.told <= |k.h|
  {
    F.ReadyAfterReloads(k.h[..k.told]) && F.NoFailureStands(k.h[..k.told])
  }

  lemma BackIsUpToDate(plan: Plan, name: Name, k: Talk)
    requires TalkKnows(plan, name, k) && InServiceNow(k.w, name) && k.looks > 1 && Acted(k)
    ensures Back(k) ==> k.w.nodes[name].machine.service.phase.rebuild.UpToDate?
    ensures F.Reloads(k.h[..k.told]) && k.w.nodes[name].machine.service.phase.rebuild.UpToDate? ==> Back(k)
  {
    hide TalkInv, F.Count, F.Reloads, F.ReadyAfterReloads, F.NoFailureStands, F.NoErrorStands, Watching, CountersOf;
    F.CountMeans(k.h[..k.told]);
  }

  lemma BetweenMoments(plan: Plan, name: Name, a: Talk, since: seq<Step>)
    requires TalkKnows(plan, name, a) && Goes(plan, name, a, since) && Serves(plan, name, a, since)
    requires InServiceNow(a.w, name) && a.looks > 0
    requires var b := EndOfTalk(plan, name, a, since);
             && InServiceNow(b.w, name) && b.w.nodes[name].machine.service.phase.rebuild.UpToDate?
             && b.w.nodes[name].acts == []
             && exists i :: a.told <= i < b.told && i < |b.h| && b.h[i].reload
    ensures EndOfTalk(plan, name, a, since).w.nodes[name].generation > a.w.nodes[name].generation
  {
    TalksKeep(plan, name, a, since);
    TalkGrows(plan, name, a, since);
    hide Inv, Can, Go, F.Count, CountersOf, Goes;
    var b := EndOfTalk(plan, name, a, since);
    SinceRuns(plan, name, a, since, a.w.nodes[name].machine.service.phase.rebuild.Seen(), Owed(a.w.nodes[name]));
    NodesDiffer(a.w.nodes[name], a.h, a.read, a.told, b.w.nodes[name], b.h, b.read, b.told);
  }

  lemma NodesDiffer(n: Node, h: seq<F.Line>, read: nat, told: nat, m: Node, h1: seq<F.Line>, read1: nat, told1: nat)
    requires NodeTold(n, h, read, told) && NodeTold(m, h1, read1, told1) && h <= h1 && told <= told1
    requires n.machine.service.phase.InService? && !n.machine.service.phase.rebuild.Unknown?
    requires Since(n.machine.service.phase.rebuild.Seen(), Owed(n), m)
    requires m.machine.service.phase.rebuild.UpToDate? && m.acts == []
    requires exists i :: told <= i < told1 && h1[i].reload
    ensures m.generation > n.generation
  {
    assert h1[..told] == h[..told];
    F.CountGrows(h1, told, told1);
    NothingSaid();
    hide F.Count, F.Results, F.Shown, CountersOf;
  }

  /** What holds of every talk from the start of a session. */
  lemma EveryTalk(plan: Plan, machines: map<Name, Machine>, name: Name, steps: seq<Step>)
    requires machines.Keys == plan.deps.Keys && plan.Closed()
    requires forall n <- machines :: Initial(machines[n])
    requires name in machines && Follows(machines[name])
    requires Goes(plan, name, Begun(plan, machines), steps)
    ensures TalkKnows(plan, name, EndOfTalk(plan, name, Begun(plan, machines), steps))
  {
    TalkStarts(plan, machines, name);
    hide TalkInv, Can, Go, Knows;
    TalksKnow(plan, name, Begun(plan, machines), steps);
  }

  /** In every session: a service in service that has reloaded, past its first look
      and with its newest reading acted on, rests in ready exactly when its newest
      reload line was followed by a ready line and no failed line stands. */
  lemma RestsReadyExactly(plan: Plan, machines: map<Name, Machine>, name: Name, steps: seq<Step>)
    requires machines.Keys == plan.deps.Keys && plan.Closed()
    requires forall n <- machines :: Initial(machines[n])
    requires name in machines && Follows(machines[name])
    requires Goes(plan, name, Begun(plan, machines), steps)
    requires var k := EndOfTalk(plan, name, Begun(plan, machines), steps);
             InServiceNow(k.w, name) && k.looks > 1 && Acted(k) && k.told <= |k.h| && F.Reloads(k.h[..k.told])
    ensures var k := EndOfTalk(plan, name, Begun(plan, machines), steps);
            k.w.nodes[name].machine.service.phase.rebuild.UpToDate? <==> Back(k)
  {
    EveryTalk(plan, machines, name, steps);
    hide Goes, Can, Go, Back;
    BackIsUpToDate(plan, name, EndOfTalk(plan, name, Begun(plan, machines), steps));
    hide TalkKnows, F.Reloads;
  }

  /** No rebuild is missed by those who watch the board. In every session: between
      two moments of a service that stays in service, its first look behind it, if
      it is told of a reload line it had not been told of, and the newest such line
      was followed by a ready line with no failure since, then once that reading is
      acted on and nothing is left to do, the service rests in ready and its
      generation has moved, even if the rebuild began and ended between two polls. */
  lemma RebuildMovesBoard(plan: Plan, machines: map<Name, Machine>, name: Name, before: seq<Step>, since: seq<Step>)
    requires machines.Keys == plan.deps.Keys && plan.Closed()
    requires forall n <- machines :: Initial(machines[n])
    requires name in machines && Follows(machines[name])
    requires Goes(plan, name, Begun(plan, machines), before)
    requires var a := EndOfTalk(plan, name, Begun(plan, machines), before);
             && Goes(plan, name, a, since) && Serves(plan, name, a, since)
             && InServiceNow(a.w, name) && a.looks > 0
    requires var a := EndOfTalk(plan, name, Begun(plan, machines), before);
             var b := EndOfTalk(plan, name, a, since);
             && InServiceNow(b.w, name) && b.w.nodes[name].acts == []
             && a.told <= b.told <= |b.h| && Acted(b) && Back(b)
             && exists i :: a.told <= i < b.told && b.h[i].reload
    ensures var a := EndOfTalk(plan, name, Begun(plan, machines), before);
            var b := EndOfTalk(plan, name, a, since);
            && b.w.nodes[name].machine.service.phase.rebuild.UpToDate?
            && b.w.nodes[name].generation > a.w.nodes[name].generation
  {
    var a := EndOfTalk(plan, name, Begun(plan, machines), before);
    var b := EndOfTalk(plan, name, a, since);
    EveryTalk(plan, machines, name, before);
    hide Can, Go, Back, KnowsNow;
    TalksKnow(plan, name, a, since);
    LooksGrow(plan, name, a, since);
    hide TalkInv, Goes;
    BackIsUpToDate(plan, name, b);
    BetweenMoments(plan, name, a, since);
  }
}
