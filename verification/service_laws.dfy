/** What a service does about what happens to it, phase by phase, in terms of
    events, settings and generations: what makes it leave a phase, exactly, where
    it goes, and what it shows. Over whole histories: how long a startup may take,
    and what checks that miss in a row lead to. */
module ServiceLaws {
  import opened Status
  import opened Lifecycle
  import CL = CrashLoops

  /** A dependency is at another generation than the one noted. */
  predicate Moved(seen: seq<nat>, deps: Deps) {
    exists k :: 0 <= k < |seen| && k < |deps.generations| && k < |deps.names| && deps.generations[k] != seen[k]
  }

  /** The status an answer leaves a node with. */
  ghost predicate Shows(out: seq<Action>, st: Status) {
    exists k :: 0 <= k < |out| && LastAt(out, st, k)
  }

  predicate LastAt(out: seq<Action>, st: Status, k: nat)
    requires k < |out|
  {
    out[k] == SetStatus(st) && forall j | k < j < |out| :: !out[j].SetStatus? && !out[j].Fail?
  }

  predicate ShowsNothing(out: seq<Action>) {
    forall a <- out :: !a.SetStatus? && !a.Fail?
  }

  lemma ShowsAt(out: seq<Action>, st: Status, k: nat)
    requires k < |out| && LastAt(out, st, k)
    ensures Shows(out, st)
  {
  }

  lemma ShowsAfter(said: seq<Action>, out: seq<Action>, st: Status)
    requires Shows(out, st)
    ensures Shows(said + out, st)
  {
    var k :| 0 <= k < |out| && LastAt(out, st, k);
    var all := said + out;
    forall j | |said| + k < j < |all| ensures !all[j].SetStatus? && !all[j].Fail? { assert all[j] == out[j - |said|]; }
    ShowsAt(all, st, |said| + k);
  }

  lemma ShowsBefore(said: seq<Action>, out: seq<Action>, st: Status)
    requires Shows(said, st) && ShowsNothing(out)
    ensures Shows(said + out, st)
  {
    var k :| 0 <= k < |said| && LastAt(said, st, k);
    var all := said + out;
    forall j | k < j < |all| ensures !all[j].SetStatus? && !all[j].Fail? {
      if j < |said| { assert all[j] == said[j]; } else { assert all[j] == out[j - |said|] && all[j] in out; }
    }
    ShowsAt(all, st, k);
  }

  // ------------------------------------------------------------------
  // The gate

  /** Waiting: on whatever is heard but a stop, a dependency that is not ready is
      named, and if there is none the drain is asked for. */
  lemma WaitsExactly(s: Service, ev: Event, deps: Deps, now: Instant)
    requires s.phase == AtGate(WaitingOnDeps)
    ensures var turn := On(s, ev, deps, now);
            if ev.Stop? then turn.next.phase == Finished && Shows(turn.out, Status.Stopped)
            else if deps.unready.Some? then turn == Turn(s, [SetStatus(Status.Waiting(deps.unready.value))])
            else turn == Turn(s.(phase := AtGate(Draining)), [DrainControl])
  {
    if ev.Stop? { ShowsAt(On(s, ev, deps, now).out, Status.Stopped, 0); }
  }

  /** Draining: its answer alone ends it, by a stop if there was one. A service with
      no command is up at once; one with a port has it freed before a slot is asked for. */
  lemma DrainsExactly(s: Service, ev: Event, deps: Deps, now: Instant)
    requires s.phase == AtGate(Draining)
    ensures var turn := On(s, ev, deps, now);
            var open := s.(seen := deps.generations);
            if ev.Stop? || ev == Drained(true) then turn.next.phase == Finished && Shows(turn.out, Status.Stopped)
            else if ev != Drained(false) then turn == Turn(s, [])
            else if !s.cfg.hasCmd then turn == Turn(open.(phase := Served), [SetStatus(Status.Healthy)])
            else if s.cfg.port.Some? then turn == Turn(open.(phase := Reclaiming), [ReclaimPort(s.cfg.port.value)])
            else turn == Turn(open.(phase := AwaitingSlot), [AcquireSlot])
  {
    if ev.Stop? || ev == Drained(true) { ShowsAt(On(s, ev, deps, now).out, Status.Stopped, 0); }
  }

  lemma CycleLooks(s: Service, deps: Deps)
    ensures Cycle(s, deps) == (if deps.unready.Some?
                               then Turn(s.(phase := AtGate(WaitingOnDeps)), [SetStatus(Status.Waiting(deps.unready.value))])
                               else Turn(s.(phase := AtGate(Draining)), [DrainControl]))
  {
  }

  /** Back at the gate, with a look at the dependencies. */
  ghost predicate Looks(turn: Turn, deps: Deps) {
    if deps.unready.Some? then
      turn.next.phase == AtGate(WaitingOnDeps) && Shows(turn.out, Status.Waiting(deps.unready.value))
    else turn.next.phase == AtGate(Draining) && DrainControl in turn.out
  }

  lemma CycleAfterLooks(said: seq<Action>, s: Service, deps: Deps)
    ensures var turn := After(said, Cycle(s, deps)); Looks(turn, deps)
    ensures Exit !in said ==> Exit !in After(said, Cycle(s, deps)).out
  {
    CycleLooks(s, deps);
    var out := Cycle(s, deps).out;
    assert (said + out)[|said|] == out[0];
    if deps.unready.Some? {
      ShowsAt(out, Status.Waiting(deps.unready.value), 0);
      ShowsAfter(said, out, Status.Waiting(deps.unready.value));
    }
  }

  // ------------------------------------------------------------------
  // Coming up

  /** From the gate to a process: a freed port, a slot, the spawn. */
  lemma ComesUpExactly(s: Service, ev: Event, deps: Deps, now: Instant)
    requires s.phase.Reclaiming? || s.phase.AwaitingSlot?
    ensures var turn := On(s, ev, deps, now);
            if s.phase.Reclaiming? && ev.PortReclaimed? then turn == Turn(s.(phase := AwaitingSlot), [AcquireSlot])
            else if s.phase.AwaitingSlot? && ev.SlotAcquired? then
              turn == Turn(s.(phase := Spawning), [SetStatus(Status.Starting), Spawn])
            else if ev.Stop? then turn.next.phase == Finished && Shows(turn.out, Status.Stopped)
            else turn == Turn(s, [])
  {
    if ev.Stop? { ShowsAt(On(s, ev, deps, now).out, Status.Stopped, 0); }
  }

  /** Spawned: probed until the deadline, or healthy at once. Not spawned: over
      under `never`, and otherwise a crash. */
  lemma SpawnsExactly(s: Service, ev: Event, deps: Deps, now: Instant)
    requires s.phase.Spawning?
    ensures var turn := On(s, ev, deps, now);
            match ev
            case Spawned =>
              && turn.next.started == Some(now)
              && (if s.cfg.probed then
                    turn.next.phase == InStartup(now + s.cfg.readyTimeout) && turn.out == [Probe(ForReady)]
                  else turn.next.phase.InService? && Shows(turn.out, Status.Healthy) && ReloadBrowser in turn.out)
            case SpawnFailed(e) =>
              && Fail(CannotSpawn(e), 127) in turn.out && ReleaseSlot in turn.out
              && (if s.cfg.restart == Never then turn.next.phase == Finished
                  else turn.next.phase == BackingOff || turn.next.phase == Parked(true, true))
            case _ => turn == Turn(s, [])
  {
    var turn := On(s, ev, deps, now);
    match ev
    case Spawned =>
      if !s.cfg.probed {
        HealthyThenWatched([], s.(started := Some(now)), now);
        ReadySaysNothing(s.(started := Some(now)), true, now);
        assert [] + [SetStatus(Status.Healthy)] == [SetStatus(Status.Healthy)];
        hide BecomeReady, Shows;
      }
      CL.SpawningPaid(s, CL.Input(ev, deps, now));
    case SpawnFailed(e) =>
      FailsSpawn(s, e, now);
    case _ =>
  }

  lemma FailsSpawn(s: Service, e: string, now: Instant)
    ensures var turn := FailSpawn(s, e, now);
            && |turn.out| >= 2 && turn.out[0] == Fail(CannotSpawn(e), 127) && turn.out[1] == ReleaseSlot
            && (if s.cfg.restart == Never then Exit in turn.out
                else Exit !in turn.out && (turn.next.phase == BackingOff || turn.next.phase == Parked(true, true)))
  {
    if s.cfg.restart == Never { assert FailSpawn(s, e, now).out[2] == Exit; }
  }

  /** Entering service says nothing of its own. */
  lemma ReadySaysNothing(s: Service, ready: bool, now: Instant)
    ensures var turn := BecomeReady(s, ready, now);
            && turn.next.phase.InService? && ShowsNothing(turn.out) && Exit !in turn.out
            && ReleaseSlot in turn.out && (ready ==> ReloadBrowser in turn.out)
  {
    var out := BecomeReady(s, ready, now).out;
    assert out[0] == ReleaseSlot;
    assert ready ==> out[1] == ReloadBrowser;
  }

  lemma HealthyThenWatched(said: seq<Action>, s: Service, now: Instant)
    ensures var out := (said + [SetStatus(Status.Healthy)]) + BecomeReady(s, true, now).out;
            Shows(out, Status.Healthy) && ReloadBrowser in out
  {
    ReadySaysNothing(s, true, now);
    hide BecomeReady;
    var first := said + [SetStatus(Status.Healthy)];
    ShowsAt(first, Status.Healthy, |said|);
    ShowsBefore(first, BecomeReady(s, true, now).out, Status.Healthy);
  }

  lemma UnhealthyThenWatched(said: seq<Action>, s: Service, now: Instant)
    ensures Shows(said + GiveUpReadiness(s, now).out, Status.Unhealthy)
    ensures GiveUpReadiness(s, now).next.phase.InService?
  {
    ReadySaysNothing(s, false, now);
    var first := [Log(NeverPassed), SetStatus(Status.Unhealthy), SetReason(NotReadyWithin(s.cfg.readyTimeout))];
    ShowsAt(first, Status.Unhealthy, 1);
    hide BecomeReady;
    ShowsBefore(first, BecomeReady(s, false, now).out, Status.Unhealthy);
    ShowsAfter(said, GiveUpReadiness(s, now).out, Status.Unhealthy);
  }

  // ------------------------------------------------------------------
  // Startup

  /** What interrupts a startup: a dependency, always, or a change under the
      default policy. */
  predicate Interrupts(s: Service, ev: Event, deps: Deps) {
    || (ev.Board? && (deps.unready.Some? || Moved(s.seen, deps)))
    || (ev.Restart? && s.cfg.onChange == RestartIt && s.cfg.reload == ByRestart)
  }

  /** A probe answer that comes too late to be asked for again. */
  predicate TooLate(s: Service, ev: Event, now: Instant)
    requires s.phase.InStartup?
  {
    ev.Probed? && ev.purpose.ForReady? && ev.result.Miss? && now >= s.phase.deadline
  }

  predicate LeavesStartup(s: Service, ev: Event, deps: Deps, now: Instant)
    requires s.phase.InStartup?
  {
    ev == Probed(ForReady, Pass) || TooLate(s, ev, now) || ev.Exited? || Interrupts(s, ev, deps) || ev.Stop?
  }

  /** What makes a startup end, exactly, and how. */
  lemma StartupEndsExactly(s: Service, ev: Event, deps: Deps, now: Instant)
    requires s.phase.InStartup?
    ensures var turn := On(s, ev, deps, now);
            && (turn.next.phase.InStartup? <==> !LeavesStartup(s, ev, deps, now))
            && (ev == Probed(ForReady, Pass) ==> turn.next.phase.InService? && Shows(turn.out, Status.Healthy))
            && (TooLate(s, ev, now) ==> turn.next.phase.InService? && Shows(turn.out, Status.Unhealthy))
            && (Interrupts(s, ev, deps) ==>
                  && turn.next.phase == Ending(ThenCycle) && Shows(turn.out, Status.Stopping)
                  && ReleaseSlot in turn.out && StopChild(s.cfg.stopTimeout) in turn.out)
            && (ev.Stop? ==>
                  && turn.next.phase == Ending(ThenExit) && Shows(turn.out, Status.Stopped)
                  && StopChild(s.cfg.stopTimeout) in turn.out)
            && (!LeavesStartup(s, ev, deps, now) ==>
                  && turn.next == s
                  && turn.out == if ev.Probed? && ev.purpose.ForReady? then [SetTimer(ProbeTimer, now + s.cfg.probeInterval)]
                                 else if ev == TimerFired(ProbeTimer) then [Probe(ForReady)]
                                 else [])
  {
    CL.StartupNeverExits(s, CL.Input(ev, deps, now));
    match ev
    case Probed(ForReady, Pass) =>
      HealthyThenWatched([CancelTimer(ProbeTimer)], s.(backoff := s.cfg.backoffMin), now);
      ReadySaysNothing(s.(backoff := s.cfg.backoffMin), true, now);
      assert [CancelTimer(ProbeTimer)] + [SetStatus(Status.Healthy)] == [CancelTimer(ProbeTimer), SetStatus(Status.Healthy)];
      hide BecomeReady, Shows;
    case Probed(ForReady, Miss(why)) =>
      UnhealthyThenWatched([Log(LastAttempt(why))], s, now);
      hide GiveUpReadiness, Shows;
    case Exited(code) => DeathLeavesStartup(s, code, deps, now);
    case Board =>
      MovedMeans(s.seen, deps);
      InterruptShows(s, On(s, ev, deps, now).out);
    case Restart(_) => InterruptShows(s, On(s, ev, deps, now).out);
    case Stop =>
      var out := On(s, ev, deps, now).out;
      ShowsAt(out, Status.Stopped, 1);
      assert out[2] == StopChild(s.cfg.stopTimeout);
    case _ =>
  }

  lemma DeathLeavesStartup(s: Service, code: int, deps: Deps, now: Instant)
    requires s.phase.InStartup?
    ensures !On(s, Event.Exited(code), deps, now).next.phase.InStartup?
  {
    hide AfterExit;
    CL.StartupNeverExits(s, CL.Input(Event.Exited(code), deps, now));
    CL.ExitRests(GiveUpReadiness(s, now).next, code, now);
  }

  lemma InterruptShows(s: Service, out: seq<Action>)
    ensures |out| == 5 && out[1] == SetStatus(Status.Stopping) && out[2].Log? && out[3] == ReleaseSlot
            && out[4] == StopChild(s.cfg.stopTimeout)
            ==> Shows(out, Status.Stopping) && ReleaseSlot in out && StopChild(s.cfg.stopTimeout) in out
  {
    if |out| == 5 && out[1] == SetStatus(Status.Stopping) && out[2].Log? && out[3] == ReleaseSlot
       && out[4] == StopChild(s.cfg.stopTimeout) { ShowsAt(out, Status.Stopping, 1); }
  }

  lemma MovedMeans(seen: seq<nat>, deps: Deps)
    ensures deps.MovedSince(seen).Some? <==> Moved(seen, deps)
  {
  }

  // ------------------------------------------------------------------
  // Deaths and delays

  /** A running child that dies: restarted after a delay, or given up, under
      `always`; parked under any other policy, shown as what it was. */
  lemma DeathExactly(s: Service, code: int, deps: Deps, now: Instant)
    requires s.HasChild()
    ensures var turn := On(s, Event.Exited(code), deps, now);
            if s.cfg.restart == Always then
              || (turn.next.phase == BackingOff && exists d: Duration :: Shows(turn.out, Status.Backoff(d)))
              || (turn.next.phase == Parked(true, true) && Shows(turn.out, Status.Failed(code)))
            else
              && turn.next.phase == Parked(true, false)
              && Shows(turn.out, if code == 0 then Status.Exited else Status.Failed(code))
  {
    hide AfterExit, GiveUpReadiness, Shows;
    var t := if s.phase.InStartup? then GiveUpReadiness(s, now).next else s;
    var said := (if s.phase.InStartup? then [CancelTimer(ProbeTimer)] + GiveUpReadiness(s, now).out else [])
                + CancelRunningTimers(s.cfg);
    AfterExitShows(t, code, now);
    if s.phase.InStartup? {
      CL.StartupNeverExits(s, CL.Input(Event.Exited(code), deps, now));
      assert On(s, Event.Exited(code), deps, now).out == said + AfterExit(t, code, now).out;
    } else {
      CL.ServiceNeverExits(s, CL.Input(Event.Exited(code), deps, now));
      assert On(s, Event.Exited(code), deps, now).out == said + AfterExit(t, code, now).out;
    }
    var last := AfterExit(t, code, now).out;
    if s.cfg.restart != Always {
      ShowsAfter(said, last, if code == 0 then Status.Exited else Status.Failed(code));
    } else if AfterExit(t, code, now).next.phase == BackingOff {
      ShowsAfter(said, last, Status.Backoff(DelayOf(t, now)));
    } else {
      ShowsAfter(said, last, Status.Failed(code));
    }
  }

  function DelayOf(s: Service, now: Instant): Duration {
    if Ran(s, now) > s.crashes.settled then s.cfg.backoffMin else s.backoff
  }

  lemma AfterExitShows(s: Service, code: int, now: Instant)
    ensures var turn := AfterExit(s, code, now);
            if s.cfg.restart == Always then
              || (turn.next.phase == BackingOff && Shows(turn.out, Status.Backoff(DelayOf(s, now))))
              || (turn.next.phase == Parked(true, true) && Shows(turn.out, Status.Failed(code)))
            else
              && turn.next.phase == Parked(true, false)
              && Shows(turn.out, if code == 0 then Status.Exited else Status.Failed(code))
  {
    var turn := AfterExit(s, code, now);
    var n := |turn.out|;
    if s.cfg.restart != Always {
      ShowsAt(turn.out, if code == 0 then Status.Exited else Status.Failed(code), 0);
    } else if turn.next.phase == BackingOff {
      ShowsAt(turn.out, Status.Backoff(DelayOf(s, now)), n - 2);
    } else {
      ShowsAt(turn.out, Status.Failed(code), n - 2);
    }
  }

  /** A delay ends when it is over, by a request, which also ends the loop it was
      part of, or by a stop; nothing upstream cuts it short. */
  lemma DelayEndsExactly(s: Service, ev: Event, deps: Deps, now: Instant)
    requires s.phase.BackingOff?
    ensures var turn := On(s, ev, deps, now);
            if ev == TimerFired(BackoffTimer) then
              Looks(turn, deps) && turn.next.crashes == s.crashes && turn.next.backoff == s.backoff
            else if ev.Restart? then
              && Looks(turn, deps) && CancelTimer(BackoffTimer) in turn.out
              && turn.next.crashes == s.crashes.(restarts := 0) && turn.next.backoff == s.cfg.backoffMin
            else if ev.Stop? then turn.next.phase == Finished && Shows(turn.out, Status.Stopped)
            else turn == Turn(s, [])
  {
    match ev
    case TimerFired(BackoffTimer) =>
      CycleLooks(s, deps);
      CycleAfterLooks([], s, deps);
      assert [] + Cycle(s, deps).out == Cycle(s, deps).out;
      hide Cycle;
    case Restart(r) =>
      var said := [CancelTimer(BackoffTimer), Log(Restarting(r))];
      var s1 := s.(backoff := s.cfg.backoffMin, crashes := s.crashes.(restarts := 0));
      CycleLooks(s1, deps);
      CycleAfterLooks(said, s1, deps);
      hide Cycle;
      assert On(s, ev, deps, now).out[0] == said[0];
    case Stop => ShowsAt(On(s, ev, deps, now).out, Status.Stopped, 1);
    case _ =>
  }

  // ------------------------------------------------------------------
  // At rest

  /** A parked service goes back to its gate exactly on a request, or on a tick that
      finds a dependency at another generation, and ends exactly on a stop. If it
      had given up, the count of restarts starts over. */
  lemma ParkedWakesExactly(s: Service, ev: Event, deps: Deps, now: Instant)
    requires s.phase.Parked?
    ensures var turn := On(s, ev, deps, now);
            var wakes := ev.Restart? || (ev.Board? && Moved(s.seen, deps));
            && (turn.next.phase.AtGate? <==> wakes)
            && (turn.next.phase.Finished? <==> ev.Stop?)
            && (wakes ==>
                  && Looks(turn, deps)
                  && turn.next.crashes == (if s.phase.reset then s.crashes.(restarts := 0) else s.crashes)
                  && (s.phase.announce ==> exists why: Text :: Log(Restarting(why)) in turn.out))
            && (!wakes && !ev.Stop? ==> turn == Turn(s, []))
  {
    MovedMeans(s.seen, deps);
    var why := WakeReason(s.seen, ev, deps);
    if why.Some? {
      var said := if s.phase.announce then [Log(Restarting(why.value))] else [];
      var s1 := if s.phase.reset then s.(crashes := s.crashes.(restarts := 0)) else s;
      CycleLooks(s1, deps);
      CycleAfterLooks(said, s1, deps);
      hide Cycle;
      if s.phase.announce { assert On(s, ev, deps, now).out[0] == said[0]; }
    }
  }

  /** So does a node that runs no command. */
  lemma ServedWakesExactly(s: Service, ev: Event, deps: Deps, now: Instant)
    requires s.phase.Served?
    ensures var turn := On(s, ev, deps, now);
            if ev.Stop? then turn.next.phase == Finished
            else if ev.Restart? || (ev.Board? && Moved(s.seen, deps)) then Looks(turn, deps)
            else turn == Turn(s, [])
  {
    MovedMeans(s.seen, deps);
    CycleLooks(s, deps);
    CycleAfterLooks([], s, deps);
    assert [] + Cycle(s, deps).out == Cycle(s, deps).out;
    hide Cycle;
  }

  /** A service being stopped waits for its child to be gone, whatever else it hears. */
  lemma EndsExactly(s: Service, ev: Event, deps: Deps, now: Instant)
    requires s.phase.Ending?
    ensures var turn := On(s, ev, deps, now);
            if !ev.ChildStopped? then turn == Turn(s, [])
            else if s.phase.next.ThenExit? then turn.next.phase == Finished
            else Looks(turn, deps)
  {
    CycleLooks(s, deps);
    CycleAfterLooks([], s, deps);
    assert [] + Cycle(s, deps).out == Cycle(s, deps).out;
    hide Cycle;
  }

  /** A parked task reruns for the same, and ends by the same. A run is left alone
      until it is over; a real build tells the browser. */
  lemma TaskWakesExactly(t: Task, ev: Event, deps: Deps)
    ensures t.phase.TaskParked? ==>
              var turn := TaskOn(t, ev, deps);
              && (turn.next.phase.TaskAtGate? <==> ev.Restart? || (ev.Board? && Moved(t.seen, deps)))
              && (turn.next.phase.TaskFinished? <==> ev.Stop?)
              && (turn.next.phase.TaskParked? ==> turn == TaskTurn(t, []))
    ensures t.phase.TaskRunning? ==>
              var turn := TaskOn(t, ev, deps);
              if ev.JobDone? then
                && turn.next == t.(phase := TaskParked)
                && turn.out == if ev.code == 0 && !ev.cached then [ReloadBrowser] else []
              else turn == TaskTurn(t, [])
  {
    MovedMeans(t.seen, deps);
  }

  // ------------------------------------------------------------------
  // In service

  /** A change that a running service acts on by starting over. */
  predicate RestartsFor(s: Service, ev: Event) {
    ev.Restart? && s.cfg.reload == ByRestart && (s.cfg.onChange == RestartIt || s.cfg.onChange == Queue)
  }

  /** The miss that makes up the number a service may have in a row. */
  predicate LastMiss(s: Service, ev: Event)
    requires s.phase.InService?
  {
    && ev.Probed? && ev.purpose.ForLiveness? && ev.result.Miss?
    && s.phase.alive.Some? && s.phase.alive.value.misses + 1 == s.phase.alive.value.failures
  }

  /** What makes a service start over: a dependency, a change it acts on, or, under
      `always`, too many checks missed. */
  predicate StartsOver(s: Service, ev: Event, deps: Deps)
    requires s.phase.InService?
  {
    || (ev.Board? && (deps.unready.Some? || Moved(s.seen, deps)))
    || RestartsFor(s, ev)
    || (LastMiss(s, ev) && s.cfg.restart == Always)
  }

  /** What makes a service leave, exactly, and how. */
  lemma ServiceLeavesExactly(s: Service, ev: Event, deps: Deps, now: Instant)
    requires s.phase.InService?
    ensures var turn := On(s, ev, deps, now);
            && (turn.next.phase.InService? <==> !StartsOver(s, ev, deps) && !ev.Stop? && !ev.Exited?)
            && (StartsOver(s, ev, deps) ==>
                  && turn.next.phase == Ending(ThenCycle) && Shows(turn.out, Status.Stopping)
                  && StopChild(s.cfg.stopTimeout) in turn.out
                  && turn.next.backoff == s.cfg.backoffMin && turn.next.crashes == s.crashes.(restarts := 0))
            && (ev.Stop? ==>
                  && turn.next.phase == Ending(ThenExit) && Shows(turn.out, Status.Stopped)
                  && StopChild(s.cfg.stopTimeout) in turn.out)
  {
    CL.ServiceNeverExits(s, CL.Input(ev, deps, now));
    MovedMeans(s.seen, deps);
    hide AfterExit, CountersRead, Settle, Shows;
    match ev
    case Exited(code) => CL.ExitRests(s, code, now);
    case Stop => StopShows(s);
    case Board => if StartsOver(s, ev, deps) { RestartShows(s, DependencyMoved(s, deps).value, []); }
    case Restart(r) => if StartsOver(s, ev, deps) { RestartShows(s, r, []); }
    case Probed(ForLiveness, Miss(why)) => if LastMiss(s, ev) { MissShows(s, why, now); }
    case Probed(ForReload, result) =>
      if s.phase.pending.Some? {
        CL.SettleServes(s.(phase := s.phase.(pending := None)), s.phase.pending.value, result.Pass?, now);
      }
    case Counters(c) => CountersStay(s, c, now);
    case _ =>
  }

  lemma CountersStay(s: Service, c: ReloadCounters, now: Instant)
    requires s.phase.InService?
    ensures CountersRead(s, c, now).next.phase.InService?
  {
  }

  lemma StopShows(s: Service)
    ensures var out := CancelRunningTimers(s.cfg) + [SetStatus(Status.Stopped), StopChild(s.cfg.stopTimeout)];
            Shows(out, Status.Stopped) && StopChild(s.cfg.stopTimeout) in out
  {
    var said := [SetStatus(Status.Stopped), StopChild(s.cfg.stopTimeout)];
    ShowsAt(said, Status.Stopped, 0);
    ShowsAfter(CancelRunningTimers(s.cfg), said, Status.Stopped);
    assert said[1] in CancelRunningTimers(s.cfg) + said;
  }

  lemma RestartShows(s: Service, why: Text, said: seq<Action>)
    ensures var turn := After(said, RestartRunning(s, why));
            && turn.next == s.(backoff := s.cfg.backoffMin, crashes := s.crashes.(restarts := 0), phase := Ending(ThenCycle))
            && Shows(turn.out, Status.Stopping) && StopChild(s.cfg.stopTimeout) in turn.out
            && Shows(RestartRunning(s, why).out, Status.Stopping) && StopChild(s.cfg.stopTimeout) in RestartRunning(s, why).out
  {
    var last := [SetStatus(Status.Stopping), CountRestart(why), Log(Restarting(why)), StopChild(s.cfg.stopTimeout)];
    ShowsAt(last, Status.Stopping, 0);
    ShowsAfter(CancelRunningTimers(s.cfg), last, Status.Stopping);
    assert last[3] in CancelRunningTimers(s.cfg) + last;
    ShowsAfter(said, RestartRunning(s, why).out, Status.Stopping);
  }

  lemma MissShows(s: Service, why: Text, now: Instant)
    requires s.phase.InService? && LastMiss(s, Probed(ForLiveness, Miss(why)))
    ensures var turn := LivenessAnswered(s, Miss(why), now);
            if s.cfg.restart == Always then
              && turn.next == s.(backoff := s.cfg.backoffMin, crashes := s.crashes.(restarts := 0), phase := Ending(ThenCycle))
              && Shows(turn.out, Status.Stopping) && StopChild(s.cfg.stopTimeout) in turn.out
            else
              && turn.next.phase.InService? && Shows(turn.out, Status.Unhealthy)
              && forall a <- turn.out :: !a.StopChild?
  {
    hide Shows;
    var turn := LivenessAnswered(s, Miss(why), now);
    var a := s.phase.alive.value;
    var why1 := NotAnswering(a.misses + 1, why);
    if s.cfg.restart == Always {
      RestartShows(s, why1, [SetTimer(LivenessTimer, now + a.every)] + [Log(why1)]);
      hide RestartRunning;
    } else {
      ShowsAt(turn.out, Status.Unhealthy, 2);
    }
  }

  /** What a service that stays does about a change it does not act on: a signal if
      the policy is one, and otherwise nothing. */
  lemma ChangeInService(s: Service, why: Text, deps: Deps, now: Instant)
    requires s.phase.InService? && !RestartsFor(s, Restart(why))
    ensures var turn := On(s, Restart(why), deps, now);
            && turn.next == s
            && turn.out == if s.cfg.reload == SelfManaged || s.cfg.onChange == Ignore then []
                           else if s.cfg.signal.Some? then [Signal(s.cfg.signal.value, why)]
                           else [Log(SignalMissing)]
  {
  }

  /** A check is due: asked for, unless the process is rebuilding, which is let be
      until the next one. */
  lemma CheckIsDue(s: Service, deps: Deps, now: Instant)
    requires s.phase.InService?
    ensures var turn := On(s, TimerFired(LivenessTimer), deps, now);
            && turn.next == s
            && turn.out == if !s.phase.rebuild.Rebuilding? then [Probe(ForLiveness)]
                           else if s.phase.alive.Some? then [SetTimer(LivenessTimer, now + s.phase.alive.value.every)]
                           else []
  {
  }

  // ------------------------------------------------------------------
  // Over every history

  /** A service with what an observer would note of it: when its process was
      spawned, and how many checks it has missed since it entered service or last
      answered one. */
  datatype Noted = Noted(s: Service, spawned: Option<Instant>, row: nat)

  function Note(k: Noted, i: CL.Input): Noted {
    var t := On(k.s, i.ev, i.deps, i.now).next;
    Noted(t,
          if k.s.phase.Spawning? && i.ev.Spawned? then Some(i.now) else k.spawned,
          if !k.s.phase.InService? || !t.phase.InService? then 0
          else if i.ev == Probed(ForLiveness, Pass) then 0
          else if i.ev.Probed? && i.ev.purpose.ForLiveness? then k.row + 1
          else k.row)
  }

  function Notes(cfg: ServiceConfig, inputs: seq<CL.Input>): Noted {
    if inputs == [] then Noted(NewService(cfg), None, 0)
    else Note(Notes(cfg, inputs[..|inputs|-1]), inputs[|inputs|-1])
  }

  predicate NotesFit(cfg: ServiceConfig, k: Noted) {
    && k.s.cfg == cfg
    && (k.s.phase.InStartup? ==>
          k.spawned.Some? && k.s.phase.deadline == k.spawned.value + cfg.readyTimeout)
    && (k.s.phase.InService? ==>
          match cfg.liveness
          case None => k.s.phase.alive.None?
          case Some(l) =>
            && k.s.phase.alive.Some?
            && var a := k.s.phase.alive.value;
               a.every == l.every && a.failures == l.failures && a.misses == k.row
               && (a.tookDown <==> 1 <= l.failures <= k.row)
               && (cfg.restart == Always ==> !a.tookDown))
  }

  /** Only a spawn, or a startup, leads to a startup or to service. */
  lemma NotYetUp(s: Service, ev: Event, deps: Deps, now: Instant)
    requires !s.phase.Spawning? && !s.phase.InStartup? && !s.phase.InService?
    ensures var p := On(s, ev, deps, now).next.phase; !p.InStartup? && !p.InService?
  {
    hide On, Shows;
    match s.phase
    case AtGate(WaitingOnDeps) => WaitsExactly(s, ev, deps, now);
    case AtGate(Draining) => DrainsExactly(s, ev, deps, now);
    case BackingOff => DelayEndsExactly(s, ev, deps, now);
    case Parked(_, _) => ParkedWakesExactly(s, ev, deps, now);
    case Served => ServedWakesExactly(s, ev, deps, now);
    case Ending(_) => EndsExactly(s, ev, deps, now);
    case Finished => StaysFinished(s, ev, deps, now);
    case _ => ComesUpExactly(s, ev, deps, now);
  }

  lemma StaysFinished(s: Service, ev: Event, deps: Deps, now: Instant)
    requires s.phase.Finished?
    ensures On(s, ev, deps, now) == Turn(s, [])
  {
  }

  /** A service enters service with its checks all ahead of it. */
  lemma EntersWatched(s: Service, ev: Event, deps: Deps, now: Instant)
    requires !s.phase.InService? && On(s, ev, deps, now).next.phase.InService?
    ensures On(s, ev, deps, now).next.phase.alive == AllAhead(s.cfg)
  {
    hide AfterExit, StepGate, StepBackoff, StepParked;
    if s.phase.InStartup? {
      StartupEntersWatched(s, ev, deps, now);
    } else if !s.phase.Spawning? {
      NotYetUp(s, ev, deps, now);
      hide On;
    }
  }

  function AllAhead(cfg: ServiceConfig): Option<Alive> {
    match cfg.liveness
    case None => None
    case Some(l) => Some(Alive(l.every, l.failures, 0, false))
  }

  lemma StartupEntersWatched(s: Service, ev: Event, deps: Deps, now: Instant)
    requires s.phase.InStartup? && On(s, ev, deps, now).next.phase.InService?
    ensures On(s, ev, deps, now).next.phase.alive == AllAhead(s.cfg)
  {
    hide AfterExit;
    if ev.Exited? {
      DeathExactly(s, ev.code, deps, now);
      hide On, Shows;
    }
  }

  /** Nothing but a check's answer changes what is noted of the checks. */
  lemma ChecksKept(s: Service, ev: Event, deps: Deps, now: Instant)
    requires s.phase.InService? && !(ev.Probed? && ev.purpose.ForLiveness?)
    requires On(s, ev, deps, now).next.phase.InService?
    ensures On(s, ev, deps, now).next.phase.alive == s.phase.alive
  {
    CL.ServiceNeverExits(s, CL.Input(ev, deps, now));
    hide AfterExit, Settle, CountersRead;
    match ev
    case Exited(code) => CL.ExitRests(s, code, now);
    case Counters(c) => CountersKeepChecks(s, c, now);
    case Probed(ForReload, result) =>
      if s.phase.pending.Some? {
        SettleKeepsChecks(s.(phase := s.phase.(pending := None)), s.phase.pending.value, result.Pass?, now);
      }
    case _ =>
  }

  lemma SettleKeepsChecks(s: Service, c: ReloadCounters, pass: bool, now: Instant)
    requires s.phase.InService?
    ensures var t := Settle(s, c, pass, now).next; t.phase.InService? && t.phase.alive == s.phase.alive
  {
  }

  lemma CountersKeepChecks(s: Service, c: ReloadCounters, now: Instant)
    requires s.phase.InService?
    ensures var t := CountersRead(s, c, now).next; t.phase.InService? && t.phase.alive == s.phase.alive
  {
  }

  /** What an answer to a check does, by how many were missed before it. */
  lemma AnswerExactly(s: Service, result: ProbeResult, deps: Deps, now: Instant)
    requires s.phase.InService? && s.phase.alive.Some?
    ensures var a := s.phase.alive.value;
            var turn := On(s, Probed(ForLiveness, result), deps, now);
            var p := turn.next.phase;
            if result.Miss? && a.misses + 1 == a.failures && s.cfg.restart == Always then
              p == Ending(ThenCycle) && Shows(turn.out, Status.Stopping) && StopChild(s.cfg.stopTimeout) in turn.out
            else
              && p.InService? && SetTimer(LivenessTimer, now + a.every) in turn.out
              && (forall x <- turn.out :: !x.StopChild?)
              && p.alive == Some(Alive(a.every, a.failures, if result.Pass? then 0 else a.misses + 1,
                                       !result.Pass? && (a.tookDown || a.misses + 1 == a.failures)))
              && (if result.Miss? && a.misses + 1 == a.failures then Shows(turn.out, Status.Unhealthy)
                  else if result.Pass? && a.tookDown then Shows(turn.out, Status.Healthy)
                  else ShowsNothing(turn.out))
  {
    CL.ServiceNeverExits(s, CL.Input(Probed(ForLiveness, result), deps, now));
    var a, turn := s.phase.alive.value, LivenessAnswered(s, result, now);
    if result.Miss? && a.misses + 1 == a.failures {
      MissShows(s, result.why, now);
      if s.cfg.restart != Always { assert turn.out[0] == SetTimer(LivenessTimer, now + a.every); }
    } else {
      assert turn.out[0] == SetTimer(LivenessTimer, now + a.every);
      if result.Pass? && a.tookDown { ShowsAt(turn.out, Status.Healthy, 2); }
    }
    hide RestartRunning;
  }

  lemma NoteKeeps(cfg: ServiceConfig, k: Noted, i: CL.Input)
    requires NotesFit(cfg, k)
    ensures NotesFit(cfg, Note(k, i))
  {
    var s, t := k.s, On(k.s, i.ev, i.deps, i.now).next;
    if t.phase.InStartup? { IntoStartup(s, i); }
    if t.phase.InService? {
      if !s.phase.InService? {
        EntersWatched(s, i.ev, i.deps, i.now);
      } else if i.ev.Probed? && i.ev.purpose.ForLiveness? {
        if s.phase.alive.Some? {
          AnswerExactly(s, i.ev.result, i.deps, i.now);
        } else {
          Unwatched(s, i);
        }
      } else {
        ChecksKept(s, i.ev, i.deps, i.now);
      }
    }
    hide On, Shows;
  }

  lemma Unwatched(s: Service, i: CL.Input)
    requires s.phase.InService? && s.phase.alive.None? && i.ev.Probed? && i.ev.purpose.ForLiveness?
    ensures On(s, i.ev, i.deps, i.now).next == s
  {
  }

  lemma IntoStartup(s: Service, i: CL.Input)
    requires On(s, i.ev, i.deps, i.now).next.phase.InStartup?
    ensures var p := On(s, i.ev, i.deps, i.now).next.phase;
            if s.phase.InStartup? then p == s.phase
            else s.phase.Spawning? && i.ev.Spawned? && p.deadline == i.now + s.cfg.readyTimeout
  {
    hide StepService, StepBackoff, StepParked, StepGate, StepStartup;
    if s.phase.InStartup? {
      StartupEndsExactly(s, i.ev, i.deps, i.now);
      hide On, Shows;
    } else if s.phase.InService? {
      ServiceLeavesExactly(s, i.ev, i.deps, i.now);
      if i.ev.Exited? { DeathExactly(s, i.ev.code, i.deps, i.now); }
      hide On, Shows;
    } else if !s.phase.Spawning? {
      NotYetUp(s, i.ev, i.deps, i.now);
      hide On;
    }
  }

  lemma {:induction false} NotesKeep(cfg: ServiceConfig, inputs: seq<CL.Input>)
    ensures NotesFit(cfg, Notes(cfg, inputs))
    decreases |inputs|
  {
    hide Note, NotesFit;
    if inputs == [] {
      NotesStart(cfg);
    } else {
      NotesKeep(cfg, inputs[..|inputs|-1]);
      NoteKeeps(cfg, Notes(cfg, inputs[..|inputs|-1]), inputs[|inputs|-1]);
    }
  }

  lemma NotesStart(cfg: ServiceConfig)
    ensures NotesFit(cfg, Notes(cfg, []))
  {
  }

  /** Over every history: a startup goes on over failing probes while less than
      `ready_timeout` has passed since its process was spawned, and no longer: the
      first that fails after that leaves the node unhealthy, in service. */
  lemma StartupHasItsTime(cfg: ServiceConfig, inputs: seq<CL.Input>, why: Text, deps: Deps, now: Instant)
    requires Notes(cfg, inputs).s.phase.InStartup?
    ensures var k := Notes(cfg, inputs);
            var turn := On(k.s, Probed(ForReady, Miss(why)), deps, now);
            && k.spawned.Some?
            && (turn.next.phase.InStartup? <==> now < k.spawned.value + cfg.readyTimeout)
            && (now < k.spawned.value + cfg.readyTimeout ==>
                  turn == Turn(k.s, [SetTimer(ProbeTimer, now + cfg.probeInterval)]))
            && (now >= k.spawned.value + cfg.readyTimeout ==>
                  turn.next.phase.InService? && Shows(turn.out, Status.Unhealthy))
  {
    hide On, Notes, Shows;
    NotesKeep(cfg, inputs);
    StartupEndsExactly(Notes(cfg, inputs).s, Probed(ForReady, Miss(why)), deps, now);
  }

  /** Over every history: a service acts on the miss that makes `failures` in a row
      since it entered service or last answered, and on no other. Under `always` it
      stops its child to start over. Under the other policies it keeps it, is shown
      unhealthy, and healthy again by the next check it answers. */
  lemma ChecksActExactly(cfg: ServiceConfig, inputs: seq<CL.Input>, result: ProbeResult, deps: Deps, now: Instant)
    requires Notes(cfg, inputs).s.phase.InService? && cfg.liveness.Some?
    ensures var k := Notes(cfg, inputs);
            var failures := cfg.liveness.value.failures;
            var turn := On(k.s, Probed(ForLiveness, result), deps, now);
            if result.Miss? && k.row + 1 == failures then
              if cfg.restart == Always then
                && turn.next.phase == Ending(ThenCycle) && Shows(turn.out, Status.Stopping)
                && StopChild(cfg.stopTimeout) in turn.out
              else
                && turn.next.phase.InService? && Shows(turn.out, Status.Unhealthy)
                && forall a <- turn.out :: !a.StopChild?
            else
              && turn.next.phase.InService?
              && (if result.Pass? && 1 <= failures <= k.row then Shows(turn.out, Status.Healthy)
                  else ShowsNothing(turn.out))
              && SetTimer(LivenessTimer, now + cfg.liveness.value.every) in turn.out
  {
    hide On, Notes, Shows;
    NotesKeep(cfg, inputs);
    AnswerExactly(Notes(cfg, inputs).s, result, deps, now);
  }
}
