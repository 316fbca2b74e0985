/** The machines as the program has them: objects whose methods update their
    fields one decision at a time. Each method is proved to compute the function
    of the same name in `Lifecycle`, so everything proved about those functions
    holds of these objects. */
module LifecycleMachine {
  import opened Status
  import opened Lifecycle

  class ServiceMachine {
    const cfg: ServiceConfig
    var phase: Phase
    var seen: seq<nat>
    var backoff: Duration
    var crashes: Crashes
    var started: Option<Instant>

    /** The value this object stands for. */
    function View(): Service
      reads this
    {
      Service(cfg, phase, seen, backoff, crashes, started)
    }

    constructor (cfg: ServiceConfig)
      ensures View() == NewService(cfg)
    {
      this.cfg := cfg;
      phase := AtGate(WaitingOnDeps);
      seen := [];
      backoff := cfg.backoffMin;
      crashes := Crashes(cfg.maxRestarts, cfg.backoffMax, 0);
      started := None;
    }

    method On(ev: Event, deps: Deps, now: Instant) returns (out: seq<Action>)
      modifies this
      ensures Turn(View(), out) == Lifecycle.On(old(View()), ev, deps, now)
    {
      out := Step(ev, deps, now);
      if Action.Exit in out {
        phase := Finished;
      }
    }

    method Step(ev: Event, deps: Deps, now: Instant) returns (out: seq<Action>)
      modifies this
      ensures Turn(View(), out) == Lifecycle.Step(old(View()), ev, deps, now)
      decreases if phase.InStartup? then 2 else if phase.AtGate? then 0 else 1, 2
    {
      hide Lifecycle.StepGate, Lifecycle.StepSpawning, Lifecycle.StepStartup, Lifecycle.StepService,
           Lifecycle.StepBackoff, Lifecycle.StepParked, Lifecycle.Cycle, Lifecycle.Acquire;
      out := [];
      match phase {
        case Finished =>
        case AtGate(gate) =>
          out := Gated(gate, ev, deps);
        case Reclaiming =>
          if ev.PortReclaimed? {
            out := Acquire();
          } else if ev.Stop? {
            out := ExitStopped();
          }
        case AwaitingSlot =>
          if ev.SlotAcquired? {
            out := [SetStatus(Status.Starting), Spawn];
            phase := Spawning;
          } else if ev.Stop? {
            out := ExitStopped();
          }
        case Spawning =>
          out := Launched(ev, now);
        case InStartup(deadline) =>
          out := Starting(deadline, ev, deps, now);
        case InService(_, _, _) =>
          out := Running(ev, deps, now);
        case Ending(next) =>
          if ev.ChildStopped? {
            if next.ThenExit? {
              out := [Action.Exit];
            } else {
              out := Cycle(deps, now);
            }
          }
        case BackingOff =>
          out := Delayed(ev, deps, now);
        case Parked(_, _) =>
          out := AtRest(ev, deps, now);
        case Served =>
          if ev.Stop? {
            out := [Action.Exit];
          } else if ev.Restart? || (ev.Board? && deps.MovedSince(seen).Some?) {
            out := Cycle(deps, now);
          }
      }
    }

    /** At the gate. */
    method Gated(gate: Gate, ev: Event, deps: Deps) returns (out: seq<Action>)
      requires phase == AtGate(gate)
      modifies this
      ensures Turn(View(), out) == Lifecycle.StepGate(old(View()), gate, ev, deps)
    {
      match GateOn(gate, ev, deps) {
        case Wait(g, acts) =>
          phase := AtGate(g);
          out := acts;
        case Ended(g, acts) =>
          phase := AtGate(g);
          out := acts;
        case Open(generations) =>
          seen := generations;
          out := AfterGate();
      }
    }

    /** The spawn's answer. */
    method Launched(ev: Event, now: Instant) returns (out: seq<Action>)
      requires phase.Spawning?
      modifies this
      ensures Turn(View(), out) == Lifecycle.StepSpawning(old(View()), ev, now)
    {
      out := [];
      if ev.Spawned? {
        started := Some(now);
        if cfg.probed {
          phase := InStartup(now + cfg.readyTimeout);
          out := [Probe(ForReady)];
        } else {
          out := BecameReady(true, now);
          out := [SetStatus(Status.Healthy)] + out;
        }
      } else if ev.SpawnFailed? {
        out := SpawnFailedWith(ev.error, now);
      }
    }

    /** Between two starts. */
    method Delayed(ev: Event, deps: Deps, now: Instant) returns (out: seq<Action>)
      requires phase.BackingOff?
      modifies this
      ensures Turn(View(), out) == Lifecycle.StepBackoff(old(View()), ev, deps)
      decreases 1, 1
    {
      hide Lifecycle.Cycle;
      out := [];
      if ev == TimerFired(BackoffTimer) {
        out := Cycle(deps, now);
      } else if ev.Stop? {
        out := ExitStopped();
        out := [CancelTimer(BackoffTimer)] + out;
      } else if ev.Restart? {
        backoff := cfg.backoffMin;
        crashes := crashes.(restarts := 0);
        out := Cycle(deps, now);
        out := [CancelTimer(BackoffTimer), Log(Restarting(ev.why))] + out;
      }
    }

    /** Parked, until something wakes it. */
    method AtRest(ev: Event, deps: Deps, now: Instant) returns (out: seq<Action>)
      requires phase.Parked?
      modifies this
      ensures Turn(View(), out) == Lifecycle.StepParked(old(View()), ev, deps)
      decreases 1, 1
    {
      hide Lifecycle.Cycle;
      out := [];
      if ev.Stop? {
        out := [Action.Exit];
      } else {
        var reason := WakeReason(seen, ev, deps);
        if reason.Some? {
          var announce := phase.announce;
          if phase.reset {
            crashes := crashes.(restarts := 0);
          }
          out := Cycle(deps, now);
          if announce {
            out := [Log(Restarting(reason.value))] + out;
          }
        }
      }
    }

    /** Starts over at the gate, with a look at the dependencies straight away. */
    method Cycle(deps: Deps, now: Instant) returns (out: seq<Action>)
      modifies this
      ensures Turn(View(), out) == Lifecycle.Cycle(old(View()), deps)
      decreases 1, 0
    {
      phase := AtGate(WaitingOnDeps);
      out := Step(Board, deps, now);
    }

    method AfterGate() returns (out: seq<Action>)
      modifies this
      ensures Turn(View(), out) == Lifecycle.AfterGate(old(View()))
    {
      if !cfg.hasCmd {
        out := [SetStatus(Status.Healthy)];
        phase := Served;
      } else if cfg.port.Some? {
        out := [ReclaimPort(cfg.port.value)];
        phase := Reclaiming;
      } else {
        out := Acquire();
      }
    }

    method Acquire() returns (out: seq<Action>)
      modifies this
      ensures Turn(View(), out) == Lifecycle.Acquire(old(View()))
    {
      out := [AcquireSlot];
      phase := AwaitingSlot;
    }

    method ExitStopped() returns (out: seq<Action>)
      ensures Turn(View(), out) == Lifecycle.ExitStopped(View())
    {
      out := [SetStatus(Status.Stopped), Action.Exit];
    }

    /** Counts a crash, unless the limit is already spent. */
    method Exhausted(ran: Duration) returns (tooMany: bool)
      modifies this`crashes
      ensures (crashes, tooMany) == old(crashes).Record(ran)
    {
      if ran > crashes.settled {
        crashes := crashes.(restarts := 0);
      }
      match crashes.limit {
        case None => return false;
        case Some(max) =>
          if crashes.restarts >= max {
            return true;
          }
          crashes := crashes.(restarts := crashes.restarts + 1);
          return false;
      }
    }

    method SpawnFailedWith(e: string, now: Instant) returns (out: seq<Action>)
      modifies this
      ensures Turn(View(), out) == FailSpawn(old(View()), e, now)
    {
      out := [Fail(CannotSpawn(e), 127), ReleaseSlot];
      if cfg.restart == Never {
        out := out + [Action.Exit];
        return;
      }
      var tooMany := Exhausted(0);
      var rest;
      if tooMany {
        rest := GiveUp(127);
      } else {
        rest := StartBackoff(now, false);
      }
      out := out + rest;
    }

    method GiveUp(code: int) returns (out: seq<Action>)
      modifies this
      ensures Turn(View(), out) == Lifecycle.GiveUp(old(View()), code)
    {
      var why := GaveUp(crashes.restarts);
      out := [Log(why), SetStatus(Status.Failed(code)), SetReason(why)];
      backoff := cfg.backoffMin;
      phase := Parked(true, true);
    }

    method StartBackoff(now: Instant, show: bool) returns (out: seq<Action>)
      modifies this
      ensures Turn(View(), out) == Lifecycle.StartBackoff(old(View()), now, show)
    {
      var delay := backoff;
      out := [];
      if show {
        out := [SetStatus(Status.Backoff(delay))];
      }
      backoff := Min(backoff * 2, cfg.backoffMax);
      out := out + [SetTimer(BackoffTimer, now + delay)];
      phase := BackingOff;
    }

    method BecameReady(ready: bool, now: Instant) returns (out: seq<Action>)
      modifies this
      ensures Turn(View(), out) == BecomeReady(old(View()), ready, now)
    {
      out := [ReleaseSlot];
      if ready {
        out := out + [ReloadBrowser];
      }
      var rebuild := Off;
      if cfg.followsReloads {
        out := out + [ReadReloadCounters];
        rebuild := Unknown(ready);
      }
      var alive: Option<Alive> := None;
      if cfg.liveness.Some? {
        var every := cfg.liveness.value.every;
        out := out + [SetTimer(LivenessTimer, now + every)];
        alive := Some(Alive(every, cfg.liveness.value.failures, 0, false));
      }
      phase := InService(rebuild, alive, None);
    }

    method Starting(deadline: Instant, ev: Event, deps: Deps, now: Instant) returns (out: seq<Action>)
      modifies this
      ensures Turn(View(), out) == StepStartup(old(View()), deadline, ev, deps, now)
      decreases 2, 1
    {
      out := [];
      match ev {
        case Probed(ForReady, Pass) =>
          backoff := cfg.backoffMin;
          out := BecameReady(true, now);
          out := [CancelTimer(ProbeTimer), SetStatus(Status.Healthy)] + out;
        case Probed(ForReady, Miss(why)) =>
          if now >= deadline {
            out := NotReadyInTime(now);
            out := [Log(LastAttempt(why))] + out;
          } else {
            out := [SetTimer(ProbeTimer, now + cfg.probeInterval)];
          }
        case TimerFired(ProbeTimer) =>
          out := [Probe(ForReady)];
        case Exited(code) =>
          var first := NotReadyInTime(now);
          var second := Step(Event.Exited(code), deps, now);
          out := [CancelTimer(ProbeTimer)] + first + second;
        case Board =>
          var moved := DependencyMoved(View(), deps);
          if moved.Some? {
            out := Interrupt(moved.value);
          }
        case Restart(r) =>
          if cfg.onChange == RestartIt && cfg.reload == ByRestart {
            out := Interrupt(r);
          }
        case Stop =>
          out := [CancelTimer(ProbeTimer), SetStatus(Status.Stopped), StopChild(cfg.stopTimeout)];
          phase := Ending(ThenExit);
        case _ =>
      }
    }

    method NotReadyInTime(now: Instant) returns (out: seq<Action>)
      modifies this
      ensures Turn(View(), out) == GiveUpReadiness(old(View()), now)
    {
      out := BecameReady(false, now);
      out := [Log(NeverPassed), SetStatus(Status.Unhealthy), SetReason(NotReadyWithin(cfg.readyTimeout))] + out;
    }

    method Interrupt(why: Text) returns (out: seq<Action>)
      modifies this
      ensures Turn(View(), out) == InterruptStartup(old(View()), why)
    {
      out := [CancelTimer(ProbeTimer), SetStatus(Status.Stopping), Log(MidStartup(why)),
              ReleaseSlot, StopChild(cfg.stopTimeout)];
      phase := Ending(ThenCycle);
    }

    method Running(ev: Event, deps: Deps, now: Instant) returns (out: seq<Action>)
      requires phase.InService?
      modifies this
      ensures Turn(View(), out) == StepService(old(View()), ev, deps, now)
    {
      out := [];
      match ev {
        case Exited(code) =>
          out := Exited(code, now);
          out := Lifecycle.CancelRunningTimers(cfg) + out;
        case Board =>
          var moved := DependencyMoved(View(), deps);
          if moved.Some? {
            out := Restart(moved.value);
          }
        case Restart(r) =>
          if cfg.reload != SelfManaged {
            match cfg.onChange {
              case Ignore =>
              case SignalIt =>
                if cfg.signal.Some? {
                  out := [Signal(cfg.signal.value, r)];
                } else {
                  out := [Log(SignalMissing)];
                }
              case _ => out := Restart(r);
            }
          }
        case Stop =>
          out := Lifecycle.CancelRunningTimers(cfg)
                 + [SetStatus(Status.Stopped), StopChild(cfg.stopTimeout)];
          phase := Ending(ThenExit);
        case TimerFired(LivenessTimer) =>
          if !phase.rebuild.Rebuilding? {
            out := [Probe(ForLiveness)];
          } else if phase.alive.Some? {
            out := [SetTimer(LivenessTimer, now + phase.alive.value.every)];
          }
        case Probed(ForLiveness, result) =>
          out := CheckedAlive(result, now);
        case TimerFired(ReloadPoll) =>
          out := [ReadReloadCounters];
        case Counters(c) =>
          out := Polled(c, now);
          out := [SetTimer(ReloadPoll, now + cfg.probeInterval)] + out;
        case Probed(ForReload, result) =>
          var pending := phase.pending;
          phase := phase.(pending := None);
          if pending.Some? {
            out := ReloadSettle(pending.value, result.Pass?, now);
          }
        case _ =>
      }
    }

    method CheckedAlive(result: ProbeResult, now: Instant) returns (out: seq<Action>)
      requires phase.InService?
      modifies this
      ensures Turn(View(), out) == LivenessAnswered(old(View()), result, now)
    {
      if phase.alive.None? {
        return [];
      }
      var a := phase.alive.value;
      out := [SetTimer(LivenessTimer, now + a.every)];
      match result {
        case Pass =>
          a := a.(misses := 0);
          if a.tookDown {
            a := a.(tookDown := false);
            out := out + [Log(AnsweringAgain), SetStatus(Status.Healthy), SetReason(AnsweringAgain)];
          }
        case Miss(why) =>
          a := a.(misses := a.misses + 1);
          if a.misses == a.failures {
            var said := NotAnswering(a.misses, why);
            out := out + [Log(said)];
            if cfg.restart == Always {
              var rest := Restart(said);
              return out + rest;
            }
            a := a.(tookDown := true);
            out := out + [SetStatus(Status.Unhealthy), SetReason(said)];
          }
      }
      phase := phase.(alive := Some(a));
    }

    /** A look at the output counters. */
    method Polled(c: ReloadCounters, now: Instant) returns (out: seq<Action>)
      requires phase.InService?
      modifies this
      ensures Turn(View(), out) == CountersRead(old(View()), c, now)
    {
      out := [];
      var rebuild := phase.rebuild;
      if rebuild.Unknown? {
        var inFlight := c.reloadMatches > 0 && c.readyMatchesAtReload == c.readyMatches;
        var seenReloads := c.reloadMatches - (if inFlight then 1 else 0);
        rebuild := if rebuild.ready then UpToDate(seenReloads) else NotReady(seenReloads);
        if !inFlight {
          phase := phase.(rebuild := rebuild, pending := None);
          return;
        }
      }
      if c.reloadMatches != rebuild.Seen() {
        out := [SetStatus(Status.Reloading), SetReason(RebuildingItself)];
        rebuild := Rebuilding(c.reloadMatches, now + cfg.readyTimeout);
      }
      if rebuild.UpToDate? && c.failures > 0 {
        out := out + [Log(ReportedFailure), SetStatus(Status.Unhealthy), SetReason(RebuildFailed)];
        phase := phase.(rebuild := NotReady(rebuild.seen), pending := None);
        return;
      }
      phase := phase.(rebuild := rebuild, pending := None);
      if rebuild.UpToDate? {
        return;
      }
      if cfg.probed {
        out := out + [Probe(ForReload)];
        phase := phase.(pending := Some(c));
      } else {
        var rest := ReloadSettle(c, true, now);
        out := out + rest;
      }
    }

    method ReloadSettle(c: ReloadCounters, probesPass: bool, now: Instant) returns (out: seq<Action>)
      requires phase.InService?
      modifies this
      ensures Turn(View(), out) == Settle(old(View()), c, probesPass, now)
    {
      out := [];
      var rebuild := phase.rebuild;
      if c.readyMatches > c.readyMatchesAtReload && c.failures == 0 && probesPass {
        out := [SetStatus(Status.Healthy), SetReason(ReloadedItself)];
        phase := phase.(rebuild := UpToDate(rebuild.Seen()));
        return;
      }
      if rebuild.Rebuilding? {
        var failure: Option<Text> := None;
        if c.failures > 0 {
          failure := Some(RebuildFailed);
        } else if c.errors > 0 {
          failure := Some(RebuildErrors(c.errors));
        } else if now >= rebuild.deadline {
          failure := Some(RebuildTooSlow(cfg.readyTimeout));
        }
        if failure.Some? {
          out := [Log(ReloadFailed(failure.value)), SetStatus(Status.Unhealthy), SetReason(failure.value)];
          phase := phase.(rebuild := NotReady(rebuild.seen));
        }
      }
    }

    /** Stop the running process for `why`, and start again. */
    method Restart(why: Text) returns (out: seq<Action>)
      modifies this
      ensures Turn(View(), out) == RestartRunning(old(View()), why)
    {
      out := Lifecycle.CancelRunningTimers(cfg)
             + [SetStatus(Status.Stopping), CountRestart(why), Log(Restarting(why)), StopChild(cfg.stopTimeout)];
      backoff := cfg.backoffMin;
      crashes := crashes.(restarts := 0);
      phase := Ending(ThenCycle);
    }

    method Exited(code: int, now: Instant) returns (out: seq<Action>)
      modifies this
      ensures Turn(View(), out) == AfterExit(old(View()), code, now)
    {
      out := [];
      if code == 0 && cfg.restart != Always {
        out := [SetStatus(Status.Exited)];
      } else if code != 0 {
        out := [SetStatus(Status.Failed(code))];
      }
      if cfg.restart != Always {
        phase := Parked(true, false);
        return;
      }
      var ran := Ran(View(), now);
      if ran > crashes.settled {
        backoff := cfg.backoffMin;
      }
      var tooMany := Exhausted(ran);
      var rest;
      if tooMany {
        rest := GiveUp(code);
      } else {
        rest := StartBackoff(now, true);
      }
      out := out + rest;
    }
  }

  class TaskMachine {
    var phase: TaskPhase
    var seen: seq<nat>

    ghost function View(): Task
      reads this
    {
      Task(phase, seen)
    }

    constructor ()
      ensures View() == NewTask()
    {
      phase := TaskAtGate(WaitingOnDeps);
      seen := [];
    }

    method On(ev: Event, deps: Deps) returns (out: seq<Action>)
      modifies this
      ensures TaskTurn(View(), out) == TaskOn(old(View()), ev, deps)
      decreases phase.TaskParked?
    {
      out := [];
      match phase {
        case TaskFinished =>
        case TaskAtGate(gate) =>
          match GateOn(gate, ev, deps) {
            case Wait(g, acts) =>
              phase := TaskAtGate(g);
              out := acts;
            case Ended(g, acts) =>
              phase := TaskAtGate(g);
              out := acts;
            case Open(generations) =>
              seen := generations;
              out := [SetStatus(Status.Running), RunJob];
              phase := TaskRunning;
          }
        case TaskRunning =>
          if ev.JobDone? {
            if ev.code == 0 && !ev.cached {
              out := [ReloadBrowser];
            }
            phase := TaskParked;
          }
        case TaskParked =>
          if ev.Stop? {
            out := [Action.Exit];
          } else {
            var reason := WakeReason(seen, ev, deps);
            if reason.Some? {
              phase := TaskAtGate(WaitingOnDeps);
              var rest := On(Board, deps);
              out := [SetReason(reason.value)] + rest;
            }
          }
      }
      if Action.Exit in out {
        phase := TaskFinished;
      }
    }
  }
}
