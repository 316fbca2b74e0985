/** Where the machines do less than one might take from their comments: for each,
    exactly when they do it, and an input on which they do not. */
module Limits {
  import opened Status
  import opened Lifecycle

  // ------------------------------------------------------------------
  // The gate opens on the drain, not on readiness

  /** What opens the gate is the drain's answer alone. */
  lemma OpensOnDrain(gate: Gate, ev: Event, deps: Deps)
    ensures GateOn(gate, ev, deps).Open? <==> gate == Draining && ev == Drained(false)
    ensures GateOn(gate, ev, deps).Open? ==> GateOn(gate, ev, deps).seen == deps.generations
  {
  }

  // ------------------------------------------------------------------
  // `on_change = "queue"` during startup

  /** A restart asked for during startup interrupts it exactly under the default
      policy; under any other it is not remembered either. */
  lemma StartupRestart(s: Service, why: Text, deps: Deps, now: Instant)
    requires s.phase.InStartup?
    ensures var turn := StepStartup(s, s.phase.deadline, Restart(why), deps, now);
            if s.cfg.onChange == RestartIt && s.cfg.reload == ByRestart
            then turn.next.phase == Ending(ThenCycle)
            else turn == Turn(s, [])
  {
  }

  function RunAll(s: Service, events: seq<Event>, deps: Deps, now: Instant): Turn
    decreases |events|
  {
    if events == [] then Turn(s, [])
    else
      var first := On(s, events[0], deps, now);
      var rest := RunAll(first.next, events[1..], deps, now);
      Turn(rest.next, first.out + rest.out)
  }

  /** Under `queue`, everything that follows goes as if the request had never been made. */
  lemma QueuedRestartIsForgotten(s: Service, why: Text, events: seq<Event>, deps: Deps, now: Instant)
    requires s.phase.InStartup? && s.cfg.onChange == Queue
    ensures RunAll(s, [Restart(why)] + events, deps, now) == RunAll(s, events, deps, now)
  {
    StartupRestart(s, why, deps, now);
    assert On(s, Restart(why), deps, now) == Turn(s, []);
    assert ([Restart(why)] + events)[1..] == events;
    var rest := RunAll(s, events, deps, now);
    assert [] + rest.out == rest.out;
  }

  // ------------------------------------------------------------------
  // Liveness and a failed rebuild

  /** A passing liveness check publishes `Healthy` exactly when an earlier one took
      the node down, whatever a rebuild has done since. */
  lemma LivenessRestores(s: Service, now: Instant)
    requires s.phase.InService? && s.phase.alive.Some?
    ensures SetStatus(Status.Healthy) in StepService(s, Probed(ForLiveness, Pass), Deps(None, [], []), now).out
            <==> s.phase.alive.value.tookDown
    ensures StepService(s, Probed(ForLiveness, Pass), Deps(None, [], []), now).next.phase.rebuild == s.phase.rebuild
  {
    var a := s.phase.alive.value;
    if a.tookDown {
      var out := StepService(s, Probed(ForLiveness, Pass), Deps(None, [], []), now).out;
      assert out[2] == SetStatus(Status.Healthy);
    }
  }

  const BothWatched := ServiceConfig(
    true, None, false, 10, 100, 10, OnlyOnChange, RestartIt, None, SelfManaged, true,
    Some(LivenessConfig(5, 1)), 1, 8, None)

  const Alone := Deps(None, [], [])

  /** The service in service, as the liveness checks and the rebuild stand. */
  function Up(rebuild: Rebuild, misses: nat, tookDown: bool): Service {
    NewService(BothWatched).(phase := InService(rebuild, Some(Alive(5, 1, misses, tookDown)), None), started := Some(0))
  }

  lemma {:induction false} RunAllSnoc(s: Service, events: seq<Event>, ev: Event)
    ensures RunAll(s, events + [ev], Alone, 0).next == On(RunAll(s, events, Alone, 0).next, ev, Alone, 0).next
    decreases |events|
  {
    hide On;
    if events == [] {
      assert events + [ev] == [ev] && [ev][1..] == [];
    } else {
      assert (events + [ev])[1..] == events[1..] + [ev];
      RunAllSnoc(On(s, events[0], Alone, 0).next, events[1..], ev);
    }
  }

  /** One more event of a life. */
  lemma Then(events: seq<Event>, ev: Event, s: Service) returns (more: seq<Event>)
    requires RunAll(NewService(BothWatched), events, Alone, 0).next == s
    ensures more == events + [ev]
    ensures RunAll(NewService(BothWatched), more, Alone, 0).next == On(s, ev, Alone, 0).next
  {
    more := events + [ev];
    RunAllSnoc(NewService(BothWatched), events, ev);
  }

  /** From nothing to service: past the gate, a slot, a child, and a first look
      at its output. */
  lemma ComesUp() returns (events: seq<Event>)
    ensures RunAll(NewService(BothWatched), events, Alone, 0).next == Up(UpToDate(0), 0, false)
  {
    hide RunAll, StepBackoff, StepParked, StepStartup;
    var s := NewService(BothWatched);
    NoEvents(s);
    events := Then([], Begin, s);
    events := Then(events, Drained(false), s.(phase := AtGate(Draining)));
    events := Then(events, SlotAcquired, s.(phase := AwaitingSlot));
    events := Then(events, Spawned, s.(phase := Spawning));
    events := Then(events, Counters(ReloadCounters(0, 0, 0, 0, 0)), Up(Unknown(true), 0, false));
  }

  lemma NoEvents(s: Service)
    ensures RunAll(s, [], Alone, 0).next == s
  {
  }

  const Failing := ReloadCounters(1, 1, 1, 0, 1)

  /** A check fails; a rebuild starts, and fails. */
  lemma BothFail(events: seq<Event>) returns (more: seq<Event>)
    requires RunAll(NewService(BothWatched), events, Alone, 0).next == Up(UpToDate(0), 0, false)
    ensures more == events + [TimerFired(LivenessTimer), Probed(ForLiveness, Miss(Given("no answer"))),
                              TimerFired(ReloadPoll), Counters(Failing), TimerFired(LivenessTimer)]
    ensures RunAll(NewService(BothWatched), more, Alone, 0).next == Up(NotReady(1), 1, true)
  {
    hide RunAll, StepBackoff, StepParked, StepStartup, StepGate, StepSpawning;
    more := Then(events, TimerFired(LivenessTimer), Up(UpToDate(0), 0, false));
    more := Then(more, Probed(ForLiveness, Miss(Given("no answer"))), Up(UpToDate(0), 0, false));
    more := Then(more, TimerFired(ReloadPoll), Up(UpToDate(0), 1, true));
    more := Then(more, Counters(Failing), Up(UpToDate(0), 1, true));
    more := Then(more, TimerFired(LivenessTimer), Up(NotReady(1), 1, true));
  }

  /** In the life of a new service: it comes up, a liveness check fails, a rebuild
      fails, the next check passes, and the node is published as healthy, last of
      all, while its rebuild still stands as failed. */
  lemma HealthyOverFailedRebuild() returns (events: seq<Event>)
    ensures var s := RunAll(NewService(BothWatched), events, Alone, 0).next;
            var turn := On(s, Probed(ForLiveness, Pass), Alone, 0);
            && s.phase.InService? && s.phase.rebuild == NotReady(1)
            && SetStatus(Status.Healthy) in turn.out && (forall a <- turn.out :: a.SetStatus? ==> a.status == Status.Healthy)
            && turn.next.phase.InService? && turn.next.phase.rebuild == NotReady(1)
  {
    events := ComesUp();
    events := BothFail(events);
    LivenessRestores(Up(NotReady(1), 1, true), 0);
    hide RunAll;
  }
}
