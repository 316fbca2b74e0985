# turborust supervisor: a verified model

turborust runs a plan of services and tasks that depend on each other. Each
node has a supervisor: a pure decision machine, fed one event at a time by an
executor that runs the actions it answers with. Supervisors meet only on a
shared board (status, generation, one version counter), in a pool of build
permits, and through control queues that carry restarts and stops.

This project models that protocol and four cores around it, and proves what
they promise. The main statements are over all inputs, all runs or all reachable
states; where a natural claim is false, a concrete history shows it and a
statement over all inputs says when it holds.

Verify with `dafny verify dfyconfig.toml` (Dafny 4.11).

## Layout

| file | models |
|---|---|
| `status.dfy` | statuses, readiness, names and time (src/state.rs) |
| `lifecycle.dfy` | the decision functions of `Gate`, `Crashes`, `Service`, `Task` (src/lifecycle.rs:18-1142) |
| `lifecycle_machine.dfy` | the same machines as objects that update their fields, proved equal to those functions |
| `ctl.dfy` | the two-priority control queue (src/ctl.rs:48-123) |
| `supervisor.dfy` | the executor: taking an event, deciding, running actions, the two-step status write (src/engine.rs:386-432, 1272-1498) and the slot, processes and stamps of `run_task` (773-966) and `recheck` (723-749) |
| `supervisor_inv.dfy`, `supervisor_runs.dfy`, `task_runs.dfy` | what every run of one supervisor keeps |
| `world.dfy`, `world_inv.dfy`, `progress.dfy` | supervisors interleaving over the board and the pool |
| `service_laws.dfy`, `requests.dfy` | what each event does in each phase, exactly, spelled on events, settings and generations; a request from its sending to the gate |
| `timers.dfy`, `board_rows.dfy` | when a timer fires; what a row of the board shows |
| `task_ends.dfy`, `stamp_ends.dfy` | what a task shows, and what its stamp is, once its run is over |
| `gate_looks.dfy` | what a node's dependencies were when it passed its gate |
| `two_node_runs.dfy`, `stale_runs.dfy`, `task_rest.dfy` | sessions built step by step; exactly which services and which tasks can rest on an old result |
| `limits.dfy` | where a machine does less than its comments suggest |
| `board_generations.dfy`, `rebuild_results.dfy` | what a generation on the board counts; a self-reloading process in a session |
| `crash_loops.dfy`, `reload_follower.dfy` | bounded crash loops; following a self-reloading process |
| `graph.dfy`, `config_graph.dfy`, `plan_graph.dfy`, `stop_waves.dfy` | cycles, order, reachability, dispatch, shutdown |
| `line_splitter.dfy`, `cursor_queries.dfy` | streaming output |
| `globs.dfy`, `glob_meaning.dfy`, `pruned_walk.dfy`, `cache_key.dfy`, `fingerprint.dfy` | what a key is made of |
| `replay.dfy`, `hits_served.dfy`, `cache_store.dfy`, `replay_limits.dfy` | the cache of results |
| `stamps.dfy`, `early_reads.dfy` | when a task's stamp is in place, and who can read it before |
| `history.dfy`, `log_store.dfy`, `calendar.dfy` | bounded stores and dates |

Time is a number and a dependency snapshot a value, as in the code. A process,
a probe, a clock and the disk appear only as the answers they give: each is a
parameter of a step, and every answer is allowed.

## Where code and comments part

The model follows the code.

- `on_change = "queue"` is documented as letting a startup finish "before
  acting" (src/config.rs:208-210); a request during startup is dropped, not
  kept (`Limits.QueuedRestartIsForgotten`).
- A liveness answer publishes Healthy over a rebuild that failed
  (`Limits.HealthyOverFailedRebuild`).
- `detect_cycle` does not follow edges to a node with an empty name
  (`ConfigGraph.MissedCycles`).
- The log store's comment says the newest line always stays
  (src/state.rs:507); a line written over an earlier one may be evicted
  (`Logs.NewestStays`).
- `archive` counts on a key always giving the same bytes
  (src/cache.rs:784-786); without that, a failed store can serve a record with
  another run's archive (`ReplayLimits.LostRecordPairsWithAnotherArchive`).
- `run_task` publishes Done before the output stamp is in place
  (`EarlyReads.EarlyExactly`).
- The gate is said to wait until every dependency is ready
  (src/lifecycle.rs:211-214); it looks before the drain, and the drain's answer
  opens it whatever has become of readiness (`StaleRuns.PassesGateUnready`).
  Every dependency was ready at that look, and is so at the opening exactly if
  none was written in between (`GateLooks.PassesOnReadyExactly`).

## Model

| member | source | states |
|---|---|---|
| `Progress.NoLostWakeup` | src/engine.rs:386-428 | In every world any session reaches (any plan, any interleaving, statuses written in two steps), a node blocked in the gate with no unseen tick and no write in flight has a dependency that is unready right now. |
| `GateLooks.PassesOnlyAfterAllReady` | src/lifecycle.rs:211-256 | For every plan, session and node: a node waiting for its drain, or past its gate, saw every dependency ready at the look that asked for that drain; while it waits, that look is its last snapshot. |
| `GateLooks.PassesOnReadyExactly` | src/lifecycle.rs:232-256 | For every plan, session and node: a decision that passes the gate is one on the drain's answer and notes the generations of that moment; it finds every dependency ready at the generations of the look if and only if no dependency's status was written between the look and that decision. |
| `Progress.NoStaleRest` | src/lifecycle.rs:745-941 | A service with no liveness probe, reloaded by restarting, and restarted or queued on a change, that rests in `Running` with nothing unseen and no write in flight runs against ready dependencies at exactly the generations it started with. `StaleRuns.RestfulExactly` shows these settings to be the exact ones. |
| `StaleRuns.RestfulExactly` | src/lifecycle.rs:745-941 | For every valid configuration of a command service: no session of any plan leaves it at rest in `Running`, no write in flight, against dependencies that moved or are unready, if and only if it has no liveness probe, `reload = "restart"`, and `on_change` is `restart` or `queue`. |
| `StaleRuns.CanRestStale` | src/engine.rs:1300-1303 | For each other configuration (a liveness probe, `on_change = ignore` or `signal`, or `reload = "self"`), whatever else it sets, a session built step by step from the start that ends at such a stale rest. |
| `Progress.WaitsEnd` | src/lifecycle.rs:232-256 | No circular waiting: when `depends_on` has no cycle, the chain of blocked nodes from any node blocked at its gate ends at a node that is not blocked there. |
| `Progress.UnblockedMoves` | src/engine.rs:1282-1303 | A node waiting at its gate that is not blocked there has an enabled step of its own, so the end of every waiting chain can move or is past its gate. |
| `Progress.BlockedSeesNow` | src/engine.rs:415-428 | The last snapshot of a node with no unseen tick equals the board as it stands. |
| `Progress.SlotsConserved` | src/engine.rs:187-197 | Free plus held build permits always equal `concurrency`. |
| `Progress.FullPoolWorks` | src/engine.rs:187-197 | When no permit is free, some holder is at work and is not itself waiting for a permit. |
| `Progress.HolderWorks` | src/lifecycle.rs:552-613 | Whoever holds a permit is working; a holder at rest is a service in startup, so none is at its gate, running, backing off or parked. |
| `Progress.HolderMoves` | src/engine.rs:1282-1404 | Whoever holds a permit has an enabled step of its own now or, between two attempts of a startup probe, once the armed probe timer is due. |
| `World.Concurrency` | src/config.rs:784-791 | The number of permits is at least 1, is the configured number when that is positive, and is at most 8, and at most the cores there are, when inferred. |
| `Progress.SupervisorKeeps` | src/engine.rs:1272-1408 | For each service over all runs: at most one reply outstanding, Spawn only with no child, at rest exactly the timers, child and slot its phase calls for, ready only in `Running` (or with the correcting write already decided), one exit that leaves no child and no slot. |
| `Progress.StopNotOutrun` | src/ctl.rs:61-123 | Once Stop was sent, a supervisor starts at most one more process and a task at most one more run, and the stop is still queued or already being acted on. |
| `SupervisorInvariant.EveryTurnLands` | src/lifecycle.rs:407-530 | Every decision of the service machine, in every phase and on every event that fits, leaves replies, timers, child, slot and status as the next phase requires. |
| `ServiceRuns.RunKeeps` | src/engine.rs:1316-1404 | Every action the executor runs keeps the supervisor invariant. |
| `ServiceRuns.OneChild` | src/engine.rs:1316-1404 | When a Spawn is run there is no child. |
| `ServiceRuns.AtRest` | src/engine.rs:1282-1303 | What a blocked supervisor holds: timers, child, slot and status by phase. |
| `ServiceRuns.OneReply` | src/engine.rs:1316-1404 | No action asking for a reply runs while another reply is queued. |
| `ServiceRuns.SlotOnlyWhileStarting` | src/lifecycle.rs:552-636 | A slot is held only from acquiring it to the end of startup, or while stopping to exit. |
| `ServiceRuns.ReadyOnlyInService` | src/lifecycle.rs:611-636 | A command service shown ready is in `Running`, or is about to publish something else. |
| `ServiceRuns.EndsClean` | src/engine.rs:1388-1404 | Exit happens at most once, and leaves no child, no slot and no timers. |
| `ServiceRuns.StopObeyed` | src/lifecycle.rs:416-529 | A stop taken in any phase makes the machine head for its exit. |
| `ServiceRuns.StartsOnlyPastGate` | src/lifecycle.rs:431-447 | The machine moves towards a spawn only from a gate that drained without finding a stop. |
| `TaskRuns.HoldsOnlyInRun` | src/engine.rs:723-749 | A task holds a slot or a child only while its job runs; the child is that of a build, and then it holds the slot, or that of a hit run once more by `recheck`, and then it holds none; it exits at most once. |
| `TaskRuns.OnlyKnownActions` | src/engine.rs:1413-1457 | A task machine only asks for what the task executor can run. |
| `WorldInvariant.StaysOnlyIfCurrent` | src/lifecycle.rs:745-941 | A decision that keeps such a service in `Running` was made on a snapshot equal to what it started against, whatever the event. |
| `WorldInvariant.EntryPublishes` | src/lifecycle.rs:611-636 | Entering `Running` always publishes a status, so the entry itself ticks the board and is looked at again. |
| `WorldInvariant.SlotFlow` | src/engine.rs:187-197 | Each executor step moves a permit between the pool and the node, never makes or loses one. |
| `WorldInvariant.NextKeeps` | src/engine.rs:1272-1498 | Every move of every supervisor keeps the whole-world invariant. |
| `StaleRuns.TaskCanParkStale` | src/engine.rs:1438-1447 | A session, built step by step from the start, in which a dependency finishes again during a task's job and the task ends parked against the old generation. |
| `TaskRest.RestsCurrentExactly` | src/engine.rs:1438-1447 | For every plan, session and task: a parked task at rest, no write in flight, stands at the generations its dependencies are at if and only if the last event it decided on was a board tick, or no dependency had a new result between the opening of its gate and the end of its job. |
| `TaskEnds.ShowsWhatItsRunCameTo` | src/engine.rs:799-975 | For every plan, session and task: the code a task is told its run ended with, and what it shows from then on and while parked, are what the answers of the cache, the spawn, the process and the check said, and nothing else; it shows a result exactly if that code is 0, marked cached exactly if served. |
| `StampEnds.StampIsWhatItsRunLeft` | src/engine.rs:799-966 | For every plan, session and task, while it is parked after a run with a key: its stamp is that of what the run produced if it shows a result and produced anything (what the cache said on a hit, what the record promised on a reproduced one, what the host said on a build), and otherwise it is the key. |
| `StaleRuns.PassesGateUnready` | src/lifecycle.rs:241-243 | A session, built step by step from the start, in which a node passes its gate while its dependency is not ready. |
| `ServiceLaws.WaitsExactly` | src/lifecycle.rs:233-256 | A waiting gate names the first dependency that is not ready, and asks for the drain exactly if there is none and no stop. |
| `ServiceLaws.DrainsExactly` | src/lifecycle.rs:233-256 | The answer of the drain alone opens the gate, noting the generations of that moment: a service with no command is healthy at once, one with a port has it freed before a slot is asked for. |
| `ServiceLaws.ComesUpExactly` | src/lifecycle.rs:431-447 | From a freed port to a slot to the spawn, and out on a stop. |
| `ServiceLaws.SpawnsExactly` | src/lifecycle.rs:552-580 | A spawned process is probed until its deadline, or is healthy at once; a failed spawn ends the supervisor exactly under `never`. |
| `ServiceLaws.StartupEndsExactly` | src/lifecycle.rs:652-742 | A startup ends exactly on a pass, a miss past the deadline, an exit, a stop, a moved or unready dependency, or a request its policy acts on; each with what it shows and stops. |
| `ServiceLaws.StartupHasItsTime` | src/lifecycle.rs:652-731 | Over every history: a startup goes on over failing probes exactly while less than `ready_timeout` has passed since its own spawn; the first failure after that leaves it unhealthy in service. |
| `ServiceLaws.DeathExactly` | src/lifecycle.rs:1018-1049 | A child that dies is restarted after a delay or given up under `always`; under any other policy it is parked, shown as exited or failed. |
| `ServiceLaws.DelayEndsExactly` | src/lifecycle.rs:475-491 | A delay ends exactly by its timer, by a request, which also starts delay and count over, or by a stop. |
| `ServiceLaws.ParkedWakesExactly` | src/lifecycle.rs:492-513 | A parked service goes back to its gate if and only if a restart is requested or a board event finds some noted generation different; it ends if and only if stopped; the count starts at 0 after a give-up. |
| `ServiceLaws.ServedWakesExactly` | src/lifecycle.rs:514-528 | The same for a node that runs no command. |
| `ServiceLaws.EndsExactly` | src/lifecycle.rs:467-474 | A service being stopped waits for its child to be gone, whatever else it hears, then exits or goes back to its gate. |
| `ServiceLaws.ServiceLeavesExactly` | src/lifecycle.rs:745-941 | A service leaves `Running` exactly on a stop, an exit, an unready or moved dependency on a board event, a request its policy restarts for, or the last allowed miss under `always`. |
| `ServiceLaws.ChangeInService` | src/lifecycle.rs:765-783 | A request it does not restart for brings the signal if one is set, and otherwise nothing or a log line. |
| `ServiceLaws.CheckIsDue` | src/lifecycle.rs:792-801 | A due liveness check is made, unless a rebuild is under way; then it is put off. |
| `ServiceLaws.ChecksActExactly` | src/lifecycle.rs:802-841 | Over every history: exactly the miss that makes `failures` in a row, since entering service or the last pass, is acted on: under `always` the child is stopped to start over, under the other policies it is kept and shown unhealthy, until the next pass shows it healthy. |
| `ServiceLaws.TaskWakesExactly` | src/lifecycle.rs:1089-1141 | A parked task reruns exactly on a request or a moved generation; a run is left alone until it is over; a real build that ends well reloads the browser. |
| `Requests.RequestIsQueued` | src/ctl.rs:61-74 | In every session, a request to a node that no stop was sent to and that has not ended is queued behind the others. |
| `Requests.RequestStays` | src/ctl.rs:90-123 | It stays queued through every move of the session but two: its node takes the head of the queue, or discards all of it on its way through the gate. |
| `Requests.RequestWakes` | src/lifecycle.rs:492-513 | In every session, a parked node with a request queued and no stop sent can take it, and by its decision on it stands at its gate; a service that had given up starts its count over. |
| `Requests.StopIsTaken` | src/engine.rs:1458-1498 | In every session, a node that takes a stop, or finds that nobody is left to send one, is by its decision on it ended or waiting only for its child to be gone. |
| `TimersKept.FiresWhenAsked` | src/engine.rs:1458-1498 | In every session, a timer fires only when it was last asked for, neither cancelled nor fired since, and not before the moment asked for; one that is due keeps some timer of its node ready to fire. |
| `BoardRows.RowIsWhatWasPublished` | src/engine.rs:386-432 | For every plan, session and node, service or task: its row shows the status published last, `Pending` before any was, and its generation is the number of results published. |
| `LifecycleMachine.ServiceMachine.constructor` | src/lifecycle.rs:382-395 | A new service starts in `Gate::Waiting` with the smallest delay. |
| `LifecycleMachine.ServiceMachine.On` | src/lifecycle.rs:407-414 | One event in, actions out, and the machine finished once it has emitted Exit: equal to the decision function all proofs speak of. |
| `LifecycleMachine.ServiceMachine.Step` | src/lifecycle.rs:416-529 | The event dispatch over all phases computes the decision function. |
| `LifecycleMachine.ServiceMachine.Cycle` | src/lifecycle.rs:532-535 | A new cycle re-enters the gate and evaluates it at once. |
| `LifecycleMachine.ServiceMachine.AfterGate` | src/lifecycle.rs:537-550 | Past the gate: serve in process, reclaim the port, or ask for a slot. |
| `LifecycleMachine.ServiceMachine.Exhausted` | src/lifecycle.rs:270-283 | Recording a crash: the count starts over after a settled run, and refuses one restart past the limit. |
| `LifecycleMachine.ServiceMachine.SpawnFailedWith` | src/lifecycle.rs:562-580 | A spawn failure counts as a crash unless the policy is never. |
| `LifecycleMachine.ServiceMachine.GiveUp` | src/lifecycle.rs:582-595 | Giving up parks the service, resettable and announced. |
| `LifecycleMachine.ServiceMachine.StartBackoff` | src/lifecycle.rs:597-607 | A backoff sets its timer and doubles the next delay up to the cap. |
| `LifecycleMachine.ServiceMachine.BecameReady` | src/lifecycle.rs:611-636 | The end of startup releases the slot and arms liveness and reload timers. |
| `LifecycleMachine.ServiceMachine.Starting` | src/lifecycle.rs:652-719 | The startup phase, event by event. |
| `LifecycleMachine.ServiceMachine.NotReadyInTime` | src/lifecycle.rs:723-731 | Readiness given up: Unhealthy, yet in service. |
| `LifecycleMachine.ServiceMachine.Interrupt` | src/lifecycle.rs:733-742 | An interrupted startup frees its slot and stops its child before cycling. |
| `LifecycleMachine.ServiceMachine.Running` | src/lifecycle.rs:745-941 | The running phase, event by event. |
| `LifecycleMachine.ServiceMachine.CheckedAlive` | src/lifecycle.rs:802-841 | A liveness answer: counting misses, taking down, and restoring. |
| `LifecycleMachine.ServiceMachine.Polled` | src/lifecycle.rs:843-925 | A reload poll: the first look, the down edge, a reported failure, and the probe. |
| `LifecycleMachine.ServiceMachine.ReloadSettle` | src/lifecycle.rs:944-993 | The verdict on a rebuild once any probe has answered. |
| `LifecycleMachine.ServiceMachine.Restart` | src/lifecycle.rs:1005-1016 | A restart while running resets delay and count and stops the child first. |
| `LifecycleMachine.ServiceMachine.Exited` | src/lifecycle.rs:1018-1049 | An exit: parked by policy, given up, or backed off. |
| `LifecycleMachine.TaskMachine.On` | src/lifecycle.rs:1089-1141 | The task machine computes its decision function. |
| `Ctl.Channel.Send` | src/ctl.rs:61-74 | A stop is queued as urgent and marks the channel; a restart is refused from then on. |
| `Ctl.Channel.Recv` | src/ctl.rs:90-109 | The next deliverable message, urgent first; no restart is delivered once stopping. |
| `Ctl.Channel.DrainStale` | src/ctl.rs:114-123 | Empties both queues and says whether a stop was among them or is in flight. |
| `CrashLoops.DelaysDouble` | src/lifecycle.rs:597-607 | With `backoff_min <= backoff_max`, the k-th delay since the last reset is `min(backoff_min * 2^k, backoff_max)`, over all event histories. |
| `CrashLoops.RestartsBounded` | src/lifecycle.rs:267-283 | Over every history and any two delay bounds, with limit L: between two resets of the count there are at most L backoffs, and at most L+1 spawns besides those of cycles that were asked for (a startup interrupted, a parked or served node woken without a reset). A crash parks the service exactly if the limit is spent; then nothing at all is done until a restart, a stop or a moved dependency shown by a board event. |
| `CrashLoops.AskedSpawnsAgain` | src/lifecycle.rs:701-742 | Why the asked-for cycles are counted: a history at limit 0 that spawns twice with no backoff and no reset. |
| `CrashLoops.FirstDelayObeys` | src/lifecycle.rs:382-395 | The very first delay obeys the formula exactly when `backoff_min <= backoff_max`. |
| `CrashLoops.ParkedStays` | src/lifecycle.rs:492-513 | A parked service does and becomes nothing until a restart request, a stop, or a moved dependency shown by a board event. |
| `ReloadFollower.CountMeans` | src/engine.rs:1608-1653 | What the four output counters say about the lines printed so far, in both directions. |
| `ReloadFollower.ReadyOnlyIfAnswered` | src/lifecycle.rs:843-993 | Over any interleaving of lines and polls, the service rests in `Rebuild::Ready` only if the newest reload line was followed by a ready line and, past the first look, with no failure since. |
| `ReloadFollower.ReadyExactlyIfAnswered` | src/lifecycle.rs:843-993 | Over any interleaving of lines and polls, past the first look, with the newest reading acted on and its probe, if any, passed: a process that has reloaded rests in `Rebuild::Ready`, and shows Healthy last, if and only if its newest reload line told was followed by a ready line and no failed line stands. |
| `ReloadFollower.RebuildComesTo` | src/lifecycle.rs:944-993 | In every run, a look that finds a rebuild, and the answer of its probe, show at once what the lines told call for: ready if answered and not refused, unhealthy on a failed line, on errors or once `ready_timeout` has passed since the rebuild was noticed, and otherwise Reloading. |
| `ReloadFollower.ProbesExactly` | src/lifecycle.rs:907-925 | Past the first look, a poll asks for a probe if and only if the service is probed and it is shown as anything but healthy or a new reload line is found. |
| `ReloadFollower.RebuildAnnounced` | src/lifecycle.rs:875-885 | A poll that finds new reload lines publishes Reloading before anything else. |
| `ReloadFollower.RebuildBumpsGeneration` | src/lifecycle.rs:944-966 | A rebuild that begins and ends between two polls still adds a ready result to what the service says. |
| `BoardGenerations.GenerationCountsResults` | src/engine.rs:386-428 | For every plan, session and service: with nothing left to do, its generation on the board is the number of ready results its machine has said, each counted once, so a rebuild's result moves the generation. |
| `RebuildResults.RebuildMovesBoard` | src/lifecycle.rs:843-993 | For every plan and session, with the lines a service prints at any moments: between two moments of a service that stays in service, its first look behind it, if it is told of a new reload line, the newest one was followed by a ready line with no failed line standing, that reading is acted on with no probe refused and nothing is left to do, then it rests in ready and its generation on the board has moved, even if the rebuild began and ended between two polls. |
| `RebuildResults.RestsReadyExactly` | src/lifecycle.rs:843-993 | In every session, liveness probes included: a service in service that has reloaded, past its first look and with the newest reading acted on, rests in ready if and only if its newest reload line told was followed by a ready line and no failed line stands. |
| `ReloadFollower.FirstLookForgives` | src/lifecycle.rs:848-874 | The first look accepts a failed line before it: why the claim above starts after it. |
| `Limits.QueuedRestartIsForgotten` | src/lifecycle.rs:701-708 | Under `on_change = queue` a request during startup changes nothing, then or later. |
| `Limits.HealthyOverFailedRebuild` | src/lifecycle.rs:811-819 | From a new service, event by event through gate, slot, spawn and first look: a failed liveness check, a failed rebuild, a passed check, and Healthy is published last while the rebuild still stands as failed. |
| `ConfigGraph.DetectCycle` | src/config.rs:983-1030 | The three-colour walk reports a real cycle, and reports none exactly when the edges it walks have none. |
| `ConfigGraph.MissedCycles` | src/config.rs:983-1030 | It passes exactly when every cycle goes through a node whose name is empty. |
| `ConfigGraph.EmptyNameIsMissed` | src/config.rs:983-1030 | A declared cycle through an empty name is not reported. |
| `ConfigGraph.TopoClosure` | src/config.rs:1033-1052 | Fails exactly on an undeclared root; otherwise lists exactly what the roots reach, once each, every dependency before its dependents. |
| `PlanGraph.BuildDependents` | src/plan.rs:301-310 | The dependents map is the reverse of the dependency map. |
| `PlanGraph.Reach` | src/plan.rs:198-208 | Terminates with exactly the transitive closure of a node's edges. |
| `PlanGraph.NeedsAndNeeded` | src/plan.rs:133-147 | `transitive_deps` and `transitive_dependents` are inverse relations. |
| `PlanGraph.DispatchRoots` | src/plan.rs:218-229 | Keeps a hit exactly when it depends on no other hit. |
| `PlanGraph.RootsAreAntichain` | src/plan.rs:218-229 | No dispatched root depends on another. |
| `PlanGraph.EveryHitHasARoot` | src/plan.rs:218-229 | In a plan with a dependency-first order every hit is a root or depends on one. |
| `PlanGraph.Select` | src/affected.rs:112-136 | Selects the plan's nodes that are hit or depend on a hit, or everything for a global file. |
| `PlanGraph.SelectedIsLeast` | src/affected.rs:112-136 | The selection is the least set that holds the hits and is closed under dependents. |
| `StopWaves.Waves` | src/plan.rs:167-192 | Every node is put in the wave just after the last of its dependents, so each dependent is in a strictly earlier wave; each wave lists its nodes in reverse order of the plan. |
| `StopWaves.WavesPartition` | src/plan.rs:167-192 | Every node is in exactly one wave, once. |
| `StopWaves.NoEmptyWave` | src/plan.rs:167-192 | No wave is empty. |
| `StopWaves.WavesAreEarliest` | src/plan.rs:167-192 | In any schedule that stops dependents strictly first, no node comes earlier than here. |
| `StopWaves.ChainsFit` | src/plan.rs:167-192 | No chain of dependents above a node is longer than its wave counts. |
| `StopWaves.ChainAbove` | src/plan.rs:167-192 | Above every node there is a chain of dependents as long as its wave counts, so no schedule can do with fewer waves. |
| `StopWaves.OrderedForStop` | src/plan.rs:161-171 | Read backwards, a dependency-first order meets every dependent before what it needs, as the waves require. |
| `StopWaves.Shutdown` | src/engine.rs:1660-1704 | Sends each wave its stop only after the wave before has ended or run out of grace. |
| `StopWaves.StoppedAfterDependents` | src/engine.rs:1660-1704 | A node is sent Stop only after each of its dependents has ended or its grace ran out. |
| `LineSplitter.Pump` | src/proc.rs:914-985 | Emits the lines of the whole stream, the same for every way of cutting it into reads. |
| `LineSplitter.Reader.Take` | src/proc.rs:950-980 | Taking a read a run at a time equals feeding it byte by byte. |
| `LineSplitter.CharBoundary` | src/proc.rs:1031-1038 | The backward walk finds the cut the byte-wise meaning uses. |
| `LineSplitter.LinesConserve` | src/proc.rs:914-985 | The lines joined are the stream without its CR and LF bytes. |
| `LineSplitter.LinesGood` | src/proc.rs:950-984 | Every line is non-empty and at most `MAX_LINE` bytes. |
| `LineSplitter.LinesWholeChars` | src/proc.rs:1029-1038 | For well-formed UTF-8 (section 4 of RFC 3629) every line is well-formed: no cut splits a character. |
| `LineSplitter.CrLfIsTransient` | src/proc.rs:968-975 | A CRLF line is flagged transient, and its LF adds nothing. |
| `LineSplitter.EmptyLinesDropped` | src/proc.rs:1040-1048 | A line end adds a line exactly when something is pending. |
| `LineSplitter.LinesAreRuns` | src/proc.rs:914-985 | When no run between line ends is longer than `MAX_LINE`, the lines are exactly the non-empty runs, in order, each transient exactly if a CR ended it. |
| `LineSplitter.CutsAreLong` | src/proc.rs:1029-1048 | What is cut off a longer run is within four bytes of `MAX_LINE`, and not transient. |
| `CursorQueries.Counter.Count` | src/proc.rs:1014-1027 | One chunk's count is the queries ending in the kept tail and the chunk; the tail kept is the right one. |
| `CursorQueries.CountAll` | src/proc.rs:1014-1027 | The counts over any cutting of a stream sum to the occurrences in the whole stream. |
| `Globs.AncestorsOfAMatchAreKept` | src/cache.rs:68-106 | Every directory above a matching path satisfies `may_contain`, for all include and exclude globs, closed-up forms included. |
| `Globs.CollapsedMatchStarts` | src/cache.rs:96-122 | What the closed-up form of a glob matches starts with the original glob's plain text. |
| `Globs.BuildSet` | src/cache.rs:108-122 | Builds exactly the globs and their valid closed-up forms; fails exactly on an invalid glob. |
| `Globs.NewMatcher` | src/cache.rs:44-58 | A matcher is built exactly when every include and exclude is valid. |
| `Globs.WantedExactly` | src/cache.rs:87-93 | A path is wanted if and only if some include glob, or its valid closed-up form, matches it and no exclude glob nor its valid closed-up form does. |
| `Globs.EnteredOnlyOnTheWay` | src/cache.rs:68-106 | A directory may be entered if and only if there is an include and the directory is the root or lies on one path with the plain text some include begins with. |
| `GlobMeaning.MatchMeans` | src/cache.rs:108-122 | What the pattern matcher accepts, in both directions: the path divides into consecutive parts, one for each piece of the pattern, each part what that piece stands for. |
| `GlobMeaning.GlobMatchMeans` | src/cache.rs:108-122 | The same for a glob with its unmodelled tail. |
| `GlobMeaning.CollapseExactly` | src/cache.rs:113-119 | What the closed-up form of a glob is, spelled on its text. |
| `PrunedWalk.PrunedWalkIsFullWalk` | src/cache.rs:125-168 | For every file tree, the matching files of the pruned walk are those of the full walk, in the same order. |
| `PrunedWalk.FingerprintFiles` | src/cache.rs:125-168 | The hashed files are those of the full walk filtered by `matches` (the reference walk at src/cache.rs:984-1008), and a path is hashed if and only if the full walk finds a readable file there, some include glob or its valid closed-up form matches it, and no exclude glob nor its valid closed-up form does. |
| `PrunedWalk.HashesMean` | src/cache.rs:146-168 | A path is hashed exactly if it is found and readable, with its content's hash. |
| `PrunedWalk.WalkFindsExactly` | src/cache.rs:125-168 | The full walk finds a file if and only if a chain of directories leads to it in the tree and ignore files hide none of them. |
| `CacheKey.Combine` | src/cache.rs:171-192 | The text hashed is the metadata, the marker and the files, in ascending key order. |
| `CacheKey.KeyDecides` | src/cache.rs:171-192 | With NUL-free fields and no metadata key `--files--`, equal texts mean equal metadata and equal files. |
| `CacheKey.MarkerAsMetadata` | src/cache.rs:171-192 | Without that condition two different inputs share a text. |
| `Fingerprints.Fingerprint` | src/engine.rs:474-539 | The metadata holds at each key exactly what its description and its surroundings say, and the text is its combination with the files. |
| `Fingerprints.MarkerIsNoKey` | src/engine.rs:474-539 | No metadata a fingerprint builds is named like the marker, so the condition above always holds. |
| `Fingerprints.EqualKeysEqualInputs` | src/engine.rs:474-539 | Equal key texts mean equal files, command, cwd, mode, toolchain, config and lockfile, outputs and shell once joined by U+001F; for every task both depend on, a stamp in both or in neither, and the same; for every declared variable taken from no file, the same inline, else surrounding, else empty value; and equal env-file values where the digest tells them apart. |
| `Fingerprints.JoinedDecides` | src/engine.rs:482-496 | Lists with no U+001F in an entry, other than the one empty entry, join to the same text if and only if they are equal. |
| `Fingerprints.KeyMovesWithItsInputs` | src/engine.rs:474-539 | Two keys are equal if and only if files, fixed settings, declared variables, env-file digests and upstream stamps are, each compared on the fields themselves. |
| `Fingerprints.UnsetSharesTheKeyOfEmpty` | src/engine.rs:514-525 | An unset declared variable and an empty one give the same key. |
| `CacheStore.Cache.Archive` | src/cache.rs:746-793 | Archiving stages and swaps, refuses what is too large, and leaves the old archive when a copy fails. |
| `CacheStore.Cache.Restore` | src/cache.rs:796-812 | Restores every file or, when one is missing, none. |
| `CacheStore.Cache.Finish` | src/engine.rs:939-966 | A finished run archives, hashes, stamps and records. |
| `CacheStore.Cache.LookUp` | src/engine.rs:785-878 | A lookup serves or not, restores, and stamps as the replay function says. |
| `CacheStore.Cache.Drop` | src/cache.rs:961-965 | Forgetting or evicting removes the record and the archive, as far as deletions succeed. |
| `Replay.ArchivedHitAgrees` | src/engine.rs:799-878 | After any history of runs, edits, evictions and hits with clean stores, an archived hit leaves each recorded output byte-equal to what the recording run left, touches nothing else, and stamps its task as that run did. |
| `Replay.ReproducibleHitAgrees` | src/engine.rs:799-878 | The same under any failures of archiving and storing, where a key always produces the same bytes. |
| `Replay.FinishKeepsFaithExactly` | src/engine.rs:946-966 | Storing a result keeps every archived record over the bytes of its own run if and only if neither of two things happens: other bytes than the earlier archived record made are archived and their own record is not written, or an old archive with other bytes stays in the way and the record is written over it. |
| `Replay.IncompleteChangesNothing` | src/cache.rs:796-803 | A restore that returns false changes nothing. |
| `Replay.BrokenPutsBackRecordedBytes` | src/cache.rs:804-811 | A restore cut short has only put back recorded bytes. |
| `HitsServed.ArchivedExactly` | src/cache.rs:746-793 | A stored run is archived if and only if its outputs are all there, fit, and the disk lets them be copied and put in place; then the archive holds their bytes. |
| `HitsServed.CleanRunIsServed` | src/engine.rs:799-846 | A run cleanly archived and stored is a hit after any history that stores and drops nothing at its place: the hit is served, puts back each output as that run left it, touches nothing else, and stamps as the run did. |
| `HitsServed.DroppedIsNotServed` | src/cache.rs:961-965 | Once dropped, a result is not served until another is stored at its place; the lookup touches nothing and leaves the key as the stamp. |
| `HitsServed.DropTakesExactly` | src/cache.rs:961-965 | Dropping takes out the record, if it gets that far, and the archived files it says, and nothing else, until something is stored or dropped there. |
| `HitsServed.StampIsItsNewestRun` | src/engine.rs:785-966 | After any history, the stamp of a task is what its newest run or lookup came to: its key if that failed, left nothing or was no hit, and otherwise the digest of the outputs it left or that its record promised. |
| `ReplayLimits.UnarchivedHitStampsTheRecord` | src/engine.rs:808-846 | A hit on an unarchived record is served when paths exist, and its stamp is right exactly if the files still hash to the record. |
| `Replay.UnarchivedHitRightExactly` | src/engine.rs:808-846 | After any history, under a digest that tells contents apart, the stamp of an unarchived hit is that of what is on disk if and only if every recorded output is as the recording run left it; nothing on disk changes. |
| `ReplayLimits.UnarchivedHitCanLie` | src/engine.rs:715-717 | A concrete history in which such a hit stamps content that is not on disk. |
| `ReplayLimits.LostRecordPairsWithAnotherArchive` | src/engine.rs:951-966 | A concrete history in which a store that fails leaves an old record over a new archive. |
| `Stamps.ReadEarly` | src/engine.rs:837-966 | In every session, the stamp that a task reads for its key of a task shown as done differs from the one that task's run comes to rest on if and only if the run is a keyed build between publishing Done and stamping its outputs, and it has some. |
| `EarlyReads.CanReadEarly` | src/engine.rs:939-956 | For every key and every output hash, a session built step by step from the start in which a dependent woken by Done makes its key from the stamp about to be replaced. |
| `EarlyReads.EarlyExactly` | src/engine.rs:837-956 | Of all the ways a run can go, exactly the keyed builds that leave outputs can be read early: never a hit, which stamps before it shows Done, nor a run that produced nothing. |
| `LifeHistory.History.Push` | src/state.rs:353-373 | A pushed entry evicts and folds the oldest when full; base plus entries stay the whole history, numbered in a row, tallied. |
| `LifeHistory.History.Project` | src/state.rs:404-412 | The projection is every fact ever recorded, applied in turn. |
| `LifeHistory.History.Recent` | src/state.rs:376-387 | The newest entries about a node, or any, oldest first. |
| `LifeHistory.AppState.Record` | src/state.rs:767-773 | Recording applies the fact to the live node and pushes it; `log_ready` and the error count start over exactly at a Running or Starting status; an unknown node changes nothing. |
| `LifeHistory.AppState.Observe` | src/engine.rs:1608-1653 | Output lines change only the half of a node the history does not hold. |
| `LifeHistory.NothingForgotten` | src/state.rs:341-412 | For every cap and every fact sequence the projection equals the live lifecycles, kept entries are the newest and consecutive, and tallied restarts are the node's. |
| `LifeHistory.NodeIsItsFacts` | src/state.rs:286-313 | Over every fact sequence: the status of a node is that of the newest status fact about it, its pid that of the newest spawn or pid fact, its start time that of the newest spawn, its reason that of the newest reason or restart, else the one it began with; its counts are the numbers of its results and restarts. |
| `LifeHistory.LiveNodesAreFacts` | src/state.rs:767-773 | The live nodes of the running state are what the facts recorded about them say, in the same sense. |
| `LifeHistory.SameGenerationMeansStayed` | src/state.rs:286-313 | A node seen ready twice has one generation exactly if its status was not written in between; then it never left that status. |
| `Logs.LogStore.Push` | src/state.rs:489-513 | `bytes` is the sum of kept text, the store fits both caps or holds one line, only a transient line is overwritten, and each process's kept lines are the end of its stream with transient lines collapsed. |
| `Logs.TrimKeepsMost` | src/state.rs:507-512 | Eviction keeps the longest end that fits. |
| `Logs.NewestStays` | src/state.rs:500-512 | The newest line is kept exactly if everything from its place on fits. |
| `Logs.NewestCanBeDropped` | src/state.rs:500-512 | A progress line that outgrows the store while overwriting is itself dropped. |
| `Calendar.FindsTheYear` | src/profile.rs:384-389 | The era arithmetic finds the year and day of year of every day of an era. |
| `Calendar.EachDayFollows` | src/profile.rs:381-394 | Every date is valid and the next day's is the calendar's next. |
| `Calendar.DatesFollowTheCalendar` | src/profile.rs:381-394 | The date of a moment in seconds is 1970-01-01 moved on once for each whole day by the Gregorian rules (month lengths of section 5.7 and leap years of appendix C of RFC 3339), and valid. |

## Left out

- Real processes, ptys, signals, job objects, port probing, HTTP: only their answers, as events.
- Integer widths: generation, version, restart and miss counts are unbounded here (u64 and u32 in the code); none wraps in a session of realistic length.
- Reasons and log lines: they are actions a machine asks for; that each status comes with its reason is not stated apart from the decision functions.
- Fairness: which ready source `select!` takes is arbitrary, so progress is stated as "an enabled step exists", not "it is taken".
- Supervisor functions are values, not objects: the executor's loop (src/engine.rs:1272-1498) is an async function whose locals interleave with other tasks, so it is modelled as steps on a value; field updates of the machines themselves are in `lifecycle_machine.dfy`.
- Progress.NoStaleRest: claimed only with no liveness probe, `reload = "restart"` and `on_change` restart or queue; under each other setting it is false, and `StaleRuns.RestfulExactly` proves these conditions exact.
- Stamps.ReadEarly: which key a run makes is arbitrary at each run, and reading upstream stamps is one step; how a key is made of them is in `fingerprint.dfy`.
- CrashLoops.RestartsBounded: cycles asked for during a startup or of a node at rest spawn without a crash and are counted apart; how many are asked for is up to the environment.
- ReloadFollower.ReadyOnlyIfAnswered: the failure clause starts after the first look (`ReloadFollower.FirstLookForgives`), and services with a liveness probe are excluded; `RebuildResults.RestsReadyExactly` has them, but says nothing of the status shown, which a failed check may change.
- ConfigGraph.DetectCycle: the other checks of `validate` (shared names, undefined dependencies, missing commands) only read one declaration each.
- Output line patterns: whether a line matches is a flag on the line; diagnostics scraping is not modelled.
- Globs.AncestorsOfAMatchAreKept: from the first `[`, `{` or backslash on, a glob's meaning is an arbitrary relation; what globset does there is not spelled out.
- PrunedWalk.PrunedWalkIsFullWalk: which entries ignore files hide is an arbitrary relation on paths, the same for both walks.
- CacheKey.KeyDecides: blake3 is taken to have no collisions among the texts compared, and places (task name made safe, first 32 digits) not to be shared by two keys.
- Fingerprints.Fingerprint: env files are given already parsed; their values enter by a digest.
- What verifying a hit does to files and records (`recheck`'s process and its verdict are in `supervisor.dfy`), the shared store with its pull and push, races between processes on one store, `diff` and `why`.
- Which entries `sweep` picks: eviction is modelled as dropping any entry at any time, as far as its deletions succeed.
- Text after a cut is decoded lossily when it is not UTF-8; lines are bytes here.
- Log scrollback, search and rendering over the stored lines.
- The zero-padded text of a date and the profile report around it.
- TUI, overlay, static server, proxy, MCP, completions, doctor, filters, control socket framing.
