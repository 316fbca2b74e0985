/** The same for a task's supervisor: a run is one action made of several steps,
    and holds its slot and its child only inside it. */
module TaskRuns {
  import opened Status
  import opened Lifecycle
  import opened Supervisor

  /** Where a run in progress can be, with what it holds there. */
  predicate JobFits(job: seq<Micro>, slot: bool, child: bool) {
    match |job|
    case 1 =>
      || (job[0].JobSpawn? && slot && !child)
      || (job[0].JobWait? && slot && child)
      || (job[0].CheckSpawn? && !slot && !child)
      || (job[0].CheckWait? && !slot && child)
      || (job[0].JobReply? && !slot && !child)
    case 2 =>
      || (job[0].SeedStamp? && job[1].CheckSpawn? && !slot && !child)
      || (job[0] == Publish(Status.Running) && job[1].JobSpawn? && slot && !child)
      || (job[0].Publish? && job[1].JobReply? && !slot && !child)
      || (job[0].FreeSlot? && job[1].JobReply? && slot && !child)
    case 3 =>
      || (job[0].ReadStamps? && job[1].SeedStamp? && job[2].CheckSpawn? && !slot && !child)
      || ((job[0].JobSlot? || job[0].WaitJobSlot?) && job[1] == Publish(Status.Running) && job[2].JobSpawn?
          && !slot && !child)
      || (job[0].Publish? && job[1].FreeSlot? && job[2].JobReply? && slot && !child)
      || (job[0].FreeSlot? && job[1].Publish? && job[2].JobReply? && slot && !child)
      || (job[0].StampOutput? && job[1].FreeSlot? && job[2].JobReply? && slot && !child)
      || (job[0].StampOutput? && job[1].Publish? && job[2].JobReply? && !slot && !child)
    case 4 =>
      || (job[0].Publish? && job[1].StampOutput? && job[2].FreeSlot? && job[3].JobReply? && slot && !child)
      || (job[0].SeedStamp? && job[1].StampOutput? && job[2].Publish? && job[3].JobReply? && !slot && !child)
      || (job[0].SeedStamp? && job[1].JobSlot? && job[2] == Publish(Status.Running) && job[3].JobSpawn?
          && !slot && !child)
    case 5 =>
      && job[0].ReadStamps? && job[1].SeedStamp? && !slot && !child
      && (|| (job[2].StampOutput? && job[3].Publish? && job[4].JobReply?)
          || (job[2].JobSlot? && job[3] == Publish(Status.Running) && job[4].JobSpawn?))
    case _ => false
  }

  /** The run left, past the second half of a status write. */
  function PastBump(micro: seq<Micro>): seq<Micro> {
    if micro != [] && micro[0].Bump? then micro[1..] else micro
  }

  predicate JustBump(micro: seq<Micro>) {
    micro == [] || (|micro| == 1 && micro[0].Bump?)
  }

  predicate Only(queue: seq<Event>) {
    |queue| == 1
  }

  /** What a task's phase leaves to be done or answered. */
  predicate TaskFits(t: Task, n: Node) {
    match t.phase
    case TaskAtGate(WaitingOnDeps) =>
      && !n.slot && !n.child && JustBump(n.micro)
      && (if Only(n.queue) then n.queue[0].Begin? && n.acts == [] else n.queue == [])
      && (forall a <- n.acts :: a.SetReason? || (a.SetStatus? && a.status.Waiting?))
    case TaskAtGate(Draining) =>
      && !n.slot && !n.child && n.micro == []
      && if Only(n.queue) then n.queue[0].Drained? && n.acts == []
         else n.queue == [] && n.acts != [] && n.acts[|n.acts|-1].DrainControl?
              && forall i | 0 <= i < |n.acts| - 1 :: n.acts[i].SetReason?
    case TaskRunning =>
      if Only(n.queue) then n.queue[0].JobDone? && n.acts == [] && n.micro == [] && !n.slot && !n.child
      else
        && n.queue == []
        && if n.acts == [] then JobFits(PastBump(n.micro), n.slot, n.child)
           else
             && !n.slot && !n.child && JustBump(n.micro)
             && (|| n.acts == [SetStatus(Status.Running), RunJob]
                 || n.acts == [RunJob])
    case TaskParked =>
      && !n.slot && !n.child && n.micro == [] && n.queue == []
      && forall a <- n.acts :: a.ReloadBrowser?
    case TaskFinished =>
      && !n.slot && !n.child && JustBump(n.micro) && n.queue == []
      && (n.acts == [SetStatus(Status.Stopped), Exit] || n.acts == [Exit])
  }

  /** What a task at rest may be told next. */
  predicate TaskTold(t: Task, ev: Event) {
    match t.phase
    case TaskAtGate(WaitingOnDeps) => ev.Begin? || ev.Board? || ev.Restart? || ev.Stop?
    case TaskAtGate(Draining) => ev.Drained?
    case TaskRunning => ev.JobDone?
    case TaskParked => ev.Board? || ev.Restart? || ev.Stop?
    case TaskFinished => false
  }

  predicate TskInv(n: Node) {
    && n.machine.Tsk?
    && n.inbox.Valid()
    && (n.inbox.listening <==> !n.exited)
    && n.timers == map[]
    && n.exits == (if n.exited then 1 else 0)
    && var t := n.machine.task;
       if n.exited then
         && t.phase.TaskFinished? && n.taken.None? && n.acts == [] && n.micro == [] && n.queue == []
         && !n.slot && !n.child
       else if n.taken.Some? then
         && n.micro == [] && n.acts == [] && n.queue == [] && !n.slot && !n.child
         && TaskTold(t, n.taken.value)
       else TaskFits(t, n)
  }

  lemma NewKeeps(view: Deps)
    ensures TskInv(NewNode(Tsk(NewTask()), view))
  {
  }

  lemma TakeKeeps(n: Node, src: Source, version: nat, hasDeps: bool, now: Instant)
    requires TskInv(n) && CanTake(n, src, version, hasDeps, now)
    ensures TskInv(Take(n, src, version))
  {
    if src.UrgentMessage? { assert n.inbox.urgent[0] in n.inbox.urgent; }
    if src.NormalMessage? { assert n.inbox.normal[0] in n.inbox.normal; }
  }

  lemma DecideKeeps(n: Node, deps: Deps, now: Instant)
    requires TskInv(n) && n.taken.Some?
    ensures TskInv(Decide(n, deps, now))
  {
    var t, ev := n.machine.task, n.taken.value;
    var turn := TaskOn(t, ev, deps);
    var m := Decide(n, deps, now);
    match t.phase
    case TaskAtGate(_) =>
    case TaskRunning =>
    case TaskParked =>
      if WakeReason(t.seen, ev, deps).Some? && !ev.Stop? {
        var rest := TaskStepGate(t, WaitingOnDeps, Board, deps);
        assert turn.out == [SetReason(WakeReason(t.seen, ev, deps).value)] + rest.out;
      }
    case TaskFinished =>
  }

  lemma RunMicroKeeps(n: Node, ans: Answer, free: nat)
    requires TskInv(n) && CanRun(n, ans, free) && n.micro != []
    ensures TskInv(RunStep(n, ans, free).node)
  {
    var m := RunStep(n, ans, free).node;
    assert m.acts == n.acts;
    if n.micro[0].Bump? {
      assert PastBump(m.micro) == PastBump(n.micro);
    } else {
      assert n.machine.task.phase.TaskRunning?;
      JobStepFits(n, ans, free);
    }
  }

  predicate Grows(step: Micro) {
    step.JobSlot? || step.JobSpawn? || step.JobWait? || step.CheckSpawn? || step.CheckWait?
  }

  /** The steps after one that only leaves the list. */
  lemma RestFits(job: seq<Micro>, slot: bool, child: bool)
    requires JobFits(job, slot, child) && !Grows(job[0])
    ensures job[0].JobReply? ==> job[1..] == [] && !slot && !child
    ensures !job[0].JobReply? ==>
      && job[1..] != [] && !job[1].Bump?
      && JobFits(job[1..], if job[0].FreeSlot? then false else if job[0].WaitJobSlot? then true else slot, child)
  {
  }

  lemma PlainStepFits(n: Node, ans: Answer, free: nat)
    requires n.micro != [] && Answers(n, ans, free) && !n.micro[0].Bump?
    requires n.queue == [] && JobFits(n.micro, n.slot, n.child) && !Grows(n.micro[0])
    ensures var m := RunMicro(n, ans, free).node;
            if Only(m.queue) then m.queue[0].JobDone? && m.micro == [] && !m.slot && !m.child
            else m.queue == [] && JobFits(PastBump(m.micro), m.slot, m.child)
  {
    RestFits(n.micro, n.slot, n.child);
    assert !n.micro[0].WaitSlot?;
    hide JobFits;
    assert ([Bump] + n.micro[1..])[1..] == n.micro[1..];
  }

  /** A step that puts others in its place. */
  lemma GrowingStepFits(n: Node, ans: Answer, free: nat)
    requires n.micro != [] && Answers(n, ans, free)
    requires n.queue == [] && JobFits(n.micro, n.slot, n.child)
    requires Grows(n.micro[0])
    ensures var m := RunMicro(n, ans, free).node;
            m.queue == [] && JobFits(PastBump(m.micro), m.slot, m.child)
  {
  }

  lemma JobStepFits(n: Node, ans: Answer, free: nat)
    requires n.micro != [] && Answers(n, ans, free) && !n.micro[0].Bump?
    requires n.queue == [] && JobFits(n.micro, n.slot, n.child)
    ensures var m := RunMicro(n, ans, free).node;
            if Only(m.queue) then m.queue[0].JobDone? && m.micro == [] && !m.slot && !m.child
            else m.queue == [] && JobFits(PastBump(m.micro), m.slot, m.child)
  {
    hide RunMicro, JobFits, Answers, PastBump;
    if Grows(n.micro[0]) {
      GrowingStepFits(n, ans, free);
    } else {
      PlainStepFits(n, ans, free);
    }
  }

  lemma RunStatusKeeps(n: Node, ans: Answer, free: nat)
    requires TskInv(n) && CanRun(n, ans, free) && n.micro == [] && n.acts[0].SetStatus?
    ensures TskInv(RunStep(n, ans, free).node)
  {
    assert n.acts[0] in n.acts;
    var m := RunStep(n, ans, free).node;
    assert m == Write(n.(acts := n.acts[1..]), n.acts[0].status, []);
    assert n.acts == [n.acts[0]] + n.acts[1..];
  }

  lemma RunRequestKeeps(n: Node, ans: Answer, free: nat)
    requires TskInv(n) && CanRun(n, ans, free) && n.micro == []
    requires n.acts[0].DrainControl? || n.acts[0].RunJob?
    ensures TskInv(RunStep(n, ans, free).node)
  {
    assert n.acts[0] in n.acts;
    var t := n.machine.task;
    assert t.phase.TaskAtGate? ==> |n.acts| == 1;
    assert t.phase.TaskRunning? ==> |n.acts| == 1;
  }

  lemma RunQuietKeeps(n: Node, ans: Answer, free: nat)
    requires TskInv(n) && CanRun(n, ans, free) && n.micro == []
    requires n.acts[0].SetReason? || n.acts[0].ReloadBrowser? || n.acts[0].Exit?
    ensures TskInv(RunStep(n, ans, free).node)
  {
    var m := RunStep(n, ans, free).node;
    assert n.acts[0].Exit? || m == n.(acts := n.acts[1..]);
  }

  lemma RunActionKeeps(n: Node, ans: Answer, free: nat)
    requires TskInv(n) && CanRun(n, ans, free) && n.micro == []
    ensures TskInv(RunStep(n, ans, free).node)
  {
    hide TskInv, RunStep;
    OnlyKnownActions(n);
    match n.acts[0]
    case SetStatus(_) => RunStatusKeeps(n, ans, free);
    case DrainControl => RunRequestKeeps(n, ans, free);
    case RunJob => RunRequestKeeps(n, ans, free);
    case _ => RunQuietKeeps(n, ans, free);
  }

  /** A task asks for nothing the executor would find unreachable. */
  lemma OnlyKnownActions(n: Node)
    requires TskInv(n) && !n.exited && n.taken.None?
    ensures forall a <- n.acts ::
              a.SetStatus? || a.SetReason? || a.DrainControl? || a.RunJob? || a.ReloadBrowser? || a.Exit?
  {
  }

  lemma RunKeeps(n: Node, ans: Answer, free: nat)
    requires TskInv(n) && CanRun(n, ans, free)
    ensures TskInv(RunStep(n, ans, free).node)
  {
    hide TskInv, RunStep;
    if n.micro != [] { RunMicroKeeps(n, ans, free); } else { RunActionKeeps(n, ans, free); }
  }

  lemma SendKeeps(n: Node, why: string)
    requires TskInv(n)
    ensures TskInv(QueueStop(n)) && TskInv(AnnounceStop(n)) && TskInv(QueueRestart(n, why)) && TskInv(DropSenders(n))
  {
    hide TskInv;
    StopSendKeeps(n);
    RestartSendKeeps(n, why);
  }

  lemma StopSendKeeps(n: Node)
    requires TskInv(n)
    ensures TskInv(QueueStop(n)) && TskInv(AnnounceStop(n))
  {
  }

  lemma RestartSendKeeps(n: Node, why: string)
    requires TskInv(n)
    ensures TskInv(QueueRestart(n, why)) && TskInv(DropSenders(n))
  {
  }

  // ------------------------------------------------------------------
  // What it means

  /** Between runs a task holds nothing. Inside one it has a child with its slot, or
      one by which a hit is checked, and then no slot. */
  lemma HoldsOnlyInRun(n: Node)
    requires TskInv(n)
    ensures n.slot || n.child ==> n.machine.task.phase.TaskRunning? && n.taken.None? && n.queue == []
    ensures n.child ==>
      && PastBump(n.micro) != []
      && (if n.slot then PastBump(n.micro)[0].JobWait? else PastBump(n.micro)[0].CheckWait?)
    ensures n.exits <= 1
  {
  }

  predicate Heading(n: Node)
    requires n.machine.Tsk?
  {
    || n.exited
    || n.machine.task.phase.TaskFinished?
    || n.taken == Some(Event.Stop) || n.taken == Some(Drained(true))
    || (Only(n.queue) && n.queue[0] == Drained(true))
  }

  /** Past the check for a stop, and the run not yet begun. */
  predicate MayRun(n: Node)
    requires n.machine.Tsk?
  {
    && !n.exited
    && (|| RunJob in n.acts
        || n.taken == Some(Drained(false))
        || (Only(n.queue) && n.queue[0] == Drained(false)))
  }

  /** As `MayRun`, or in a run that has not started its process yet. */
  predicate MayStart(n: Node)
    requires n.machine.Tsk?
  {
    MayRun(n) || (!n.exited && ToSpawn(n.micro))
  }

  predicate ToSpawn(job: seq<Micro>) {
    exists step :: step in job && Spawns(step)
  }

  predicate Spawns(step: Micro) {
    step.JobSpawn? || step.CheckSpawn?
  }

  /** A stop stays queued until it is acted on, and lets at most one run begin
      and at most one process start. */
  predicate StopInv(n: Node) {
    && n.machine.Tsk?
    && (!n.stopSent ==> n.startsSinceStop == 0 && n.runsSinceStop == 0)
    && (n.stopSent ==> Heading(n) || n.inbox.urgent != [])
    && n.runsSinceStop + (if MayRun(n) then 1 else 0) <= 1
    && n.startsSinceStop + (if MayStart(n) then 1 else 0) <= 1
  }

  lemma StopSurvivesTake(n: Node, src: Source, version: nat, hasDeps: bool, now: Instant)
    requires TskInv(n) && StopInv(n) && CanTake(n, src, version, hasDeps, now)
    ensures StopInv(Take(n, src, version))
  {
    if src.UrgentMessage? { assert n.inbox.urgent[0] in n.inbox.urgent; }
  }

  lemma StopSurvivesDecide(n: Node, deps: Deps, now: Instant)
    requires TskInv(n) && StopInv(n) && n.taken.Some?
    ensures StopInv(Decide(n, deps, now))
  {
  }

  lemma StopSurvivesMicro(n: Node, ans: Answer, free: nat)
    requires TskInv(n) && StopInv(n) && CanRun(n, ans, free) && n.micro != []
    ensures StopInv(RunStep(n, ans, free).node)
  {
    hide RunStep, RunMicro;
    var m := RunStep(n, ans, free).node;
    MicroLeaves(n, ans, free);
    MicroSpawns(n, ans, free);
    assert m.exited == n.exited && m.taken == n.taken;
  }

  lemma MicroLeaves(n: Node, ans: Answer, free: nat)
    requires TskInv(n) && CanRun(n, ans, free) && n.micro != []
    ensures var m := RunStep(n, ans, free).node;
            && m.acts == n.acts && m.inbox == n.inbox && m.runsSinceStop == n.runsSinceStop
            && m.stopSent == n.stopSent && m.machine == n.machine && m.exited == n.exited && m.taken == n.taken
            && (m.queue == n.queue || (n.queue == [] && |m.queue| == 1 && m.queue[0].JobDone?))
  {
  }

  lemma MicroSpawns(n: Node, ans: Answer, free: nat)
    requires TskInv(n) && CanRun(n, ans, free) && n.micro != []
    ensures var m := RunStep(n, ans, free).node;
            if Spawns(n.micro[0]) then
              ToSpawn(n.micro) && !ToSpawn(m.micro) && m.startsSinceStop == OneMore(n, n.startsSinceStop)
            else (ToSpawn(m.micro) ==> ToSpawn(n.micro)) && m.startsSinceStop == n.startsSinceStop
  {
    assert n.micro[0] in n.micro;
    if Spawns(n.micro[0]) { SpawnIsLast(n); }
    hide TskInv, RunMicro;
    StepsAdded(n, ans, free);
    var m := RunStep(n, ans, free).node;
    if step :| step in m.micro && Spawns(step) { assert step in n.micro[1..]; }
  }

  /** No step of a run adds a process to start. */
  lemma StepsAdded(n: Node, ans: Answer, free: nat)
    requires n.micro != [] && Answers(n, ans, free)
    ensures var m := RunMicro(n, ans, free).node;
            && (forall step <- m.micro :: Spawns(step) ==> step in n.micro[1..])
            && m.startsSinceStop == if Spawns(n.micro[0]) then OneMore(n, n.startsSinceStop) else n.startsSinceStop
  {
    hide RunMicro;
    if Grows(n.micro[0]) { GrowingAdds(n, ans, free); } else { PlainAdds(n, ans, free); }
  }

  lemma GrowingAdds(n: Node, ans: Answer, free: nat)
    requires n.micro != [] && Answers(n, ans, free) && Grows(n.micro[0])
    ensures var m := RunMicro(n, ans, free).node;
            && (forall step <- m.micro :: Spawns(step) ==> step in n.micro[1..])
            && m.startsSinceStop == if Spawns(n.micro[0]) then OneMore(n, n.startsSinceStop) else n.startsSinceStop
  {
  }

  lemma PlainAdds(n: Node, ans: Answer, free: nat)
    requires n.micro != [] && Answers(n, ans, free) && !Grows(n.micro[0])
    ensures var m := RunMicro(n, ans, free).node;
            && (forall step <- m.micro :: Spawns(step) ==> step in n.micro[1..])
            && m.startsSinceStop == n.startsSinceStop
  {
  }

  lemma SpawnIsLast(n: Node)
    requires TskInv(n) && !n.exited && n.taken.None? && n.micro != [] && Spawns(n.micro[0])
    ensures n.micro[1..] == []
  {
  }

  lemma StopSurvivesAction(n: Node, ans: Answer, free: nat)
    requires TskInv(n) && StopInv(n) && CanRun(n, ans, free) && n.micro == []
    ensures StopInv(RunStep(n, ans, free).node)
  {
    OnlyKnownActions(n);
    assert n.acts[0] in n.acts;
    var m := RunStep(n, ans, free).node;
    match n.acts[0]
    case SetStatus(st) => assert m == Write(n.(acts := n.acts[1..]), st, []);
    case DrainControl => assert |n.acts| == 1;
    case RunJob => assert |n.acts| == 1 && RunJob in n.acts;
    case Exit => assert m.exited;
    case _ =>
  }

  lemma StopSurvivesRun(n: Node, ans: Answer, free: nat)
    requires TskInv(n) && StopInv(n) && CanRun(n, ans, free)
    ensures StopInv(RunStep(n, ans, free).node)
  {
    hide TskInv, StopInv, RunStep;
    if n.micro == [] { StopSurvivesAction(n, ans, free); } else { StopSurvivesMicro(n, ans, free); }
  }

  lemma StopSurvivesSend(n: Node, why: string)
    requires TskInv(n) && StopInv(n)
    ensures StopInv(QueueStop(n)) && StopInv(AnnounceStop(n)) && StopInv(QueueRestart(n, why)) && StopInv(DropSenders(n))
  {
  }
}
