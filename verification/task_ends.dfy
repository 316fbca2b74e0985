/** What a task shows once its run is over, in every session: what the run came to,
    by what the cache and the host answered, however its steps interleave with the
    rest of the session. */
module TaskEnds {
  import opened Status
  import opened Lifecycle
  import opened Supervisor
  import opened World
  import opened WorldInvariant
  import TR = TaskRuns

  /** What the answers so far say of a task's newest run: nothing yet, or what it
      is to show and report. `promised` is how long the hit being checked took. */
  datatype End = NotYet(promised: Duration) | Ends(shown: Status, code: int, cached: bool)

  const Broken := Ends(Status.Failed(1), 1, false)

  /** What the answer to a node's next step says of its run. */
  function EndAfter(e: End, n: Node, ans: Answer): End {
    if n.micro != [] then
      match n.micro[0]
      case JobSpawn => if ans.Refused? then Broken else e
      case JobWait => if ans.JobEnds? then Ends(ans.shown, ans.code, false) else e
      case CheckSpawn(_, _) => if ans.Refused? then Broken else e
      case CheckWait(_, _) =>
        if e.NotYet? && ans == CheckEnds(true) then Ends(Status.Done(true, e.promised), 0, true) else Broken
      case _ => e
    else if n.acts != [] && n.acts[0].RunJob? && ans.JobGoes? then
      match ans.plan
      case CannotStart => Broken
      case Hit(d, _) => Ends(Status.Done(true, d), 0, true)
      case Verify(d, _) => NotYet(d)
      case Build(_) => NotYet(0)
    else e
  }

  /** The status the steps left will leave. */
  function Newest(status: Status, job: seq<Micro>): Status
    decreases job
  {
    if job == [] then status else Newest(if job[0].Publish? then job[0].status else status, job[1..])
  }

  /** The steps left lead where the answers say. */
  predicate Leads(status: Status, job: seq<Micro>, e: End) {
    && job != []
    && var l := job[|job| - 1];
       match e
       case Ends(shown, code, cached) => l == JobReply(code, cached) && Newest(status, job) == shown
       case NotYet(d) =>
         || l.JobSpawn? || l.JobWait?
         || (l.CheckSpawn? && l.duration == d) || (l.CheckWait? && l.duration == d)
  }

  predicate EndInv(n: Node, e: End) {
    n.machine.Tsk? && !n.exited ==>
      match n.machine.task.phase
      case TaskRunning =>
        if n.taken.Some? then n.taken.value.JobDone? ==> e == Ends(n.status, n.taken.value.code, n.taken.value.cached)
        else if TR.Only(n.queue) then n.queue[0].JobDone? ==> e == Ends(n.status, n.queue[0].code, n.queue[0].cached)
        else n.acts == [] ==> Leads(n.status, TR.PastBump(n.micro), e)
      case TaskParked => e.Ends? && n.status == e.shown
      case _ => true
  }

  lemma TakeKeeps(n: Node, src: Source, version: nat, hasDeps: bool, now: Instant, e: End)
    requires TR.TskInv(n) && EndInv(n, e) && CanTake(n, src, version, hasDeps, now)
    ensures EndInv(Take(n, src, version), e) && Take(n, src, version).machine == n.machine
  {
  }

  lemma DecideKeeps(n: Node, deps: Deps, now: Instant, e: End)
    requires TR.TskInv(n) && EndInv(n, e) && n.taken.Some?
    ensures EndInv(Decide(n, deps, now), e) && Decide(n, deps, now).machine.Tsk?
  {
  }

  lemma NewestStep(status: Status, step: Micro, rest: seq<Micro>)
    ensures Newest(status, [step] + rest) == Newest(if step.Publish? then step.status else status, rest)
    ensures Newest(status, []) == status
  {
    assert ([step] + rest)[1..] == rest;
  }

  /** The last status published is the one left. */
  lemma {:induction false} LastPublished(status: Status, job: seq<Micro>, i: nat)
    requires i < |job| && job[i].Publish? && forall k | i < k < |job| :: !job[k].Publish?
    ensures Newest(status, job) == job[i].status
    decreases |job|
  {
    if i > 0 {
      LastPublished(if job[0].Publish? then job[0].status else status, job[1..], i - 1);
    } else {
      NonePublished(job[0].status, job[1..]);
    }
  }

  lemma {:induction false} NonePublished(status: Status, job: seq<Micro>)
    requires forall k | 0 <= k < |job| :: !job[k].Publish?
    ensures Newest(status, job) == status
    decreases |job|
  {
    if job != [] { NonePublished(status, job[1..]); }
  }

  /** The second half of a status write changes nothing of a run. */
  lemma BumpKeeps(n: Node, ans: Answer, free: nat, e: End)
    requires TR.TskInv(n) && EndInv(n, e) && CanRun(n, ans, free) && n.micro != [] && n.micro[0].Bump?
    ensures EndInv(RunStep(n, ans, free).node, EndAfter(e, n, ans))
  {
    var rest := n.micro[1..];
    assert rest != [] ==> !rest[0].Bump?;
    hide Leads, TR.JobFits;
  }

  /** A step that only leaves the list. */
  lemma PlainMoves(n: Node, ans: Answer, free: nat)
    requires n.micro != [] && Answers(n, ans, free) && !n.micro[0].Bump? && !TR.Grows(n.micro[0])
    requires n.micro[1..] != [] ==> !n.micro[1].Bump?
    requires n.queue == [] && !n.micro[0].WaitSlot?
    ensures var step, m := n.micro[0], RunMicro(n, ans, free).node;
            if step.JobReply? then m.queue == [JobDone(step.code, step.cached)] && m.status == n.status
            else
              && m.queue == [] && m.status == (if step.Publish? then step.status else n.status)
              && (n.micro[1..] != [] ==> TR.PastBump(m.micro) == n.micro[1..])
  {
    assert ([Bump] + n.micro[1..])[1..] == n.micro[1..];
  }

  lemma LeadsOn(status: Status, step: Micro, rest: seq<Micro>, e: End)
    requires Leads(status, [step] + rest, e)
    ensures if rest != [] then Leads(if step.Publish? then step.status else status, rest, e)
            else step.JobReply? ==> e == Ends(status, step.code, step.cached)
  {
    NewestStep(status, step, rest);
    hide Newest;
  }

  /** It brings the end nearer. */
  lemma PlainLeads(n: Node, ans: Answer, free: nat, e: End)
    requires n.micro != [] && Answers(n, ans, free) && !n.micro[0].Bump?
    requires n.queue == [] && TR.JobFits(n.micro, n.slot, n.child) && !TR.Grows(n.micro[0])
    requires Leads(n.status, n.micro, e)
    ensures var m := RunMicro(n, ans, free).node;
            if TR.Only(m.queue) then m.queue[0].JobDone? && e == Ends(m.status, m.queue[0].code, m.queue[0].cached)
            else Leads(m.status, TR.PastBump(m.micro), e)
  {
    TR.RestFits(n.micro, n.slot, n.child);
    NoWaitSlot(n);
    hide TR.JobFits, Leads, RunMicro, Answers, TR.PastBump;
    PlainMoves(n, ans, free);
    assert n.micro == [n.micro[0]] + n.micro[1..];
    LeadsOn(n.status, n.micro[0], n.micro[1..], e);
  }

  lemma NoWaitSlot(n: Node)
    requires n.micro != [] && TR.JobFits(n.micro, n.slot, n.child)
    ensures !n.micro[0].WaitSlot?
  {
  }

  lemma PlainKeeps(n: Node, ans: Answer, free: nat, e: End)
    requires TR.TskInv(n) && EndInv(n, e) && CanRun(n, ans, free) && n.micro != [] && !n.micro[0].Bump?
    requires !TR.Grows(n.micro[0])
    ensures EndInv(RunStep(n, ans, free).node, EndAfter(e, n, ans))
  {
    assert n.machine.task.phase.TaskRunning? && n.queue == [] && n.acts == [];
    PlainLeads(n, ans, free, e);
    hide TR.JobFits, Leads, RunMicro;
  }

  /** So does one that puts others in its place. */
  lemma GrowingLeads(n: Node, ans: Answer, free: nat, e: End)
    requires n.micro != [] && Answers(n, ans, free) && TR.Grows(n.micro[0])
    requires n.queue == [] && TR.JobFits(n.micro, n.slot, n.child)
    requires Leads(n.status, n.micro, e)
    ensures var m := RunMicro(n, ans, free).node;
            m.queue == [] && Leads(m.status, TR.PastBump(m.micro), EndAfter(e, n, ans))
  {
    AloneOrSlot(n);
    hide TR.JobFits;
    if n.micro[0].JobSlot? {
      SlotLeads(n, ans, free, e);
    } else if n.micro[0].JobSpawn? || n.micro[0].CheckSpawn? {
      SpawnLeads(n, ans, free, e);
    } else {
      WaitLeads(n, ans, free, e);
    }
    hide RunMicro, Leads, EndAfter, TR.PastBump, Answers;
  }

  lemma AloneOrSlot(n: Node)
    requires n.micro != [] && TR.JobFits(n.micro, n.slot, n.child) && TR.Grows(n.micro[0])
    ensures if n.micro[0].JobSlot? then |n.micro| == 3 && n.micro[2].JobSpawn? && !n.micro[1].Bump? else |n.micro| == 1
  {
  }

  lemma SlotLeads(n: Node, ans: Answer, free: nat, e: End)
    requires |n.micro| == 3 && n.micro[0].JobSlot? && n.micro[2].JobSpawn? && !n.micro[1].Bump? && n.queue == []
    requires Answers(n, ans, free) && Leads(n.status, n.micro, e)
    ensures var m := RunMicro(n, ans, free).node;
            m.queue == [] && Leads(m.status, TR.PastBump(m.micro), EndAfter(e, n, ans))
  {
    SlotSteps(n, ans, free);
    hide Newest, RunMicro, TR.PastBump, Answers;
    var rest := n.micro[1..];
    assert rest[1] == n.micro[2] && ([WaitJobSlot] + rest)[2] == n.micro[2];
  }

  lemma SlotSteps(n: Node, ans: Answer, free: nat)
    requires |n.micro| == 3 && n.micro[0].JobSlot? && !n.micro[1].Bump? && n.queue == []
    requires Answers(n, ans, free)
    ensures var m := RunMicro(n, ans, free).node;
            && m.queue == []
            && TR.PastBump(m.micro) == if free > 0 then n.micro[1..] else [WaitJobSlot] + n.micro[1..]
  {
    if free == 0 {
      var waits := [WaitJobSlot] + n.micro[1..];
      assert RunMicro(n, ans, free).node == Write(n, Status.Queued, waits);
      assert ([Bump] + waits)[1..] == waits;
      hide RunMicro;
    }
  }

  lemma SpawnLeads(n: Node, ans: Answer, free: nat, e: End)
    requires |n.micro| == 1 && (n.micro[0].JobSpawn? || n.micro[0].CheckSpawn?) && n.queue == []
    requires Answers(n, ans, free) && Leads(n.status, n.micro, e)
    ensures var m := RunMicro(n, ans, free).node;
            m.queue == [] && Leads(m.status, TR.PastBump(m.micro), EndAfter(e, n, ans))
  {
    hide Newest;
    var m := RunMicro(n, ans, free).node;
    if ans.Refused? { LastPublished(m.status, m.micro, if n.micro[0].JobSpawn? then 1 else 0); }
  }

  lemma WaitLeads(n: Node, ans: Answer, free: nat, e: End)
    requires |n.micro| == 1 && (n.micro[0].JobWait? || n.micro[0].CheckWait?) && n.queue == []
    requires Answers(n, ans, free) && Leads(n.status, n.micro, e)
    ensures var m := RunMicro(n, ans, free).node;
            m.queue == [] && Leads(m.status, TR.PastBump(m.micro), EndAfter(e, n, ans))
  {
    hide Newest;
    var m := RunMicro(n, ans, free).node;
    LastPublished(m.status, m.micro, if n.micro[0].CheckWait? && ans.held then 1 else 0);
  }

  lemma GrowingKeeps(n: Node, ans: Answer, free: nat, e: End)
    requires TR.TskInv(n) && EndInv(n, e) && CanRun(n, ans, free) && n.micro != [] && !n.micro[0].Bump?
    requires TR.Grows(n.micro[0])
    ensures EndInv(RunStep(n, ans, free).node, EndAfter(e, n, ans))
  {
    assert n.machine.task.phase.TaskRunning? && n.queue == [] && n.acts == [];
    GrowingLeads(n, ans, free, e);
    hide TR.JobFits, Leads, RunMicro;
  }

  /** A run begins. */
  lemma JobLeads(n: Node, ans: Answer, free: nat, e: End)
    requires ans.JobGoes?
    ensures var f := match ans.plan {
                       case CannotStart => Broken
                       case Hit(d, _) => Ends(Status.Done(true, d), 0, true)
                       case Verify(d, _) => NotYet(d)
                       case Build(_) => NotYet(0)
                     };
            var job := JobSteps(ans.plan);
            job != [] && !job[0].Bump? && Leads(n.status, job, f)
  {
    hide Newest;
    if ans.plan.CannotStart? { LastPublished(n.status, JobSteps(ans.plan), 0); }
    if ans.plan.Hit? { LastPublished(n.status, JobSteps(ans.plan), 3); }
  }

  lemma ActionKeeps(n: Node, ans: Answer, free: nat, e: End)
    requires TR.TskInv(n) && EndInv(n, e) && CanRun(n, ans, free) && n.micro == []
    ensures EndInv(RunStep(n, ans, free).node, EndAfter(e, n, ans))
  {
    assert n.acts[0] in n.acts;
    if n.acts[0].RunJob? { JobLeads(n, ans, free, e); }
    hide TR.JobFits, Leads, JobSteps;
  }

  // ------------------------------------------------------------------
  // Over every session

  /** A session, and what the newest run of one task is known to come to. */
  datatype Run = Run(w: World, end: End)

  function Go(plan: Plan, name: Name, r: Run, mv: Move): Run
    requires Enabled(plan, r.w, mv)
  {
    Run(Next(plan, r.w, mv),
        if mv.DoNext? && mv.node == name then EndAfter(r.end, r.w.nodes[name], mv.ans) else r.end)
  }

  function Goes(plan: Plan, name: Name, r: Run, moves: seq<Move>): Run
    requires Legal(plan, r.w, moves)
    decreases |moves|
  {
    if moves == [] then r else Goes(plan, name, Go(plan, name, r, moves[0]), moves[1..])
  }

  predicate RunInv(plan: Plan, name: Name, r: Run) {
    && Inv(plan, r.w) && name in r.w.nodes && r.w.nodes[name].machine.Tsk?
    && EndInv(r.w.nodes[name], r.end) && EndFits(r.end)
  }

  /** A run that ends well shows a result, and only such a run. */
  predicate EndFits(e: End) {
    e.Ends? ==> (e.code == 0 <==> e.shown.Done?) && (e.shown.Done? ==> e.shown.cached == e.cached)
  }

  lemma EndsFit(e: End, n: Node, ans: Answer, free: nat)
    requires EndFits(e) && CanRun(n, ans, free)
    ensures EndFits(EndAfter(e, n, ans))
  {
  }

  lemma SendKeeps(n: Node, why: string, e: End)
    requires EndInv(n, e)
    ensures EndInv(QueueStop(n), e) && EndInv(AnnounceStop(n), e)
    ensures EndInv(QueueRestart(n, why), e) && EndInv(DropSenders(n), e)
    ensures QueueStop(n).machine == AnnounceStop(n).machine == QueueRestart(n, why).machine == DropSenders(n).machine == n.machine
  {
    hide Leads, TR.PastBump;
  }

  lemma StepKeeps(n: Node, ans: Answer, free: nat, e: End)
    requires TR.TskInv(n) && EndInv(n, e) && EndFits(e) && CanRun(n, ans, free)
    ensures EndInv(RunStep(n, ans, free).node, EndAfter(e, n, ans)) && EndFits(EndAfter(e, n, ans))
  {
    EndsFit(e, n, ans, free);
    hide TR.TskInv, EndInv, EndFits, RunStep, EndAfter;
    if n.micro == [] {
      ActionKeeps(n, ans, free, e);
    } else if n.micro[0].Bump? {
      BumpKeeps(n, ans, free, e);
    } else if TR.Grows(n.micro[0]) {
      GrowingKeeps(n, ans, free, e);
    } else {
      PlainKeeps(n, ans, free, e);
    }
  }

  lemma GoKeeps(plan: Plan, name: Name, r: Run, mv: Move)
    requires RunInv(plan, name, r) && Enabled(plan, r.w, mv)
    ensures RunInv(plan, name, Go(plan, name, r, mv))
  {
    hide EndInv, EndFits, EndAfter, Take, Decide, RunStep, CanTake, CanRun, DepView, Inv, QueueStop, AnnounceStop, QueueRestart, DropSenders;
    var n := r.w.nodes[name];
    NextKeeps(plan, r.w, mv);
    LocalAt(plan, r.w, name);
    TickOf(n, plan.deps[name], r.w.version);
    SendKeeps(n, if mv.RestartOf? then mv.why else "", r.end);
    TaskOfInv(n);
    match mv
    case TakeEvent(node, src) =>
      if node == name { TakeKeeps(n, src, r.w.version, plan.deps[name] != [], r.w.clock, r.end); }
    case DecideOn(node) =>
      if node == name { DecideKeeps(n, DepView(r.w, plan.deps[name]), r.w.clock, r.end); }
    case DoNext(node, ans) =>
      if node == name { StepKeeps(n, ans, r.w.free, r.end); }
    case _ =>
  }

  lemma TaskOfInv(n: Node)
    requires MachineInv(n) && n.machine.Tsk?
    ensures TR.TskInv(n)
  {
  }

  lemma {:induction false} RunsKeep(plan: Plan, name: Name, r: Run, moves: seq<Move>)
    requires RunInv(plan, name, r) && Legal(plan, r.w, moves)
    ensures RunInv(plan, name, Goes(plan, name, r, moves))
    ensures Goes(plan, name, r, moves).w == EndOf(plan, r.w, moves)
    decreases |moves|
  {
    hide RunInv, EndAfter, Next, Enabled;
    if moves != [] {
      GoKeeps(plan, name, r, moves[0]);
      RunsKeep(plan, name, Go(plan, name, r, moves[0]), moves[1..]);
    }
  }

  function NewRun(plan: Plan, machines: map<Name, Machine>): Run
    requires machines.Keys == plan.deps.Keys
  {
    Run(Start(plan, machines), NotYet(0))
  }

  lemma NewRunKeeps(plan: Plan, machines: map<Name, Machine>, name: Name)
    requires machines.Keys == plan.deps.Keys && plan.Closed()
    requires forall n <- machines :: Initial(machines[n])
    requires name in machines && machines[name].Tsk?
    ensures RunInv(plan, name, NewRun(plan, machines))
  {
    StartKeeps(plan, machines);
    hide Inv, Leads, TR.PastBump;
  }

  /** In every session: what a task is told its run came to is what the answers of
      the cache and the host said, and what it shows is that and nothing else, from
      then on and for as long as it is parked; it shows a result exactly if the run
      ended with code 0, and one marked cached exactly if it was served. */
  lemma ShowsWhatItsRunCameTo(plan: Plan, machines: map<Name, Machine>, moves: seq<Move>, name: Name)
    requires machines.Keys == plan.deps.Keys && plan.Closed()
    requires forall n <- machines :: Initial(machines[n])
    requires Legal(plan, Start(plan, machines), moves)
    requires name in machines && machines[name].Tsk?
    ensures var r := Goes(plan, name, NewRun(plan, machines), moves);
            && r.w == EndOf(plan, Start(plan, machines), moves)
            && name in r.w.nodes && r.w.nodes[name].machine.Tsk? && EndFits(r.end)
            && var n := r.w.nodes[name];
               var p := n.machine.task.phase;
               && (p.TaskParked? ==> r.end.Ends? && n.status == r.end.shown)
               && (p.TaskRunning? && n.taken.Some? && n.taken.value.JobDone? ==>
                     r.end == Ends(n.status, n.taken.value.code, n.taken.value.cached))
  {
    NewRunKeeps(plan, machines, name);
    hide Inv, Leads, TR.PastBump, Next, Enabled, Goes, Legal, EndOf;
    RunsKeep(plan, name, NewRun(plan, machines), moves);
    var r := Goes(plan, name, NewRun(plan, machines), moves);
    LocalAt(plan, r.w, name);
    TickOf(r.w.nodes[name], plan.deps[name], r.w.version);
    TaskOfInv(r.w.nodes[name]);
    GoneIsFinished(r.w.nodes[name]);
    hide TR.TskInv, TR.StopInv;
  }

  lemma GoneIsFinished(n: Node)
    requires TR.TskInv(n)
    ensures n.exited ==> n.machine.task.phase.TaskFinished?
  {
  }
}
