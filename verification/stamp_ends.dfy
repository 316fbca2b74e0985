/** What a task's stamp is once its run is over, in every session: what the run
    produced, if it ended well and produced anything, and otherwise its key. */
module StampEnds {
  import opened Status
  import opened Lifecycle
  import opened Supervisor
  import opened World
  import opened WorldInvariant
  import opened Stamps
  import L = Stamps
  import TR = TaskRuns
  import TE = TaskEnds

  /** What a run leaves as the stamp of a task that has a key. */
  predicate LeftAs(code: int, r: JobRun, stamp: Option<string>) {
    if code == 0 && r.out.Some? then stamp == Some("out:" + r.out.value) else IsKey(stamp)
  }

  predicate Leaves(code: int, runs: seq<JobRun>, stamp: Option<string>) {
    runs != [] && (Keyed(runs) ==> LeftAs(code, runs[|runs| - 1], stamp))
  }

  /** The output still to be stamped by the steps left. */
  function Pending(job: seq<Micro>): Option<Option<string>> {
    if job == [] then None else if job[0].StampOutput? then Some(job[0].out) else Pending(job[1..])
  }

  /** The steps left lead there. */
  predicate Carries(job: seq<Micro>, runs: seq<JobRun>, stamp: Option<string>) {
    && runs != [] && job != []
    && var r, l := runs[|runs| - 1], job[|job| - 1];
       r.keyed ==>
         && (SeedStamp !in job && (!l.JobReply? || Pending(job).Some?) ==> IsKey(stamp))
         && (if l.JobReply? then
               if Pending(job).Some? then l.code == 0 && Pending(job).value == r.out else LeftAs(l.code, r, stamp)
             else if l.CheckSpawn? || l.CheckWait? then r.out == Some(l.promised)
             else r.out.None?)
  }

  predicate StampInv(n: Node, runs: seq<JobRun>, stamp: Option<string>) {
    n.machine.Tsk? && !n.exited ==>
      match n.machine.task.phase
      case TaskRunning =>
        if n.taken.Some? then n.taken.value.JobDone? ==> Leaves(n.taken.value.code, runs, stamp)
        else if TR.Only(n.queue) then n.queue[0].JobDone? ==> Leaves(n.queue[0].code, runs, stamp)
        else n.acts == [] ==> Carries(TR.PastBump(n.micro), runs, stamp)
      case TaskParked => Leaves(if n.status.Done? then 0 else 1, runs, stamp)
      case _ => true
  }

  lemma TakeKeeps(n: Node, src: Source, version: nat, hasDeps: bool, now: Instant, runs: seq<JobRun>, stamp: Option<string>)
    requires TR.TskInv(n) && StampInv(n, runs, stamp) && CanTake(n, src, version, hasDeps, now)
    ensures StampInv(Take(n, src, version), runs, stamp)
  {
    hide Leaves, Carries;
  }

  lemma DecideKeeps(n: Node, deps: Deps, now: Instant, runs: seq<JobRun>, stamp: Option<string>, e: TE.End)
    requires TR.TskInv(n) && StampInv(n, runs, stamp) && n.taken.Some?
    requires TE.EndInv(n, e) && TE.EndFits(e)
    ensures StampInv(Decide(n, deps, now), runs, stamp)
  {
    hide Carries, IsKey;
  }

  lemma PendingStep(step: Micro, rest: seq<Micro>)
    ensures Pending([step] + rest) == if step.StampOutput? then Some(step.out) else Pending(rest)
  {
    assert ([step] + rest)[1..] == rest;
  }

  /** A run that has its key and a reply has an output to stamp. */
  predicate Stamping(job: seq<Micro>) {
    job != [] && job[|job| - 1].JobReply? ==> Pending(job).Some?
  }

  /** A run stamps at most once, after its key. */
  lemma StampsOnce(n: Node)
    requires n.micro != [] && TR.JobFits(n.micro, n.slot, n.child)
    ensures n.micro[0].StampOutput? ==>
      && Pending(n.micro[1..]).None? && SeedStamp !in n.micro
      && |n.micro| > 1 && n.micro[|n.micro| - 1].JobReply?
    ensures n.micro[0].SeedStamp? ==> SeedStamp !in n.micro[1..] && Stamping(n.micro[1..])
  {
    var rest := n.micro[1..];
    if n.micro[0].SeedStamp? {
      PendingStep(rest[0], rest[1..]);
      assert rest == [rest[0]] + rest[1..];
    }
    if n.micro[0].StampOutput? {
      PendingStep(rest[0], rest[1..]);
      assert rest == [rest[0]] + rest[1..];
      PendingStep(rest[1], rest[2..]);
      assert rest[1..] == [rest[1]] + rest[2..];
      assert rest[2..] == [];
    }
  }

  /** A step that only leaves the list. */
  lemma CarriesOn(step: Micro, rest: seq<Micro>, runs: seq<JobRun>, stamp: Option<string>, key: string)
    requires Carries([step] + rest, runs, stamp)
    requires step.StampOutput? ==>
      Pending(rest).None? && SeedStamp !in [step] + rest && rest != [] && rest[|rest| - 1].JobReply?
    requires step.SeedStamp? ==> SeedStamp !in rest && Stamping(rest)
    requires rest == [] ==> step.JobReply?
    ensures var after := if step.SeedStamp? then Some(Replay.KeyStamp(key))
                         else if step.StampOutput? && step.out.Some? && Keyed(runs) then Some(Replay.StampOf(key, step.out))
                         else stamp;
            if rest == [] then Leaves(step.code, runs, after) else Carries(rest, runs, after)
  {
    PendingStep(step, rest);
    assert Pending([]).None?;
    SeedIsKey(key);
    assert SeedStamp in [step] + rest <==> step == SeedStamp || SeedStamp in rest;
    hide Pending, IsKey;
  }

  lemma PlainLeads(n: Node, ans: Answer, free: nat, runs: seq<JobRun>, stamp: Option<string>, key: string)
    requires n.micro != [] && Answers(n, ans, free) && !n.micro[0].Bump?
    requires n.queue == [] && TR.JobFits(n.micro, n.slot, n.child) && !TR.Grows(n.micro[0])
    requires Carries(n.micro, runs, stamp)
    ensures var m := RunMicro(n, ans, free).node;
            var after := NextStamp(n, runs, stamp, key);
            if TR.Only(m.queue) then m.queue[0].JobDone? && Leaves(m.queue[0].code, runs, after)
            else Carries(TR.PastBump(m.micro), runs, after)
  {
    TR.RestFits(n.micro, n.slot, n.child);
    TE.NoWaitSlot(n);
    StampsOnce(n);
    hide TR.JobFits, Carries, Leaves, RunMicro, Answers, TR.PastBump, Pending, Stamping;
    TE.PlainMoves(n, ans, free);
    assert n.micro == [n.micro[0]] + n.micro[1..];
    CarriesOn(n.micro[0], n.micro[1..], runs, stamp, key);
  }

  lemma SlotLeads(n: Node, ans: Answer, free: nat, runs: seq<JobRun>, stamp: Option<string>)
    requires |n.micro| == 3 && n.micro[0].JobSlot? && n.micro[2].JobSpawn? && !n.micro[1].Bump? && n.queue == []
    requires Answers(n, ans, free) && SeedStamp !in n.micro && Carries(n.micro, runs, stamp)
    ensures var m := RunMicro(n, ans, free).node;
            m.queue == [] && Carries(TR.PastBump(m.micro), runs, stamp)
  {
    TE.SlotSteps(n, ans, free);
    hide RunMicro, TR.PastBump, Answers, Pending, IsKey;
    var rest := n.micro[1..];
    assert rest[1] == n.micro[2] && ([WaitJobSlot] + rest)[2] == n.micro[2];
  }

  /** Nothing is left to stamp. */
  lemma {:induction false} NothingPending(job: seq<Micro>)
    requires forall i | 0 <= i < |job| :: !job[i].StampOutput?
    ensures Pending(job).None?
    decreases |job|
  {
    if job != [] { NothingPending(job[1..]); }
  }

  lemma SpawnLeads(n: Node, ans: Answer, free: nat, runs: seq<JobRun>, stamp: Option<string>)
    requires |n.micro| == 1 && (n.micro[0].JobSpawn? || n.micro[0].CheckSpawn?) && n.queue == []
    requires Answers(n, ans, free) && Carries(n.micro, runs, stamp)
    ensures var m := RunMicro(n, ans, free).node;
            m.queue == [] && Carries(TR.PastBump(m.micro), runs, stamp)
  {
    hide Pending, IsKey;
    var m := RunMicro(n, ans, free).node;
    NothingPending(m.micro);
    assert SeedStamp !in n.micro;
  }

  lemma WaitLeads(n: Node, ans: Answer, free: nat, runs: seq<JobRun>, stamp: Option<string>)
    requires |n.micro| == 1 && (n.micro[0].JobWait? || n.micro[0].CheckWait?) && n.queue == []
    requires Answers(n, ans, free) && Carries(n.micro, runs, stamp)
    ensures var m := RunMicro(n, ans, free).node;
            m.queue == [] && Carries(TR.PastBump(m.micro), if n.micro[0].JobWait? && ans.code == 0 then Produced(runs, ans.out) else runs, stamp)
  {
    var m := RunMicro(n, ans, free).node;
    assert SeedStamp !in n.micro;
    hide IsKey, Pending;
    if n.micro[0].JobWait? && ans.code == 0 {
      PendingStep(m.micro[0], m.micro[1..]);
      PendingStep(m.micro[1], m.micro[2..]);
      assert m.micro == [m.micro[0]] + m.micro[1..] && m.micro[1..] == [m.micro[1]] + m.micro[2..];
    } else if n.micro[0].CheckWait? && ans.held {
      PendingStep(m.micro[0], m.micro[1..]);
      assert m.micro == [m.micro[0]] + m.micro[1..];
    } else {
      NothingPending(m.micro);
    }
  }

  lemma GrowingLeads(n: Node, ans: Answer, free: nat, runs: seq<JobRun>, stamp: Option<string>, key: string)
    requires CanRun(n, ans, free) && n.micro != [] && TR.Grows(n.micro[0])
    requires n.queue == [] && TR.JobFits(n.micro, n.slot, n.child)
    requires Carries(n.micro, runs, stamp)
    ensures var m := RunMicro(n, ans, free).node;
            m.queue == [] && Carries(TR.PastBump(m.micro), NextRuns(n, ans, runs, free), NextStamp(n, runs, stamp, key))
  {
    TE.AloneOrSlot(n);
    SlotSeeded(n);
    hide TR.JobFits, RunMicro, Carries, TR.PastBump, Answers;
    if n.micro[0].JobSlot? {
      SlotLeads(n, ans, free, runs, stamp);
    } else if n.micro[0].JobSpawn? || n.micro[0].CheckSpawn? {
      SpawnLeads(n, ans, free, runs, stamp);
    } else {
      WaitLeads(n, ans, free, runs, stamp);
    }
  }

  lemma SlotSeeded(n: Node)
    requires n.micro != [] && TR.JobFits(n.micro, n.slot, n.child)
    ensures n.micro[0].JobSlot? ==> SeedStamp !in n.micro
  {
  }

  /** A run begins. */
  lemma JobLeads(plan: JobPlan, runs: seq<JobRun>, stamp: Option<string>)
    ensures var job := JobSteps(plan);
            job != [] && !job[0].Bump? && Carries(job, runs + [Begun(plan)], stamp)
  {
    hide IsKey;
    match plan
    case CannotStart =>
    case Hit(_, out) =>
      var job := JobSteps(plan);
      assert job[1] == SeedStamp;
      assert job == [job[0], job[1]] + job[2..];
      PendingStep(job[0], job[1..]);
      PendingStep(job[1], job[2..]);
      PendingStep(job[2], job[3..]);
      assert job[1..] == [job[1]] + job[2..] && job[2..] == [job[2]] + job[3..] && job == [job[0]] + job[1..];
    case Verify(_, _) => assert JobSteps(plan)[1] == SeedStamp;
    case Build(keyed) => if keyed { assert JobSteps(plan)[1] == SeedStamp; }
  }

  lemma ActionKeeps(n: Node, ans: Answer, free: nat, runs: seq<JobRun>, stamp: Option<string>, key: string)
    requires TR.TskInv(n) && StampInv(n, runs, stamp) && CanRun(n, ans, free) && n.micro == []
    ensures StampInv(RunStep(n, ans, free).node, NextRuns(n, ans, runs, free), NextStamp(n, runs, stamp, key))
  {
    assert n.acts[0] in n.acts;
    if n.acts[0].RunJob? { JobLeads(ans.plan, runs, stamp); }
    hide TR.JobFits, Carries, JobSteps, Leaves;
  }

  lemma BumpKeeps(n: Node, ans: Answer, free: nat, runs: seq<JobRun>, stamp: Option<string>, key: string)
    requires TR.TskInv(n) && StampInv(n, runs, stamp) && CanRun(n, ans, free) && n.micro != [] && n.micro[0].Bump?
    ensures StampInv(RunStep(n, ans, free).node, NextRuns(n, ans, runs, free), NextStamp(n, runs, stamp, key))
  {
    var rest := n.micro[1..];
    assert rest != [] ==> !rest[0].Bump?;
    hide Carries, Leaves, TR.JobFits;
  }

  lemma JobStepKeeps(n: Node, ans: Answer, free: nat, runs: seq<JobRun>, stamp: Option<string>, key: string)
    requires TR.TskInv(n) && StampInv(n, runs, stamp) && CanRun(n, ans, free) && n.micro != [] && !n.micro[0].Bump?
    ensures StampInv(RunStep(n, ans, free).node, NextRuns(n, ans, runs, free), NextStamp(n, runs, stamp, key))
  {
    assert n.machine.task.phase.TaskRunning? && n.queue == [] && n.acts == [];
    if TR.Grows(n.micro[0]) {
      GrowingLeads(n, ans, free, runs, stamp, key);
    } else {
      PlainLeads(n, ans, free, runs, stamp, key);
    }
    hide TR.JobFits, Carries, Leaves, RunMicro, NextStamp;
  }

  lemma SendKeeps(n: Node, why: string, runs: seq<JobRun>, stamp: Option<string>)
    requires StampInv(n, runs, stamp)
    ensures StampInv(QueueStop(n), runs, stamp) && StampInv(AnnounceStop(n), runs, stamp)
    ensures StampInv(QueueRestart(n, why), runs, stamp) && StampInv(DropSenders(n), runs, stamp)
  {
    hide Carries, Leaves, TR.PastBump;
  }

  // ------------------------------------------------------------------
  // Over every session

  /** A session with its stamps, and what the newest run of one task comes to. */
  datatype Run = Run(l: Ledger, end: TE.End)

  function Go(plan: Plan, name: Name, r: Run, st: Step): Run
    requires Enabled(plan, r.l.w, st.mv)
  {
    Run(Advance(plan, r.l, st), TE.Go(plan, name, TE.Run(r.l.w, r.end), st.mv).end)
  }

  function Goes(plan: Plan, name: Name, r: Run, steps: seq<Step>): Run
    requires L.Legal(plan, r.l, steps)
    decreases |steps|
  {
    if steps == [] then r else Goes(plan, name, Go(plan, name, r, steps[0]), steps[1..])
  }

  predicate RunInv(plan: Plan, name: Name, r: Run) {
    && TE.RunInv(plan, name, TE.Run(r.l.w, r.end))
    && StampInv(r.l.w.nodes[name], RunsOf(r.l, name), StampOf(r.l, name))
  }

  lemma StepKeeps(n: Node, ans: Answer, free: nat, runs: seq<JobRun>, stamp: Option<string>, key: string)
    requires TR.TskInv(n) && StampInv(n, runs, stamp) && CanRun(n, ans, free)
    ensures StampInv(RunStep(n, ans, free).node, NextRuns(n, ans, runs, free), NextStamp(n, runs, stamp, key))
  {
    hide TR.TskInv, StampInv, RunStep, NextRuns, NextStamp;
    if n.micro == [] {
      ActionKeeps(n, ans, free, runs, stamp, key);
    } else if n.micro[0].Bump? {
      BumpKeeps(n, ans, free, runs, stamp, key);
    } else {
      JobStepKeeps(n, ans, free, runs, stamp, key);
    }
  }

  lemma GoKeeps(plan: Plan, name: Name, r: Run, st: Step)
    requires RunInv(plan, name, r) && Enabled(plan, r.l.w, st.mv)
    ensures RunInv(plan, name, Go(plan, name, r, st))
  {
    hide Inv, TE.EndInv, TE.EndFits, TE.EndAfter, StampInv, Take, Decide, RunStep, CanTake, CanRun, DepView,
         QueueStop, AnnounceStop, QueueRestart, DropSenders, NextRuns, NextStamp;
    var n, runs, stamp := r.l.w.nodes[name], RunsOf(r.l, name), StampOf(r.l, name);
    TE.GoKeeps(plan, name, TE.Run(r.l.w, r.end), st.mv);
    Noted(plan, r.l, st, name);
    TaskAt(plan, r.l.w, name);
    SendKeeps(n, if st.mv.RestartOf? then st.mv.why else "", runs, stamp);
    match st.mv
    case TakeEvent(node, src) =>
      if node == name { TakeKeeps(n, src, r.l.w.version, plan.deps[name] != [], r.l.w.clock, runs, stamp); }
    case DecideOn(node) =>
      if node == name { DecideKeeps(n, DepView(r.l.w, plan.deps[name]), r.l.w.clock, runs, stamp, r.end); }
    case DoNext(node, ans) =>
      if node == name { StepKeeps(n, ans, r.l.w.free, runs, stamp, st.key); }
    case _ =>
  }

  lemma {:induction false} RunsKeep(plan: Plan, name: Name, r: Run, steps: seq<Step>)
    requires RunInv(plan, name, r) && L.Legal(plan, r.l, steps)
    ensures RunInv(plan, name, Goes(plan, name, r, steps))
    ensures Goes(plan, name, r, steps).l == L.EndOf(plan, r.l, steps)
    decreases |steps|
  {
    hide RunInv, TE.EndAfter, Advance, Enabled;
    if steps != [] {
      GoKeeps(plan, name, r, steps[0]);
      RunsKeep(plan, name, Go(plan, name, r, steps[0]), steps[1..]);
    }
  }

  /** What a parked task's stamp is, by its newest run: what the run produced, if the
      task shows a result and there is any, and otherwise its key. */
  predicate Stamped(n: Node, runs: seq<JobRun>, stamp: Option<string>) {
    && runs != []
    && var r := runs[|runs| - 1];
       r.keyed ==>
         if n.status.Done? && r.out.Some? then stamp == Some("out:" + r.out.value)
         else stamp.Some? && stamp.value != "" && stamp.value[0] == 'k'
  }

  lemma ParkedIsStamped(plan: Plan, name: Name, r: Run)
    requires RunInv(plan, name, r)
    ensures var n := r.l.w.nodes[name];
            n.machine.Tsk?
            && (n.machine.task.phase.TaskParked? ==> Stamped(n, RunsOf(r.l, name), StampOf(r.l, name)))
  {
    TaskAt(plan, r.l.w, name);
    TE.GoneIsFinished(r.l.w.nodes[name]);
    hide Inv, TE.EndInv, TE.EndFits, TR.TskInv, Carries;
  }

  /** In every session: while a task is parked, its stamp is what its newest run left.
      What a run produced is the cache's word on a hit, the record's promise on one
      that was reproduced, and the host's on a build. */
  lemma StampIsWhatItsRunLeft(plan: Plan, machines: map<Name, Machine>, steps: seq<Step>, name: Name)
    requires machines.Keys == plan.deps.Keys && plan.Closed()
    requires forall n <- machines :: Initial(machines[n])
    requires L.Legal(plan, Opened(plan, machines), steps)
    requires name in machines && machines[name].Tsk?
    ensures var l := L.EndOf(plan, Opened(plan, machines), steps);
            name in l.w.nodes && l.w.nodes[name].machine.Tsk?
            && (l.w.nodes[name].machine.task.phase.TaskParked? ==>
                  Stamped(l.w.nodes[name], RunsOf(l, name), StampOf(l, name)))
  {
    var r := Run(Opened(plan, machines), TE.NotYet(0));
    TE.NewRunKeeps(plan, machines, name);
    NewStamp(machines[name], StartView(plan.deps[name]));
    assert RunInv(plan, name, r);
    hide Inv, Advance, Enabled, TE.EndInv, TE.EndFits, L.Legal, L.EndOf, StampInv, Stamped, Goes;
    RunsKeep(plan, name, r, steps);
    ParkedIsStamped(plan, name, Goes(plan, name, r, steps));
  }

  lemma NewStamp(m: Machine, view: Deps)
    requires Initial(m)
    ensures StampInv(NewNode(m, view), [], None)
  {
  }
}
