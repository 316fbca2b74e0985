/** The stamps dependents key on, beside the session that writes them. A run
    seeds its task's stamp with the key and replaces it by what it produced; when
    it does, against when it shows as done, decides what a dependent reads. */
module Stamps {
  import opened Status
  import opened Lifecycle
  import opened Supervisor
  import opened World
  import opened WorldInvariant
  import Replay
  import TR = TaskRuns

  /** A run of a task: whether it has a key, came from the cache, and what it produced. */
  datatype JobRun = JobRun(keyed: bool, hit: bool, out: Option<string>)

  /** A session with its stamps, what each task last read of them, and every
      run so far. The runs are bookkeeping the program does not have. */
  datatype Ledger = Ledger(
    w: World,
    stamps: map<Name, string>,
    upstream: map<Name, map<Name, string>>,
    runs: map<Name, seq<JobRun>>)

  /** A move, and the key it makes if it makes one. */
  datatype Step = Step(mv: Move, key: string)

  function StampOf(l: Ledger, d: Name): Option<string> {
    if d in l.stamps then Some(l.stamps[d]) else None
  }

  function RunsOf(l: Ledger, d: Name): seq<JobRun> {
    if d in l.runs then l.runs[d] else []
  }

  function Begun(plan: JobPlan): JobRun {
    match plan
    case CannotStart => JobRun(false, false, None)
    case Hit(_, out) => JobRun(true, true, out)
    case Verify(_, promised) => JobRun(true, true, Some(promised))
    case Build(keyed) => JobRun(keyed, false, None)
  }

  function Produced(runs: seq<JobRun>, out: Option<string>): seq<JobRun> {
    if runs == [] || !runs[|runs| - 1].keyed then runs
    else runs[|runs| - 1 := runs[|runs| - 1].(out := out)]
  }

  /** What the task reads of its dependencies' stamps: those there are. */
  function Upstream(stamps: map<Name, string>, deps: seq<Name>): map<Name, string> {
    map d | d in deps && d in stamps :: stamps[d]
  }

  predicate Keyed(runs: seq<JobRun>) {
    runs != [] && runs[|runs| - 1].keyed
  }

  /** What one step of a supervisor does to its own stamp. */
  function NextStamp(n: Node, runs: seq<JobRun>, stamp: Option<string>, key: string): Option<string> {
    if n.micro == [] then stamp
    else
      match n.micro[0]
      case SeedStamp => Some(Replay.KeyStamp(key))
      case StampOutput(out) => if out.Some? && Keyed(runs) then Some(Replay.StampOf(key, out)) else stamp
      case _ => stamp
  }

  function NextRuns(n: Node, ans: Answer, runs: seq<JobRun>, free: nat): seq<JobRun>
    requires CanRun(n, ans, free)
  {
    if n.micro == [] then
      if n.acts[0].RunJob? then runs + [Begun(ans.plan)] else runs
    else if n.micro[0].JobWait? && ans.code == 0 then Produced(runs, ans.out)
    else runs
  }

  function Advance(plan: Plan, l: Ledger, st: Step): Ledger
    requires Enabled(plan, l.w, st.mv)
  {
    var w := Next(plan, l.w, st.mv);
    if !st.mv.DoNext? then l.(w := w)
    else
      var d, ans := st.mv.node, st.mv.ans;
      var n := l.w.nodes[d];
      var stamp := NextStamp(n, RunsOf(l, d), StampOf(l, d), st.key);
      Ledger(w,
             if stamp.Some? then l.stamps[d := stamp.value] else l.stamps,
             if n.micro != [] && n.micro[0].ReadStamps? then l.upstream[d := Upstream(l.stamps, plan.deps[d])]
             else l.upstream,
             l.runs[d := NextRuns(n, ans, RunsOf(l, d), l.w.free)])
  }

  predicate Legal(plan: Plan, l: Ledger, steps: seq<Step>)
    decreases |steps|
  {
    steps == [] || (Enabled(plan, l.w, steps[0].mv) && Legal(plan, Advance(plan, l, steps[0]), steps[1..]))
  }

  function EndOf(plan: Plan, l: Ledger, steps: seq<Step>): Ledger
    requires Legal(plan, l, steps)
    decreases |steps|
  {
    if steps == [] then l else EndOf(plan, Advance(plan, l, steps[0]), steps[1..])
  }

  function Opened(plan: Plan, machines: map<Name, Machine>): Ledger
    requires machines.Keys == plan.deps.Keys
  {
    Ledger(Start(plan, machines), map[], map[], map[])
  }

  /** A ledger some session reaches: any plan, any machines, any run. */
  ghost predicate Reached(plan: Plan, l: Ledger) {
    exists machines: map<Name, Machine>, steps: seq<Step> ::
      && machines.Keys == plan.deps.Keys && plan.Closed()
      && (forall n <- machines :: Initial(machines[n]))
      && Legal(plan, Opened(plan, machines), steps)
      && EndOf(plan, Opened(plan, machines), steps) == l
  }

  // ------------------------------------------------------------------
  // Where a run is when its task shows as done

  function Left(n: Node): seq<Micro> {
    TR.PastBump(n.micro)
  }

  /** Between showing a build as done and stamping what it left. */
  predicate Capturing(n: Node) {
    Left(n) != [] && Left(n)[0].StampOutput? && |Left(n)| == 3 && Left(n)[1].FreeSlot?
  }

  /** Done with all that shows. */
  predicate Late(n: Node) {
    || Left(n) == []
    || (|Left(n)| == 1 && Left(n)[0].JobReply?)
    || (|Left(n)| == 2 && Left(n)[0].FreeSlot? && Left(n)[1].JobReply?)
    || (Capturing(n) && Left(n)[2].JobReply?)
  }

  predicate InJob(n: Node) {
    n.machine.Tsk? && n.machine.task.phase.TaskRunning? && n.taken.None? && n.acts == [] && n.queue == []
  }

  /** A task shows as done only before a run, or when one has shown its result. */
  predicate StatusFits(n: Node) {
    && (InJob(n) && n.status.Done? ==> Late(n))
    && (n.machine.Tsk? && n.acts == [RunJob] ==> n.status == Status.Running)
  }

  predicate IsKey(stamp: Option<string>) {
    stamp.Some? && stamp.value != "" && stamp.value[0] == 'k'
  }

  /** A build before its result: its stamp, once seeded, is its key. */
  predicate Building(job: seq<Micro>) {
    job != [] && (job[|job| - 1].JobSpawn? || job[|job| - 1].JobWait?)
  }

  /** A build whose result is still to be stamped. */
  predicate ToCapture(job: seq<Micro>) {
    |job| >= 3 && job[|job| - 3].StampOutput? && job[|job| - 2].FreeSlot?
  }

  predicate RunFits(job: seq<Micro>, runs: seq<JobRun>, stamp: Option<string>) {
    && runs != []
    && var r := runs[|runs| - 1];
       && (Building(job) ==> !r.hit && r.out.None? && (r.keyed && SeedStamp !in job ==> IsKey(stamp)))
       && (ToCapture(job) ==>
             && !r.hit && (r.keyed ==> IsKey(stamp))
             && r.out == (if r.keyed then job[|job| - 3].out else None))
  }

  predicate TaskInv(n: Node, runs: seq<JobRun>, stamp: Option<string>) {
    && StatusFits(n)
    && (InJob(n) ==> RunFits(Left(n), runs, stamp))
  }

  predicate LedgerInv(plan: Plan, l: Ledger) {
    && Inv(plan, l.w)
    && forall d <- l.w.nodes :: TaskInv(l.w.nodes[d], RunsOf(l, d), StampOf(l, d))
  }

  lemma SeedIsKey(key: string)
    ensures IsKey(Some(Replay.KeyStamp(key)))
  {
    assert Replay.KeyStamp(key)[0] == 'k';
  }

  lemma OutIsNoKey(key: string, hash: string)
    ensures !IsKey(Some(Replay.StampOf(key, Some(hash))))
  {
    assert Replay.StampOf(key, Some(hash))[0] == 'o';
  }

  /** A node inside a run, about to take a step of it. */
  predicate AtStep(n: Node, ans: Answer, free: nat, runs: seq<JobRun>, stamp: Option<string>) {
    && InJob(n) && !n.exited && n.micro != [] && !n.micro[0].Bump? && Answers(n, ans, free)
    && TR.JobFits(n.micro, n.slot, n.child)
    && TaskInv(n, runs, stamp)
  }

  lemma StampStepKeeps(n: Node, ans: Answer, free: nat, runs: seq<JobRun>, stamp: Option<string>, key: string)
    requires AtStep(n, ans, free, runs, stamp)
    requires n.micro[0].ReadStamps? || n.micro[0].SeedStamp? || n.micro[0].StampOutput?
    ensures TaskInv(RunMicro(n, ans, free).node, NextRuns(n, ans, runs, free), NextStamp(n, runs, stamp, key))
  {
    SeedIsKey(key);
    hide Replay.KeyStamp, Replay.StampOf;
    var m := RunMicro(n, ans, free).node;
    assert m == n.(micro := n.micro[1..]);
    assert forall i | 0 <= i < |m.micro| :: m.micro[i] == n.micro[i + 1];
    assert n.micro[0].SeedStamp? ==> SeedStamp !in m.micro;
  }

  /** The rest of a run fits what is noted, once its key is stamped. */
  lemma TailFits(job: seq<Micro>, runs: seq<JobRun>, stamp: Option<string>)
    requires job != [] && !job[0].SeedStamp? && RunFits(job, runs, stamp)
    ensures RunFits(job[1..], runs, stamp)
  {
    var rest := job[1..];
    assert Building(rest) ==> rest[|rest| - 1] == job[|job| - 1];
    assert |rest| >= 3 ==> rest[|rest| - 3] == job[|job| - 3] && rest[|rest| - 2] == job[|job| - 2];
    if SeedStamp in job {
      var i :| 0 <= i < |job| && job[i] == SeedStamp;
      assert rest[i - 1] == SeedStamp;
    }
  }

  /** So does a run that now waits for its slot. */
  lemma WaitFits(rest: seq<Micro>, runs: seq<JobRun>, stamp: Option<string>)
    requires |rest| == 2 && RunFits([JobSlot] + rest, runs, stamp)
    ensures RunFits([WaitJobSlot] + rest, runs, stamp)
  {
    assert SeedStamp in [JobSlot] + rest ==> SeedStamp in rest;
  }

  lemma AfterWrite(n: Node, st: Status, rest: seq<Micro>)
    requires rest != [] && !rest[0].Bump?
    ensures var m := Write(n, st, rest);
            Left(m) == rest && m.status == st && InJob(m) == InJob(n)
  {
    hide TR.PastBump, InJob;
    if n.status == st && !st.IsReady() {
      PastItsBump(rest, rest);
      SameJob(n, n.(micro := rest));
    } else {
      PastItsBump([Bump] + rest, rest);
      SameJob(n, Write(n, st, rest));
    }
  }

  lemma SameJob(n: Node, m: Node)
    requires m.machine == n.machine && m.taken == n.taken && m.acts == n.acts && m.queue == n.queue
    ensures InJob(m) == InJob(n)
  {
  }

  lemma PastItsBump(job: seq<Micro>, rest: seq<Micro>)
    requires rest != [] && !rest[0].Bump?
    requires job == rest || job == [Bump] + rest
    ensures TR.PastBump(job) == rest
  {
    assert ([Bump] + rest)[1..] == rest;
  }

  lemma JobSlotKeeps(n: Node, ans: Answer, free: nat, runs: seq<JobRun>, stamp: Option<string>, key: string)
    requires AtStep(n, ans, free, runs, stamp) && n.micro[0].JobSlot?
    ensures TaskInv(RunMicro(n, ans, free).node, NextRuns(n, ans, runs, free), NextStamp(n, runs, stamp, key))
  {
    var rest := n.micro[1..];
    assert |rest| == 2 && !rest[0].Bump?;
    assert !n.status.Done?;
    hide TR.JobFits, Write, RunFits;
    if free > 0 {
      TailFits(n.micro, runs, stamp);
    } else {
      assert n.micro == [JobSlot] + rest;
      WaitFits(rest, runs, stamp);
      AfterWrite(n, Status.Queued, [WaitJobSlot] + rest);
    }
  }

  lemma SlotStepKeeps(n: Node, ans: Answer, free: nat, runs: seq<JobRun>, stamp: Option<string>, key: string)
    requires AtStep(n, ans, free, runs, stamp)
    requires n.micro[0].WaitJobSlot? || n.micro[0].FreeSlot?
    ensures TaskInv(RunMicro(n, ans, free).node, NextRuns(n, ans, runs, free), NextStamp(n, runs, stamp, key))
  {
    var m := RunMicro(n, ans, free).node;
    assert Left(m) == m.micro == n.micro[1..];
    assert SeedStamp !in n.micro;
  }

  lemma ReplyKeeps(n: Node, ans: Answer, free: nat, runs: seq<JobRun>, stamp: Option<string>, key: string)
    requires AtStep(n, ans, free, runs, stamp) && n.micro[0].JobReply?
    ensures TaskInv(RunMicro(n, ans, free).node, NextRuns(n, ans, runs, free), NextStamp(n, runs, stamp, key))
  {
    assert RunMicro(n, ans, free).node.queue != [];
  }

  /** Only the result, and what follows it, may show a run as done. */
  lemma DoneIsLate(n: Node, m: Node)
    requires n.micro != [] && n.micro[0].Publish? && TR.JobFits(n.micro, n.slot, n.child)
    requires Left(m) == n.micro[1..]
    ensures n.micro[0].status.Done? ==> Late(m)
  {
  }

  lemma PublishStepKeeps(n: Node, ans: Answer, free: nat, runs: seq<JobRun>, stamp: Option<string>, key: string)
    requires AtStep(n, ans, free, runs, stamp) && n.micro[0].Publish?
    ensures TaskInv(RunMicro(n, ans, free).node, NextRuns(n, ans, runs, free), NextStamp(n, runs, stamp, key))
  {
    var rest := n.micro[1..];
    assert rest != [] && !rest[0].Bump?;
    AfterWrite(n, n.micro[0].status, rest);
    DoneIsLate(n, RunMicro(n, ans, free).node);
    TailFits(n.micro, runs, stamp);
    hide TR.JobFits, Write, RunFits, Late, Left;
  }

  predicate Childs(step: Micro) {
    step.JobSpawn? || step.JobWait? || step.CheckSpawn? || step.CheckWait?
  }

  lemma ChildStepKeeps(n: Node, ans: Answer, free: nat, runs: seq<JobRun>, stamp: Option<string>, key: string)
    requires AtStep(n, ans, free, runs, stamp) && Childs(n.micro[0])
    ensures TaskInv(RunMicro(n, ans, free).node, NextRuns(n, ans, runs, free), NextStamp(n, runs, stamp, key))
  {
    assert |n.micro| == 1;
    assert SeedStamp !in n.micro;
    var m := RunMicro(n, ans, free).node;
    assert n.micro[1..] == [];
    assert Left(m) == m.micro;
  }

  /** A run's own steps keep what is noted of it. */
  lemma JobStepKeeps(n: Node, ans: Answer, free: nat, runs: seq<JobRun>, stamp: Option<string>, key: string)
    requires AtStep(n, ans, free, runs, stamp)
    ensures TaskInv(RunMicro(n, ans, free).node, NextRuns(n, ans, runs, free), NextStamp(n, runs, stamp, key))
  {
    JobHeads(n);
    hide AtStep, TaskInv, NextRuns, NextStamp, RunMicro;
    match n.micro[0]
    case Publish(_) => PublishStepKeeps(n, ans, free, runs, stamp, key);
    case JobSpawn => ChildStepKeeps(n, ans, free, runs, stamp, key);
    case CheckSpawn(_, _) => ChildStepKeeps(n, ans, free, runs, stamp, key);
    case CheckWait(_, _) => ChildStepKeeps(n, ans, free, runs, stamp, key);
    case JobWait => ChildStepKeeps(n, ans, free, runs, stamp, key);
    case ReadStamps => StampStepKeeps(n, ans, free, runs, stamp, key);
    case SeedStamp => StampStepKeeps(n, ans, free, runs, stamp, key);
    case StampOutput(_) => StampStepKeeps(n, ans, free, runs, stamp, key);
    case JobSlot => JobSlotKeeps(n, ans, free, runs, stamp, key);
    case JobReply(_, _) => ReplyKeeps(n, ans, free, runs, stamp, key);
    case _ => SlotStepKeeps(n, ans, free, runs, stamp, key);
  }

  lemma JobHeads(n: Node)
    requires n.micro != [] && !n.micro[0].Bump? && TR.JobFits(n.micro, n.slot, n.child)
    ensures !n.micro[0].WaitSlot?
  {
  }

  /** The other steps of an executor: none is part of a run. */
  lemma ActionKeeps(n: Node, ans: Answer, free: nat, runs: seq<JobRun>, stamp: Option<string>, key: string)
    requires TR.TskInv(n) && CanRun(n, ans, free) && n.micro == []
    requires TaskInv(n, runs, stamp)
    ensures TaskInv(RunStep(n, ans, free).node, NextRuns(n, ans, runs, free), NextStamp(n, runs, stamp, key))
  {
    hide TR.TskInv, TaskInv, RunStep, NextRuns, NextStamp;
    match n.acts[0]
    case SetStatus(_) => WriteKeeps(n, ans, free, runs, stamp, key);
    case RunJob => RunBegins(n, ans, free, runs, stamp, key);
    case _ => QuietKeeps(n, ans, free, runs, stamp, key);
  }

  lemma WriteKeeps(n: Node, ans: Answer, free: nat, runs: seq<JobRun>, stamp: Option<string>, key: string)
    requires TR.TskInv(n) && CanRun(n, ans, free) && n.micro == [] && n.acts[0].SetStatus?
    requires TaskInv(n, runs, stamp)
    ensures TaskInv(RunStep(n, ans, free).node, NextRuns(n, ans, runs, free), NextStamp(n, runs, stamp, key))
  {
    if n.acts[1..] == [RunJob] { StatusThenRun(n); }
    WriteLeavesNoJob(n);
    hide TR.TskInv, RunFits;
    assert RunStep(n, ans, free).node == Write(n.(acts := n.acts[1..]), n.acts[0].status, []);
  }

  /** A status is written before a run or outside one. */
  lemma WriteLeavesNoJob(n: Node)
    requires TR.TskInv(n) && !n.exited && n.taken.None? && n.micro == [] && n.acts != [] && n.acts[0].SetStatus?
    ensures n.machine.Tsk? && n.machine.task.phase.TaskRunning? ==> n.acts[1..] != []
  {
  }

  lemma QuietKeeps(n: Node, ans: Answer, free: nat, runs: seq<JobRun>, stamp: Option<string>, key: string)
    requires TR.TskInv(n) && CanRun(n, ans, free) && n.micro == [] && !n.acts[0].SetStatus? && !n.acts[0].RunJob?
    requires TaskInv(n, runs, stamp)
    ensures TaskInv(RunStep(n, ans, free).node, NextRuns(n, ans, runs, free), NextStamp(n, runs, stamp, key))
  {
    TR.OnlyKnownActions(n);
    assert n.acts[0] in n.acts;
    if n.acts[1..] == [RunJob] { StatusThenRun(n); }
    QuietLeavesNoJob(n);
    hide TR.TskInv, RunFits;
  }

  lemma QuietLeavesNoJob(n: Node)
    requires TR.TskInv(n) && !n.exited && n.taken.None? && n.micro == [] && n.acts != []
    requires !n.acts[0].SetStatus? && !n.acts[0].RunJob?
    ensures n.machine.Tsk? && n.machine.task.phase.TaskRunning? ==> n.acts[1..] != []
  {
    assert n.acts[0] in n.acts;
  }

  lemma StatusThenRun(n: Node)
    requires TR.TskInv(n) && !n.exited && n.taken.None? && n.acts != [] && n.acts[1..] == [RunJob]
    ensures n.acts[0] == SetStatus(Status.Running)
  {
    assert n.acts == [n.acts[0]] + n.acts[1..];
    assert RunJob in n.acts;
    assert |n.acts| == 2 && n.acts[1] == RunJob;
  }

  lemma RunBegins(n: Node, ans: Answer, free: nat, runs: seq<JobRun>, stamp: Option<string>, key: string)
    requires TR.TskInv(n) && CanRun(n, ans, free) && n.micro == [] && n.acts[0].RunJob?
    requires TaskInv(n, runs, stamp)
    ensures TaskInv(RunStep(n, ans, free).node, NextRuns(n, ans, runs, free), NextStamp(n, runs, stamp, key))
  {
    assert n.acts[0] in n.acts;
    assert n.acts == [RunJob];
    var m := RunStep(n, ans, free).node;
    assert m.micro == JobSteps(ans.plan);
    if ans.plan.Build? && ans.plan.keyed { assert m.micro[1] == SeedStamp; }
  }

  lemma BumpKeeps(n: Node, ans: Answer, free: nat, runs: seq<JobRun>, stamp: Option<string>, key: string)
    requires CanRun(n, ans, free) && n.InFlight() && TaskInv(n, runs, stamp) && n.machine.Tsk? && TR.TskInv(n)
    ensures TaskInv(RunStep(n, ans, free).node, NextRuns(n, ans, runs, free), NextStamp(n, runs, stamp, key))
  {
    var m := RunStep(n, ans, free).node;
    assert m == n.(micro := n.micro[1..]);
    assert m.micro != [] ==> !m.micro[0].Bump?;
    assert Left(m) == Left(n);
  }

  lemma OwnStepKeeps(n: Node, ans: Answer, free: nat, runs: seq<JobRun>, stamp: Option<string>, key: string)
    requires n.machine.Tsk? ==> TR.TskInv(n)
    requires CanRun(n, ans, free) && TaskInv(n, runs, stamp)
    ensures TaskInv(RunStep(n, ans, free).node, NextRuns(n, ans, runs, free), NextStamp(n, runs, stamp, key))
  {
    if n.machine.Svc? {
      ServiceHasNone(RunStep(n, ans, free).node, NextRuns(n, ans, runs, free), NextStamp(n, runs, stamp, key));
    } else if n.micro == [] {
      ActionKeeps(n, ans, free, runs, stamp, key);
    } else if n.InFlight() {
      BumpKeeps(n, ans, free, runs, stamp, key);
    } else {
      InRun(n, ans, free);
      JobStepKeeps(n, ans, free, runs, stamp, key);
    }
  }

  lemma ServiceHasNone(n: Node, runs: seq<JobRun>, stamp: Option<string>)
    requires n.machine.Svc?
    ensures TaskInv(n, runs, stamp)
  {
  }

  lemma InRun(n: Node, ans: Answer, free: nat)
    requires TR.TskInv(n) && CanRun(n, ans, free) && n.micro != [] && !n.InFlight()
    ensures InJob(n) && TR.JobFits(n.micro, n.slot, n.child)
  {
  }

  /** A decision, an event taken and a message leave runs and stamps alone. */
  lemma TakenFits(n: Node, src: Source, version: nat, hasDeps: bool, now: Instant, runs: seq<JobRun>, stamp: Option<string>)
    requires CanTake(n, src, version, hasDeps, now)
    ensures TaskInv(Take(n, src, version), runs, stamp)
  {
  }

  lemma DecidedFits(n: Node, deps: Deps, now: Instant, runs: seq<JobRun>, stamp: Option<string>)
    requires n.taken.Some? && (n.machine.Tsk? ==> TR.TskInv(n))
    ensures TaskInv(Decide(n, deps, now), runs, stamp)
  {
    if n.machine.Tsk? {
      TaskDecides(n, deps, now);
    } else {
      ServiceHasNone(Decide(n, deps, now), runs, stamp);
    }
  }

  lemma TaskDecides(n: Node, deps: Deps, now: Instant)
    requires n.taken.Some? && n.machine.Tsk? && TR.TskInv(n)
    ensures var m := Decide(n, deps, now); m.acts != [RunJob] && !InJob(m)
  {
  }

  /** A message sent to a node changes nothing a run is judged by. */
  lemma SentFits(n: Node, why: string, runs: seq<JobRun>, stamp: Option<string>)
    requires TaskInv(n, runs, stamp)
    ensures TaskInv(QueueStop(n), runs, stamp) && TaskInv(AnnounceStop(n), runs, stamp)
    ensures TaskInv(QueueRestart(n, why), runs, stamp) && TaskInv(DropSenders(n), runs, stamp)
  {
    SameFits(n, QueueStop(n), runs, stamp);
    SameFits(n, AnnounceStop(n), runs, stamp);
    SameFits(n, QueueRestart(n, why), runs, stamp);
    SameFits(n, DropSenders(n), runs, stamp);
    hide TaskInv;
  }

  lemma SameFits(n: Node, m: Node, runs: seq<JobRun>, stamp: Option<string>)
    requires TaskInv(n, runs, stamp)
    requires m.machine == n.machine && m.taken == n.taken && m.acts == n.acts
    requires m.queue == n.queue && m.micro == n.micro && m.status == n.status
    ensures TaskInv(m, runs, stamp)
  {
    hide RunFits;
  }

  // ------------------------------------------------------------------
  // Over every session

  lemma Noted(plan: Plan, l: Ledger, st: Step, d: Name)
    requires Enabled(plan, l.w, st.mv) && d in l.w.nodes
    ensures var l1, n := Advance(plan, l, st), l.w.nodes[d];
            if st.mv.DoNext? && st.mv.node == d then
              && RunsOf(l1, d) == NextRuns(n, st.mv.ans, RunsOf(l, d), l.w.free)
              && StampOf(l1, d) == NextStamp(n, RunsOf(l, d), StampOf(l, d), st.key)
            else RunsOf(l1, d) == RunsOf(l, d) && StampOf(l1, d) == StampOf(l, d)
  {
    hide Next, NextRuns;
  }

  lemma AdvanceKeeps(plan: Plan, l: Ledger, st: Step)
    requires LedgerInv(plan, l) && Enabled(plan, l.w, st.mv)
    ensures LedgerInv(plan, Advance(plan, l, st))
  {
    hide Inv, TaskInv, RunStep, NextRuns, NextStamp, Take, Decide, CanRun, CanTake,
         QueueStop, AnnounceStop, QueueRestart, DropSenders;
    NextKeeps(plan, l.w, st.mv);
    var l1 := Advance(plan, l, st);
    forall d <- l1.w.nodes ensures TaskInv(l1.w.nodes[d], RunsOf(l1, d), StampOf(l1, d)) {
      var n, runs, stamp := l.w.nodes[d], RunsOf(l, d), StampOf(l, d);
      assert TaskInv(n, runs, stamp);
      TaskAt(plan, l.w, d);
      Noted(plan, l, st, d);
      match st.mv
      case TakeEvent(name, src) => if name == d { TakenFits(n, src, l.w.version, plan.deps[d] != [], l.w.clock, runs, stamp); }
      case DecideOn(name) => if name == d { DecidedFits(n, DepView(l.w, plan.deps[d]), l.w.clock, runs, stamp); }
      case DoNext(name, ans) => if name == d { OwnStepKeeps(n, ans, l.w.free, runs, stamp, st.key); }
      case QueueStopTo(_) => SentFits(n, "", runs, stamp);
      case AnnounceStopTo(_) => SentFits(n, "", runs, stamp);
      case RestartOf(_, why) => SentFits(n, why, runs, stamp);
      case ForgetSenders(_) => SentFits(n, "", runs, stamp);
      case PassTime(_) =>
    }
  }

  lemma TaskAt(plan: Plan, w: World, d: Name)
    requires Inv(plan, w) && d in w.nodes
    ensures d in plan.deps && (w.nodes[d].machine.Tsk? ==> TR.TskInv(w.nodes[d]))
  {
    LocalAt(plan, w, d);
    TickOf(w.nodes[d], plan.deps[d], w.version);
  }

  lemma {:induction false} SessionsKeep(plan: Plan, l: Ledger, steps: seq<Step>)
    requires LedgerInv(plan, l) && Legal(plan, l, steps)
    ensures LedgerInv(plan, EndOf(plan, l, steps))
    decreases |steps|
  {
    hide LedgerInv, Advance, Enabled;
    if steps != [] {
      AdvanceKeeps(plan, l, steps[0]);
      SessionsKeep(plan, Advance(plan, l, steps[0]), steps[1..]);
    }
  }

  lemma ReachedKeeps(plan: Plan, l: Ledger)
    requires Reached(plan, l)
    ensures LedgerInv(plan, l)
  {
    hide Inv, Advance, Enabled;
    var machines: map<Name, Machine>, steps: seq<Step> :|
      && machines.Keys == plan.deps.Keys && plan.Closed()
      && (forall n <- machines :: Initial(machines[n]))
      && Legal(plan, Opened(plan, machines), steps)
      && EndOf(plan, Opened(plan, machines), steps) == l;
    StartKeeps(plan, machines);
    SessionsKeep(plan, Opened(plan, machines), steps);
  }

  /** The stamp a task that has nothing left to show will come to rest on. */
  function Settles(n: Node, runs: seq<JobRun>, stamp: Option<string>): Option<string> {
    if Capturing(n) && Left(n)[0].out.Some? && Keyed(runs) then Some(Replay.StampOf("", Left(n)[0].out)) else stamp
  }

  predicate NothingToShow(n: Node) {
    n.machine.Tsk? && Late(n)
  }

  /** A step that begins no run leaves what the stamp comes to rest on. */
  lemma OwnStepSettles(n: Node, ans: Answer, free: nat, runs: seq<JobRun>, stamp: Option<string>, key: string)
    requires NothingToShow(n) && TR.TskInv(n) && CanRun(n, ans, free) && |NextRuns(n, ans, runs, free)| == |runs|
    ensures var m := RunStep(n, ans, free).node;
            && NothingToShow(m) && NextRuns(n, ans, runs, free) == runs
            && Settles(m, runs, NextStamp(n, runs, stamp, key)) == Settles(n, runs, stamp)
  {
    if n.micro == [] {
      ActionSettles(n, ans, free, runs, stamp);
    } else if n.InFlight() {
      BumpSettles(n, ans, free);
    } else {
      InRun(n, ans, free);
      JobStepSettles(n, ans, free, runs, stamp, key);
    }
  }

  lemma ActionSettles(n: Node, ans: Answer, free: nat, runs: seq<JobRun>, stamp: Option<string>)
    requires NothingToShow(n) && TR.TskInv(n) && CanRun(n, ans, free) && n.micro == []
    requires |NextRuns(n, ans, runs, free)| == |runs|
    ensures var m := RunStep(n, ans, free).node;
            && NothingToShow(m) && NextRuns(n, ans, runs, free) == runs
            && Settles(m, runs, stamp) == Settles(n, runs, stamp)
  {
    hide TR.TskInv;
    TR.OnlyKnownActions(n);
    assert n.acts[0] in n.acts;
    assert !n.acts[0].RunJob?;
    assert Left(RunStep(n, ans, free).node) == [];
  }

  lemma BumpSettles(n: Node, ans: Answer, free: nat)
    requires TR.TskInv(n) && CanRun(n, ans, free) && n.InFlight()
    ensures Left(RunStep(n, ans, free).node) == Left(n)
    ensures RunStep(n, ans, free).node.machine == n.machine
  {
    var m := RunStep(n, ans, free).node;
    assert m == n.(micro := n.micro[1..]);
    NoSecondBump(n);
  }

  lemma JobStepSettles(n: Node, ans: Answer, free: nat, runs: seq<JobRun>, stamp: Option<string>, key: string)
    requires NothingToShow(n) && CanRun(n, ans, free) && n.micro != [] && !n.InFlight()
    ensures var m := RunMicro(n, ans, free).node;
            && NothingToShow(m) && NextRuns(n, ans, runs, free) == runs
            && Settles(m, runs, NextStamp(n, runs, stamp, key)) == Settles(n, runs, stamp)
  {
    var m := RunMicro(n, ans, free).node;
    assert m.micro == n.micro[1..];
    assert Left(m) == m.micro;
  }

  lemma NoSecondBump(n: Node)
    requires TR.TskInv(n) && n.InFlight() && n.taken.None? && !n.exited
    ensures n.micro[1..] == [] || !n.micro[1].Bump?
  {
  }

  lemma AdvanceSettles(plan: Plan, l: Ledger, st: Step, d: Name)
    requires LedgerInv(plan, l) && Enabled(plan, l.w, st.mv) && d in l.w.nodes
    requires NothingToShow(l.w.nodes[d])
    requires |RunsOf(Advance(plan, l, st), d)| == |RunsOf(l, d)|
    ensures var l1 := Advance(plan, l, st);
            && d in l1.w.nodes && NothingToShow(l1.w.nodes[d]) && RunsOf(l1, d) == RunsOf(l, d)
            && Settles(l1.w.nodes[d], RunsOf(l1, d), StampOf(l1, d)) == Settles(l.w.nodes[d], RunsOf(l, d), StampOf(l, d))
  {
    hide Inv, RunStep, NextRuns, NextStamp, Late, Capturing, On, TaskOn, TR.TskInv, CanRun, CanTake, Take, Settles, DepView, Decide;
    Noted(plan, l, st, d);
    TaskAt(plan, l.w, d);
    var n := l.w.nodes[d];
    if st.mv.DoNext? && st.mv.node == d {
      OwnStepSettles(n, st.mv.ans, l.w.free, RunsOf(l, d), StampOf(l, d), st.key);
    } else {
      OthersLeave(plan, l.w, st.mv, d);
      SameLeft(n, Next(plan, l.w, st.mv).nodes[d], RunsOf(l, d), StampOf(l, d));
    }
  }

  lemma OthersLeave(plan: Plan, w: World, mv: Move, d: Name)
    requires Enabled(plan, w, mv) && d in w.nodes && !(mv.DoNext? && mv.node == d)
    ensures var w1 := Next(plan, w, mv);
            && d in w1.nodes && w1.nodes[d].micro == w.nodes[d].micro
            && w1.nodes[d].machine.Tsk? == w.nodes[d].machine.Tsk?
  {
    hide RunStep, Take, CanTake, CanRun, DepView, On, TaskOn;
    if mv.TakeEvent? && mv.node == d {
      TakeLeaves(w.nodes[d], mv.src, w.version, plan.deps[d] != [], w.clock);
    }
  }

  lemma TakeLeaves(n: Node, src: Source, version: nat, hasDeps: bool, now: Instant)
    requires CanTake(n, src, version, hasDeps, now)
    ensures Take(n, src, version).micro == n.micro && Take(n, src, version).machine == n.machine
  {
  }

  lemma SameLeft(n: Node, m: Node, runs: seq<JobRun>, stamp: Option<string>)
    requires m.micro == n.micro
    ensures Late(m) == Late(n) && Settles(m, runs, stamp) == Settles(n, runs, stamp)
  {
  }

  lemma RunsGrow(plan: Plan, l: Ledger, st: Step, d: Name)
    requires Enabled(plan, l.w, st.mv) && d in l.w.nodes
    ensures d in Advance(plan, l, st).w.nodes && |RunsOf(l, d)| <= |RunsOf(Advance(plan, l, st), d)|
  {
    hide RunStep, Take, Decide;
    Noted(plan, l, st, d);
  }

  lemma {:induction false} SessionsGrow(plan: Plan, l: Ledger, steps: seq<Step>, d: Name)
    requires Legal(plan, l, steps) && d in l.w.nodes
    ensures d in EndOf(plan, l, steps).w.nodes && |RunsOf(l, d)| <= |RunsOf(EndOf(plan, l, steps), d)|
    decreases |steps|
  {
    hide Advance, Enabled;
    if steps != [] {
      RunsGrow(plan, l, steps[0], d);
      SessionsGrow(plan, Advance(plan, l, steps[0]), steps[1..], d);
    }
  }

  lemma {:induction false} SessionsSettle(plan: Plan, l: Ledger, steps: seq<Step>, d: Name)
    requires LedgerInv(plan, l) && Legal(plan, l, steps) && d in l.w.nodes && NothingToShow(l.w.nodes[d])
    requires |RunsOf(EndOf(plan, l, steps), d)| == |RunsOf(l, d)|
    ensures var l1 := EndOf(plan, l, steps);
            && d in l1.w.nodes
            && Settles(l1.w.nodes[d], RunsOf(l1, d), StampOf(l1, d)) == Settles(l.w.nodes[d], RunsOf(l, d), StampOf(l, d))
    decreases |steps|
  {
    hide LedgerInv, Advance, Enabled, Settles, NothingToShow;
    if steps != [] {
      AdvanceKeeps(plan, l, steps[0]);
      RunsGrow(plan, l, steps[0], d);
      SessionsGrow(plan, Advance(plan, l, steps[0]), steps[1..], d);
      AdvanceSettles(plan, l, steps[0], d);
      SessionsSettle(plan, Advance(plan, l, steps[0]), steps[1..], d);
    }
  }

  lemma DoneHasShown(n: Node, runs: seq<JobRun>, stamp: Option<string>)
    requires n.machine.Tsk? && TR.TskInv(n) && TaskInv(n, runs, stamp) && n.status.Done?
    ensures Late(n) && (Capturing(n) ==> InJob(n))
  {
  }

  /** What a build had produced, if it has a key to be found by. */
  predicate KeyedBuild(runs: seq<JobRun>) {
    runs != [] && runs[|runs| - 1].keyed && !runs[|runs| - 1].hit && runs[|runs| - 1].out.Some?
  }

  lemma SettlesElsewhere(n: Node, runs: seq<JobRun>, stamp: Option<string>)
    requires n.machine.Tsk? && TR.TskInv(n) && TaskInv(n, runs, stamp) && n.status.Done?
    ensures Settles(n, runs, stamp) != stamp <==> Capturing(n) && KeyedBuild(runs)
  {
    DoneHasShown(n, runs, stamp);
    if Capturing(n) {
      assert ToCapture(Left(n));
      if Left(n)[0].out.Some? { OutIsNoKey("", Left(n)[0].out.value); }
    }
  }

  /** `t` is about to make its key, and `d`, upstream of it, shows as done. */
  predicate Reading(plan: Plan, l: Ledger, t: Name, d: Name) {
    && t in l.w.nodes && d in l.w.nodes && t in plan.deps && d in plan.deps[t]
    && Enabled(plan, l.w, DoNext(t, Nothing))
    && l.w.nodes[t].micro != [] && l.w.nodes[t].micro[0].ReadStamps?
    && l.w.nodes[d].machine.Tsk? && l.w.nodes[d].status.Done?
  }

  /** The session goes on until the run of `d` is over, and no other has begun. */
  predicate RunsOut(plan: Plan, l: Ledger, steps: seq<Step>, d: Name)
    requires Legal(plan, l, steps)
  {
    var l1 := EndOf(plan, l, steps);
    d in l1.w.nodes && Left(l1.w.nodes[d]) == [] && |RunsOf(l1, d)| == |RunsOf(l, d)|
  }

  /** What a task makes its key from, of an upstream task that shows as done, is
      not the stamp that one's run leaves exactly when the run is a build with
      outputs that are still to be stamped. A hit is stamped before it shows. */
  lemma ReadEarly(plan: Plan, l: Ledger, steps: seq<Step>, t: Name, d: Name, key: string)
    requires Reached(plan, l) && Reading(plan, l, t, d)
    requires Legal(plan, l, steps) && RunsOut(plan, l, steps, d)
    ensures var l1 := Advance(plan, l, Step(DoNext(t, Nothing), key));
            && t in l1.upstream
            && (if d in l1.upstream[t] then Some(l1.upstream[t][d]) else None) == StampOf(l, d)
    ensures StampOf(l, d) != StampOf(EndOf(plan, l, steps), d)
            <==> Capturing(l.w.nodes[d]) && KeyedBuild(RunsOf(l, d))
  {
    hide Reached, Inv, TR.TskInv, Next, Enabled, KeyedBuild, TaskInv;
    ReachedKeeps(plan, l);
    TaskAt(plan, l.w, d);
    var n := l.w.nodes[d];
    assert TaskInv(n, RunsOf(l, d), StampOf(l, d));
    DoneHasShown(n, RunsOf(l, d), StampOf(l, d));
    SessionsSettle(plan, l, steps, d);
    SettlesElsewhere(n, RunsOf(l, d), StampOf(l, d));
  }
}
