/** A session in which a task woken by its dependency's result makes its key from
    a stamp that is about to be replaced, and which runs that can happen with. */
module EarlyReads {
  import opened Status
  import opened Lifecycle
  import opened Supervisor
  import opened World
  import opened WorldInvariant
  import opened Stamps
  import Replay

  lemma {:induction false} LegalSnoc(plan: Plan, l: Ledger, steps: seq<Step>, st: Step)
    requires Stamps.Legal(plan, l, steps) && Enabled(plan, Stamps.EndOf(plan, l, steps).w, st.mv)
    ensures Stamps.Legal(plan, l, steps + [st])
    ensures Stamps.EndOf(plan, l, steps + [st]) == Advance(plan, Stamps.EndOf(plan, l, steps), st)
    decreases |steps|
  {
    hide Enabled, Advance;
    if steps == [] {
      assert steps + [st] == [st];
      assert [st][1..] == [];
    } else {
      assert (steps + [st])[1..] == steps[1..] + [st];
      LegalSnoc(plan, Advance(plan, l, steps[0]), steps[1..], st);
    }
  }

  /** One more step of a session. */
  lemma Go(plan: Plan, l: Ledger, mv: Move, key: string) returns (l1: Ledger)
    requires Reached(plan, l) && Enabled(plan, l.w, mv)
    ensures Reached(plan, l1) && l1 == Advance(plan, l, Step(mv, key))
  {
    hide Enabled, Advance;
    var machines: map<Name, Machine>, steps: seq<Step> :|
      && machines.Keys == plan.deps.Keys && plan.Closed()
      && (forall n <- machines :: Initial(machines[n]))
      && Stamps.Legal(plan, Opened(plan, machines), steps)
      && Stamps.EndOf(plan, Opened(plan, machines), steps) == l;
    LegalSnoc(plan, Opened(plan, machines), steps, Step(mv, key));
    l1 := Advance(plan, l, Step(mv, key));
  }

  const LIB: Name := "lib"
  const BIN: Name := "bin"

  /** Two tasks, one of which needs the other, and room for both. */
  const TwoTasks := Plan(map[LIB := [], BIN := [LIB]], 2)

  const NoDeps := Deps(None, [], [])
  const BeforeLib := Deps(Some(LIB), [0], [LIB])
  const AfterLib := Deps(None, [1], [LIB])

  function Lib(ph: TaskPhase): Node {
    NewNode(Tsk(Task(ph, [])), NoDeps).(queue := [])
  }

  function Bin(ph: TaskPhase, seen: seq<nat>, view: Deps): Node {
    NewNode(Tsk(Task(ph, seen)), view).(queue := [])
  }

  /** Where the two tasks and the board stand, and what is noted of the first. */
  datatype Scene = Scene(lib: Node, bin: Node, version: nat, free: nat, runs: seq<JobRun>, stamp: Option<string>)

  ghost predicate Shows(l: Ledger, sc: Scene) {
    && Reached(TwoTasks, l)
    && l.w.nodes.Keys == {LIB, BIN} && l.w.nodes[LIB] == sc.lib && l.w.nodes[BIN] == sc.bin
    && l.w.version == sc.version && l.w.free == sc.free && l.w.clock == 0
    && RunsOf(l, LIB) == sc.runs && StampOf(l, LIB) == sc.stamp
  }

  /** What the second task sees of the first. */
  function ViewOf(lib: Node): Deps {
    Deps(if lib.status.IsReady() then None else Some(LIB), [lib.generation], [LIB])
  }

  lemma LibTakes(l: Ledger, sc: Scene) returns (l1: Ledger)
    requires Shows(l, sc) && sc.lib.Idle() && sc.lib.queue != []
    ensures Shows(l1, sc.(lib := Take(sc.lib, FromQueue, sc.version)))
  {
    hide Reached, Take;
    l1 := Go(TwoTasks, l, TakeEvent(LIB, FromQueue), "");
  }

  lemma BinTakes(l: Ledger, sc: Scene, src: Source) returns (l1: Ledger)
    requires Shows(l, sc) && CanTake(sc.bin, src, sc.version, true, 0)
    ensures Shows(l1, sc.(bin := Take(sc.bin, src, sc.version)))
  {
    hide Reached, Take, CanTake;
    l1 := Go(TwoTasks, l, TakeEvent(BIN, src), "");
  }

  lemma LibDecides(l: Ledger, sc: Scene) returns (l1: Ledger)
    requires Shows(l, sc) && sc.lib.taken.Some?
    ensures Shows(l1, sc.(lib := Decide(sc.lib, NoDeps, 0)))
  {
    hide Reached, Decide;
    assert DepView(l.w, []) == NoDeps;
    l1 := Go(TwoTasks, l, DecideOn(LIB), "");
  }

  lemma BinDecides(l: Ledger, sc: Scene) returns (l1: Ledger)
    requires Shows(l, sc) && sc.bin.taken.Some?
    ensures Shows(l1, sc.(bin := Decide(sc.bin, ViewOf(sc.lib), 0)))
  {
    hide Reached, Decide;
    assert DepView(l.w, [LIB]) == ViewOf(sc.lib);
    l1 := Go(TwoTasks, l, DecideOn(BIN), "");
  }

  lemma LibDoes(l: Ledger, sc: Scene, ans: Answer, key: string) returns (l1: Ledger)
    requires Shows(l, sc) && CanRun(sc.lib, ans, sc.free)
    ensures var e := RunStep(sc.lib, ans, sc.free);
            Shows(l1, Scene(e.node, sc.bin, if e.ticked then sc.version + 1 else sc.version, e.free,
                            NextRuns(sc.lib, ans, sc.runs, sc.free), NextStamp(sc.lib, sc.runs, sc.stamp, key)))
  {
    hide Reached, RunStep, CanRun, NextRuns, NextStamp;
    l1 := Go(TwoTasks, l, DoNext(LIB, ans), key);
    Noted(TwoTasks, l, Step(DoNext(LIB, ans), key), LIB);
  }

  lemma BinDoes(l: Ledger, sc: Scene, ans: Answer) returns (l1: Ledger)
    requires Shows(l, sc) && CanRun(sc.bin, ans, sc.free)
    ensures var e := RunStep(sc.bin, ans, sc.free);
            Shows(l1, sc.(bin := e.node, version := if e.ticked then sc.version + 1 else sc.version, free := e.free))
  {
    hide Reached, RunStep, CanRun, NextRuns, NextStamp;
    l1 := Go(TwoTasks, l, DoNext(BIN, ans), "");
    Noted(TwoTasks, l, Step(DoNext(BIN, ans), ""), LIB);
  }

  const FreshLib := NewNode(Tsk(NewTask()), NoDeps)
  const FreshBin := NewNode(Tsk(NewTask()), BeforeLib)

  lemma Opens() returns (l: Ledger)
    ensures Shows(l, Scene(FreshLib, FreshBin, 0, 2, [], None))
  {
    var machines := map[LIB := Tsk(NewTask()), BIN := Tsk(NewTask())];
    assert StartView([]) == NoDeps;
    assert StartView([LIB]) == BeforeLib;
    l := Opened(TwoTasks, machines);
    assert Stamps.Legal(TwoTasks, l, []) && Stamps.EndOf(TwoTasks, l, []) == l;
  }

  const WaitingBin := Bin(TaskAtGate(WaitingOnDeps), [], BeforeLib).(status := Status.Waiting(LIB), tick := 0)

  /** The second task waits for the first. */
  lemma BinWaits(l: Ledger) returns (l1: Ledger)
    requires Shows(l, Scene(FreshLib, FreshBin, 0, 2, [], None))
    ensures Shows(l1, Scene(FreshLib, WaitingBin, 1, 2, [], None))
  {
    hide Shows;
    var sc := Scene(FreshLib, FreshBin, 0, 2, [], None);
    l1 := BinTakes(l, sc, FromQueue);
    sc := sc.(bin := Take(sc.bin, FromQueue, 0));
    l1 := BinDecides(l1, sc);
    sc := sc.(bin := Decide(sc.bin, BeforeLib, 0));
    l1 := BinDoes(l1, sc, Nothing);
    sc := sc.(bin := RunStep(sc.bin, Nothing, 2).node);
    l1 := BinDoes(l1, sc, Nothing);
    assert RunStep(sc.bin, Nothing, 2) == Effect(WaitingBin, 2, true);
  }

  const LibStarting := Lib(TaskRunning).(acts := [SetStatus(Status.Running), RunJob], tick := 1)

  function LibAtGate(acts: seq<Action>, queue: seq<Event>): Node {
    Lib(TaskAtGate(Draining)).(acts := acts, queue := queue, tick := 1)
  }

  lemma LibOpens()
    ensures Decide(Take(FreshLib, FromQueue, 1), NoDeps, 0) == LibAtGate([DrainControl], [])
    ensures RunStep(LibAtGate([DrainControl], []), Nothing, 2) == Effect(LibAtGate([], [Drained(false)]), 2, false)
    ensures Decide(Take(LibAtGate([], [Drained(false)]), FromQueue, 1), NoDeps, 0) == LibStarting
  {
    assert [Begin][1..] == [] && [Drained(false)][1..] == [];
  }

  lemma LibStarts(l: Ledger) returns (l1: Ledger)
    requires Shows(l, Scene(FreshLib, WaitingBin, 1, 2, [], None))
    ensures Shows(l1, Scene(LibStarting, WaitingBin, 1, 2, [], None))
  {
    LibOpens();
    hide Shows, Decide, RunStep;
    var sc := Scene(FreshLib, WaitingBin, 1, 2, [], None);
    l1 := LibTakes(l, sc);
    sc := sc.(lib := Take(FreshLib, FromQueue, 1));
    l1 := LibDecides(l1, sc);
    sc := sc.(lib := LibAtGate([DrainControl], []));
    l1 := LibDoes(l1, sc, Nothing, "");
    sc := sc.(lib := LibAtGate([], [Drained(false)]));
    l1 := LibTakes(l1, sc);
    sc := sc.(lib := Take(sc.lib, FromQueue, 1));
    l1 := LibDecides(l1, sc);
  }

  function LibIn(status: Status, micro: seq<Micro>): Node {
    Lib(TaskRunning).(status := status, micro := micro, tick := 1)
  }

  const BUILDING := JobRun(true, false, None)
  const ToBuild: seq<Micro> := [JobSlot, Publish(Status.Running), JobSpawn]

  /** It shows that it runs, makes its key, and looks for a slot. */
  lemma LibKeys(l: Ledger, key: string) returns (l1: Ledger)
    requires Shows(l, Scene(LibStarting, WaitingBin, 1, 2, [], None))
    ensures Shows(l1, Scene(LibIn(Status.Running, ToBuild), WaitingBin, 2, 2, [BUILDING], Some(Replay.KeyStamp(key))))
  {
    hide Shows;
    var sc := Scene(LibStarting, WaitingBin, 1, 2, [], None);
    l1 := LibDoes(l, sc, Nothing, "");
    assert RunStep(sc.lib, Nothing, 2).node == LibIn(Status.Running, [Bump]).(acts := [RunJob]);
    sc := sc.(lib := LibIn(Status.Running, [Bump]).(acts := [RunJob]));
    l1 := LibDoes(l1, sc, Nothing, "");
    assert RunStep(sc.lib, Nothing, 2) == Effect(LibIn(Status.Running, []).(acts := [RunJob]), 2, true);
    sc := sc.(lib := LibIn(Status.Running, []).(acts := [RunJob]), version := 2);
    l1 := LibDoes(l1, sc, JobGoes(Build(true)), "");
    var steps := [ReadStamps, SeedStamp] + ToBuild;
    assert RunStep(sc.lib, JobGoes(Build(true)), 2) == Effect(LibIn(Status.Running, steps), 2, false);
    assert NextRuns(sc.lib, JobGoes(Build(true)), [], 2) == [BUILDING];
    sc := sc.(lib := LibIn(Status.Running, steps), runs := [BUILDING]);
    l1 := LibDoes(l1, sc, Nothing, "");
    assert steps[1..] == [SeedStamp] + ToBuild;
    sc := sc.(lib := LibIn(Status.Running, [SeedStamp] + ToBuild));
    l1 := LibDoes(l1, sc, Nothing, key);
    assert ([SeedStamp] + ToBuild)[1..] == ToBuild;
  }

  function DoneLib(hash: string): Node {
    LibIn(Status.Done(false, 0), [StampOutput(Some(hash)), FreeSlot, JobReply(0, false)]).(generation := 1, slot := true)
  }

  function Built(hash: string): JobRun {
    JobRun(true, false, Some(hash))
  }

  function ToShow(hash: string): seq<Micro> {
    [Publish(Status.Done(false, 0)), StampOutput(Some(hash)), FreeSlot, JobReply(0, false)]
  }

  const Slotted := LibIn(Status.Running, [Publish(Status.Running), JobSpawn]).(slot := true)
  const Spawning := LibIn(Status.Running, [JobSpawn]).(slot := true)
  const Building := LibIn(Status.Running, [JobWait]).(slot := true, child := true)

  lemma LibWorks(hash: string)
    ensures RunStep(LibIn(Status.Running, ToBuild), Nothing, 2) == Effect(Slotted, 1, false)
    ensures RunStep(Slotted, Nothing, 1) == Effect(Spawning, 1, false)
    ensures RunStep(Spawning, Nothing, 1) == Effect(Building, 1, false)
    ensures var e := RunStep(Building, JobEnds(0, Status.Done(false, 0), Some(hash)), 1);
            e == Effect(LibIn(Status.Running, ToShow(hash)).(slot := true), 1, false)
  {
    assert ToBuild[1..] == Slotted.micro;
    assert Slotted.micro[1..] == [JobSpawn];
    assert [JobSpawn][1..] == [] && [JobWait] + [] == [JobWait];
    assert [JobWait][1..] == [] && ToShow(hash) + [] == ToShow(hash);
  }

  /** It builds. */
  lemma LibBuilds(l: Ledger, hash: string, stamp: Option<string>) returns (l1: Ledger)
    requires Shows(l, Scene(LibIn(Status.Running, ToBuild), WaitingBin, 2, 2, [BUILDING], stamp))
    ensures Shows(l1, Scene(LibIn(Status.Running, ToShow(hash)).(slot := true), WaitingBin, 2, 1, [Built(hash)], stamp))
  {
    hide Shows, RunStep;
    var sc := Scene(LibIn(Status.Running, ToBuild), WaitingBin, 2, 2, [BUILDING], stamp);
    LibWorks(hash);
    l1 := LibDoes(l, sc, Nothing, "");
    sc := sc.(lib := Slotted, free := 1);
    l1 := LibDoes(l1, sc, Nothing, "");
    sc := sc.(lib := Spawning);
    l1 := LibDoes(l1, sc, Nothing, "");
    sc := sc.(lib := Building);
    l1 := LibDoes(l1, sc, JobEnds(0, Status.Done(false, 0), Some(hash)), "");
    assert NextRuns(sc.lib, JobEnds(0, Status.Done(false, 0), Some(hash)), [BUILDING], 1) == [Built(hash)];
  }

  /** It shows its result; what it left is still to be stamped. */
  lemma LibShows(l: Ledger, hash: string, runs: seq<JobRun>, stamp: Option<string>) returns (l1: Ledger)
    requires Shows(l, Scene(LibIn(Status.Running, ToShow(hash)).(slot := true), WaitingBin, 2, 1, runs, stamp))
    ensures Shows(l1, Scene(DoneLib(hash), WaitingBin, 3, 1, runs, stamp))
  {
    hide Shows;
    var sc := Scene(LibIn(Status.Running, ToShow(hash)).(slot := true), WaitingBin, 2, 1, runs, stamp);
    l1 := LibDoes(l, sc, Nothing, "");
    var rest := [StampOutput(Some(hash)), FreeSlot, JobReply(0, false)];
    assert ToShow(hash)[1..] == rest;
    var shown := DoneLib(hash).(micro := [Bump] + rest);
    assert RunStep(sc.lib, Nothing, 1) == Effect(shown, 1, false);
    sc := sc.(lib := shown);
    l1 := LibDoes(l1, sc, Nothing, "");
    assert ([Bump] + rest)[1..] == rest;
    assert RunStep(sc.lib, Nothing, 1) == Effect(DoneLib(hash), 1, true);
  }

  const BinStarting := Bin(TaskRunning, [1], AfterLib).(
                         status := Status.Waiting(LIB), acts := [SetStatus(Status.Running), RunJob], tick := 3)

  function BinAtGate(acts: seq<Action>, queue: seq<Event>): Node {
    Bin(TaskAtGate(Draining), [], AfterLib).(status := Status.Waiting(LIB), acts := acts, queue := queue, tick := 3)
  }

  lemma BinOpens()
    ensures Decide(Take(WaitingBin, BoardTick, 3), AfterLib, 0) == BinAtGate([DrainControl], [])
    ensures RunStep(BinAtGate([DrainControl], []), Nothing, 1) == Effect(BinAtGate([], [Drained(false)]), 1, false)
    ensures Decide(Take(BinAtGate([], [Drained(false)]), FromQueue, 3), AfterLib, 0) == BinStarting
  {
    assert [Drained(false)][1..] == [];
  }

  /** The board tells the second task, which passes its gate. */
  lemma BinWakes(l: Ledger, hash: string, runs: seq<JobRun>, stamp: Option<string>) returns (l1: Ledger)
    requires Shows(l, Scene(DoneLib(hash), WaitingBin, 3, 1, runs, stamp))
    ensures Shows(l1, Scene(DoneLib(hash), BinStarting, 3, 1, runs, stamp))
  {
    BinOpens();
    hide Shows, Decide, RunStep;
    var sc := Scene(DoneLib(hash), WaitingBin, 3, 1, runs, stamp);
    assert ViewOf(sc.lib) == AfterLib;
    l1 := BinTakes(l, sc, BoardTick);
    sc := sc.(bin := Take(WaitingBin, BoardTick, 3));
    l1 := BinDecides(l1, sc);
    sc := sc.(bin := BinAtGate([DrainControl], []));
    l1 := BinDoes(l1, sc, Nothing);
    sc := sc.(bin := BinAtGate([], [Drained(false)]));
    l1 := BinTakes(l1, sc, FromQueue);
    sc := sc.(bin := Take(sc.bin, FromQueue, 3));
    l1 := BinDecides(l1, sc);
  }

  const ShowsRun := BinStarting.(status := Status.Running, micro := [Bump], acts := [RunJob])
  const ShowedRun := ShowsRun.(micro := [])

  function MakingKey(): Node {
    ShowsRun.(micro := [ReadStamps, SeedStamp] + ToBuild, acts := [])
  }

  lemma BinRuns()
    ensures RunStep(BinStarting, Nothing, 1) == Effect(ShowsRun, 1, false)
    ensures RunStep(ShowsRun, Nothing, 1) == Effect(ShowedRun, 1, true)
    ensures RunStep(ShowedRun, JobGoes(Build(true)), 1) == Effect(MakingKey(), 1, false)
  {
    assert BinStarting.acts == [SetStatus(Status.Running)] + [RunJob];
    assert [ReadStamps, SeedStamp] + ToBuild == JobSteps(Build(true));
  }

  /** And is about to make its key. */
  lemma BinReads(l: Ledger, hash: string, runs: seq<JobRun>, stamp: Option<string>) returns (l1: Ledger)
    requires Shows(l, Scene(DoneLib(hash), BinStarting, 3, 1, runs, stamp))
    ensures Reached(TwoTasks, l1) && RunsOf(l1, LIB) == runs && StampOf(l1, LIB) == stamp
    ensures l1.w.nodes.Keys == {LIB, BIN} && l1.w.nodes[LIB] == DoneLib(hash)
    ensures Reading(TwoTasks, l1, BIN, LIB)
  {
    hide Shows, RunStep, Reached;
    var sc := Scene(DoneLib(hash), BinStarting, 3, 1, runs, stamp);
    BinRuns();
    l1 := BinDoes(l, sc, Nothing);
    sc := sc.(bin := ShowsRun);
    l1 := BinDoes(l1, sc, Nothing);
    sc := sc.(bin := ShowedRun, version := 4);
    l1 := BinDoes(l1, sc, JobGoes(Build(true)));
    AboutToRead(l1, sc.(bin := MakingKey()));
  }

  lemma AboutToRead(l: Ledger, sc: Scene)
    requires Shows(l, sc) && sc.bin == MakingKey()
    requires sc.lib.machine.Tsk? && sc.lib.status.Done?
    ensures Reached(TwoTasks, l) && RunsOf(l, LIB) == sc.runs && StampOf(l, LIB) == sc.stamp
    ensures l.w.nodes.Keys == {LIB, BIN} && l.w.nodes[LIB] == sc.lib
    ensures Reading(TwoTasks, l, BIN, LIB)
  {
    hide Reached;
    assert MakingKey().micro[0] == ReadStamps;
    assert CanRun(sc.bin, Nothing, sc.free);
  }

  const Finish: seq<Step> := [Step(DoNext(LIB, Nothing), ""), Step(DoNext(LIB, Nothing), ""), Step(DoNext(LIB, Nothing), "")]

  /** The first task's run goes on to its end. */
  lemma LibFinishes(l: Ledger, hash: string)
    requires Reached(TwoTasks, l) && l.w.nodes.Keys == {LIB, BIN} && l.w.nodes[LIB] == DoneLib(hash)
    requires RunsOf(l, LIB) == [Built(hash)]
    ensures Stamps.Legal(TwoTasks, l, Finish) && RunsOut(TwoTasks, l, Finish, LIB)
  {
    hide Reached, On, TaskOn, RunAction;
    var l1 := Advance(TwoTasks, l, Finish[0]);
    assert l1.w.nodes[LIB].micro == [FreeSlot, JobReply(0, false)];
    var l2 := Advance(TwoTasks, l1, Finish[1]);
    assert l2.w.nodes[LIB].micro == [JobReply(0, false)];
    var l3 := Advance(TwoTasks, l2, Finish[2]);
    assert l3.w.nodes[LIB].micro == [];
    assert RunsOf(l3, LIB) == [Built(hash)];
    assert Finish[1..] == [Finish[1], Finish[2]] && Finish[1..][1..] == [Finish[2]] && Finish[1..][1..][1..] == [];
    assert Stamps.Legal(TwoTasks, l3, []);
    assert Stamps.Legal(TwoTasks, l2, Finish[1..][1..]) && Stamps.EndOf(TwoTasks, l2, Finish[1..][1..]) == l3;
    assert Stamps.Legal(TwoTasks, l1, Finish[1..]) && Stamps.EndOf(TwoTasks, l1, Finish[1..]) == l3;
  }

  /** For any output a build may leave: a session in which what a dependent makes
      its key from, once it has been woken by the result, is not what the build
      leaves. */
  lemma CanReadEarly(key: string, hash: string) returns (l: Ledger)
    ensures Reached(TwoTasks, l) && Reading(TwoTasks, l, BIN, LIB)
    ensures Stamps.Legal(TwoTasks, l, Finish) && RunsOut(TwoTasks, l, Finish, LIB)
    ensures RunsOf(l, LIB) == [Built(hash)]
    ensures StampOf(l, LIB) == Some(Replay.KeyStamp(key))
    ensures StampOf(l, LIB) != StampOf(Stamps.EndOf(TwoTasks, l, Finish), LIB)
  {
    hide Reached, Reading, Advance, Enabled, RunsOut;
    l := Opens();
    l := BinWaits(l);
    l := LibStarts(l);
    l := LibKeys(l, key);
    l := LibBuilds(l, hash, Some(Replay.KeyStamp(key)));
    l := LibShows(l, hash, [Built(hash)], Some(Replay.KeyStamp(key)));
    l := BinWakes(l, hash, [Built(hash)], Some(Replay.KeyStamp(key)));
    l := BinReads(l, hash, [Built(hash)], Some(Replay.KeyStamp(key)));
    LibFinishes(l, hash);
    Stamps.ReadEarly(TwoTasks, l, Finish, BIN, LIB, "");
    assert Capturing(DoneLib(hash));
  }

  /** Some dependent reads a stamp that such a run, already showing as done, is
      yet to replace. */
  ghost predicate CanBeReadEarly(run: JobRun) {
    exists plan: Plan, l: Ledger, steps: seq<Step>, t: Name, d: Name ::
      && Reached(plan, l) && Reading(plan, l, t, d)
      && Stamps.Legal(plan, l, steps) && RunsOut(plan, l, steps, d)
      && RunsOf(l, d) != [] && RunsOf(l, d)[|RunsOf(l, d)| - 1] == run
      && StampOf(l, d) != StampOf(Stamps.EndOf(plan, l, steps), d)
  }

  /** That can happen with exactly the builds that have a key and leave outputs:
      never with a hit, nor with a run that produced nothing. */
  lemma EarlyExactly(run: JobRun)
    ensures CanBeReadEarly(run) <==> run.keyed && !run.hit && run.out.Some?
  {
    hide Reached, Reading, Advance, Enabled, RunsOut;
    if CanBeReadEarly(run) {
      var plan: Plan, l: Ledger, steps: seq<Step>, t: Name, d: Name :|
        && Reached(plan, l) && Reading(plan, l, t, d)
        && Stamps.Legal(plan, l, steps) && RunsOut(plan, l, steps, d)
        && RunsOf(l, d) != [] && RunsOf(l, d)[|RunsOf(l, d)| - 1] == run
        && StampOf(l, d) != StampOf(Stamps.EndOf(plan, l, steps), d);
      Stamps.ReadEarly(plan, l, steps, t, d, "");
    }
    if run.keyed && !run.hit && run.out.Some? {
      var l := CanReadEarly("", run.out.value);
      assert run == Built(run.out.value);
      assert RunsOf(l, LIB)[|RunsOf(l, LIB)| - 1] == run;
    }
  }
}
