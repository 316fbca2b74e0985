/** Timers over every session: one fires no earlier than it was last asked for, and
    not once it has been cancelled. */
module TimersKept {
  import opened Status
  import opened Lifecycle
  import opened Supervisor
  import opened World

  /** What was done about a node's timers, in order. */
  datatype Deed = Asked(timer: Timer, at: Instant) | Cancelled(timer: Timer) | Fired(timer: Timer)

  /** When a timer is due, by the newest thing done about it. */
  function DueAt(deeds: seq<Deed>, t: Timer): Option<Instant> {
    if deeds == [] then None
    else
      var d := deeds[|deeds| - 1];
      if d.timer != t then DueAt(deeds[..|deeds| - 1], t)
      else if d.Asked? then Some(d.at) else None
  }

  /** What a move does about the timers of its node. */
  function DeedsOf(w: World, mv: Move, name: Name): seq<Deed>
    requires name in w.nodes
  {
    var n := w.nodes[name];
    if mv.DoNext? && mv.node == name && n.micro == [] && n.acts != [] then
      match n.acts[0]
      case SetTimer(t, at) => [Asked(t, at)]
      case CancelTimer(t) => [Cancelled(t)]
      case _ => []
    else if mv.TakeEvent? && mv.node == name && mv.src.FromTimer? then [Fired(mv.src.timer)]
    else []
  }

  function Deeds(plan: Plan, w: World, moves: seq<Move>, name: Name): seq<Deed>
    requires Legal(plan, w, moves) && name in w.nodes
    decreases |moves|
  {
    if moves == [] then []
    else
      NamesStay(plan, w, moves[0], name);
      DeedsOf(w, moves[0], name) + Deeds(plan, Next(plan, w, moves[0]), moves[1..], name)
  }

  lemma NamesStay(plan: Plan, w: World, mv: Move, name: Name)
    requires Enabled(plan, w, mv) && name in w.nodes
    ensures name in Next(plan, w, mv).nodes
  {
    hide Take, Decide, RunStep, CanTake, CanRun;
  }

  predicate Kept(timers: map<Timer, Instant>, deeds: seq<Deed>) {
    forall t: Timer :: if t in timers then DueAt(deeds, t) == Some(timers[t]) else DueAt(deeds, t).None?
  }

  lemma ActionTimers(n: Node, a: Action, ans: Answer, free: nat)
    requires a.Probe? ==> ans.ProbeSays?
    requires a.ReadReloadCounters? ==> ans.CountersSay?
    requires a.RunJob? ==> ans.JobGoes?
    ensures var m := RunAction(n, a, ans, free).node;
            m.timers == match a
                        case SetTimer(t, at) => n.timers[t := at]
                        case CancelTimer(t) => n.timers - {t}
                        case _ => n.timers
  {
    hide RunRequest;
    if IsRequest(a) { RequestTimers(n, a, ans, free); }
  }

  lemma RequestTimers(n: Node, a: Action, ans: Answer, free: nat)
    requires IsRequest(a)
    requires a.Probe? ==> ans.ProbeSays?
    requires a.ReadReloadCounters? ==> ans.CountersSay?
    ensures RunRequest(n, a, ans, free).node.timers == n.timers
  {
  }

  lemma MicroTimers(n: Node, ans: Answer, free: nat)
    requires n.micro != [] && Answers(n, ans, free)
    ensures RunMicro(n, ans, free).node.timers == n.timers
  {
  }

  lemma OtherTimers(plan: Plan, w: World, mv: Move, name: Name)
    requires Enabled(plan, w, mv) && name in w.nodes && !(mv.DoNext? && mv.node == name)
    ensures name in Next(plan, w, mv).nodes
    ensures Next(plan, w, mv).nodes[name].timers
         == if mv.TakeEvent? && mv.node == name && mv.src.FromTimer? then w.nodes[name].timers - {mv.src.timer}
            else w.nodes[name].timers
  {
    hide On, TaskOn, DepView, CanTake, CanRun, RunStep;
  }

  lemma MoveKeeps(plan: Plan, w: World, mv: Move, name: Name, deeds: seq<Deed>)
    requires Enabled(plan, w, mv) && name in w.nodes && Kept(w.nodes[name].timers, deeds)
    ensures name in Next(plan, w, mv).nodes
    ensures Kept(Next(plan, w, mv).nodes[name].timers, deeds + DeedsOf(w, mv, name))
  {
    NamesStay(plan, w, mv, name);
    var n, more := w.nodes[name], DeedsOf(w, mv, name);
    if more == [] { assert deeds + more == deeds; } else { assert (deeds + more)[..|deeds + more| - 1] == deeds; }
    if mv.DoNext? && mv.node == name {
      hide RunAction, RunMicro;
      if n.micro == [] { ActionTimers(n.(acts := n.acts[1..]), n.acts[0], mv.ans, w.free); } else { MicroTimers(n, mv.ans, w.free); }
    } else {
      OtherTimers(plan, w, mv, name);
      hide Next;
    }
  }

  lemma {:induction false} RunsKeep(plan: Plan, w: World, moves: seq<Move>, name: Name, deeds: seq<Deed>)
    requires Legal(plan, w, moves) && name in w.nodes && Kept(w.nodes[name].timers, deeds)
    ensures name in EndOf(plan, w, moves).nodes
    ensures Kept(EndOf(plan, w, moves).nodes[name].timers, deeds + Deeds(plan, w, moves, name))
    decreases |moves|
  {
    hide Next, Enabled, Kept, DeedsOf;
    if moves == [] {
      assert deeds + [] == deeds;
    } else {
      var w1, more := Next(plan, w, moves[0]), DeedsOf(w, moves[0], name);
      MoveKeeps(plan, w, moves[0], name, deeds);
      RunsKeep(plan, w1, moves[1..], name, deeds + more);
      assert (deeds + more) + Deeds(plan, w1, moves[1..], name) == deeds + (more + Deeds(plan, w1, moves[1..], name));
    }
  }

  /** In every session: a timer fires only when it was last asked for, not cancelled
      since nor fired, and its time has come; one that was asked for stays until then. */
  lemma FiresWhenAsked(plan: Plan, machines: map<Name, Machine>, moves: seq<Move>, name: Name, t: Timer)
    requires machines.Keys == plan.deps.Keys && name in machines
    requires Legal(plan, Start(plan, machines), moves)
    ensures var w := EndOf(plan, Start(plan, machines), moves);
            var due := DueAt(Deeds(plan, Start(plan, machines), moves, name), t);
            && name in w.nodes
            && (t in w.nodes[name].timers <==> due.Some?)
            && (Enabled(plan, w, TakeEvent(name, FromTimer(t))) ==> due.Some? && due.value <= w.clock)
            && (due.Some? && due.value <= w.clock && w.nodes[name].Idle() && w.nodes[name].queue == [] ==>
                  exists u :: Enabled(plan, w, TakeEvent(name, FromTimer(u))))
  {
    var w0 := Start(plan, machines);
    assert [] + Deeds(plan, w0, moves, name) == Deeds(plan, w0, moves, name);
    hide Next, Enabled, Legal, EndOf, Deeds;
    RunsKeep(plan, w0, moves, name, []);
    KeptFires(plan, EndOf(plan, w0, moves), name, t, Deeds(plan, w0, moves, name));
  }

  lemma KeptFires(plan: Plan, w: World, name: Name, t: Timer, deeds: seq<Deed>)
    requires name in w.nodes && name in plan.deps && Kept(w.nodes[name].timers, deeds)
    ensures var due := DueAt(deeds, t);
            && (t in w.nodes[name].timers <==> due.Some?)
            && (Enabled(plan, w, TakeEvent(name, FromTimer(t))) ==> due.Some? && due.value <= w.clock)
            && (due.Some? && due.value <= w.clock && w.nodes[name].Idle() && w.nodes[name].queue == [] ==>
                  exists u :: Enabled(plan, w, TakeEvent(name, FromTimer(u))))
  {
    hide DueAt;
    var n := w.nodes[name];
    if t in n.timers && n.timers[t] <= w.clock && n.Idle() && n.queue == [] {
      var u := Soonest(n.timers, t);
      assert Enabled(plan, w, TakeEvent(name, FromTimer(u)));
    }
  }

  /** Of several timers, one is due first. */
  lemma {:induction false} Soonest(timers: map<Timer, Instant>, t: Timer) returns (u: Timer)
    requires t in timers
    ensures u in timers && forall v <- timers :: timers[u] <= timers[v]
    decreases |timers|
  {
    var rest := timers - {t};
    u := t;
    assert forall x <- timers :: x == t || x in rest;
    if rest != map[] {
      var v :| v in rest;
      assert |rest.Keys| == |timers.Keys| - 1 by { assert rest.Keys == timers.Keys - {t}; }
      v := Soonest(rest, v);
      u := if timers[v] < timers[t] then v else t;
      forall x <- timers ensures timers[u] <= timers[x] {
        if x != t { assert x in rest; }
      }
    }
  }
}
