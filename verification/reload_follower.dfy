/** Following a process that rebuilds itself by polling counters of its output:
    whatever it prints between two looks, no rebuild is missed. */
module ReloadFollower {
  import opened Status
  import opened Lifecycle
  import CL = CrashLoops

  // ------------------------------------------------------------------
  // Output lines and the counters kept of them

  /** What a line of output says, patterns already matched. */
  datatype Line = Line(
    building: bool,   // starts a build: earlier diagnostics are stale
    reload: bool,     // a rebuild starting
    ready: bool,      // ready
    failed: bool,     // a rebuild failed
    errors: nat)      // errors the line adds

  const NoOutput := ReloadCounters(0, 0, 0, 0, 0)

  /** The counters after one more line. On a line that matches both patterns the
      reload counts first, so it is answered at once. */
  function Ingest(c: ReloadCounters, l: Line): ReloadCounters {
    var c1 := if l.building then c.(errors := 0) else c;
    var c2 :=
      if l.reload then
        c1.(reloadMatches := c1.reloadMatches + 1, readyMatchesAtReload := c1.readyMatches, failures := 0, errors := 0)
      else c1;
    var c3 := if l.ready then c2.(readyMatches := c2.readyMatches + 1, failures := 0) else c2;
    var c4 := if l.failed then c3.(failures := c3.failures + 1) else c3;
    c4.(errors := c4.errors + l.errors)
  }

  function Count(h: seq<Line>): ReloadCounters {
    if h == [] then NoOutput else Ingest(Count(h[..|h|-1]), h[|h|-1])
  }

  /** The newest reload line, if there is one, was answered by a ready line. */
  predicate Answered(h: seq<Line>) {
    (forall i | 0 <= i < |h| :: !h[i].reload) || ReadyAfterReloads(h)
  }

  predicate ReadyAfterReloads(h: seq<Line>) {
    exists j :: 0 <= j < |h| && h[j].ready && forall i | j < i < |h| :: !h[i].reload
  }

  /** Every failed line was followed by a reload or a ready line. */
  predicate NoFailureStands(h: seq<Line>) {
    forall f | 0 <= f < |h| && h[f].failed :: MarkedAfter(h, f)
  }

  predicate MarkedAfter(h: seq<Line>, f: nat) {
    exists m :: f < m < |h| && (h[m].reload || h[m].ready)
  }

  /** Every line with errors was followed by the start of a build or a reload. */
  predicate NoErrorStands(h: seq<Line>) {
    forall e | 0 <= e < |h| && h[e].errors > 0 :: BuiltAfter(h, e)
  }

  predicate BuiltAfter(h: seq<Line>, e: nat) {
    exists m :: e < m < |h| && (h[m].building || h[m].reload)
  }

  predicate Reloads(h: seq<Line>) {
    exists i :: 0 <= i < |h| && h[i].reload
  }

  /** What the counters mean, in terms of the lines. */
  lemma {:induction false} CountMeans(h: seq<Line>)
    ensures Count(h).reloadMatches > 0 <==> Reloads(h)
    ensures Count(h).readyMatches > Count(h).readyMatchesAtReload <==> ReadyAfterReloads(h)
    ensures Count(h).readyMatches >= Count(h).readyMatchesAtReload
    ensures Count(h).failures == 0 <==> NoFailureStands(h)
    ensures Count(h).errors == 0 <==> NoErrorStands(h)
    decreases |h|
  {
    if h != [] {
      var p, l := h[..|h|-1], h[|h|-1];
      CountMeans(p);
      assert h == p + [l];
      ReloadsSnoc(p, l);
      ReadySnoc(p, l);
      FailureSnoc(p, l);
      ErrorSnoc(p, l);
    }
  }

  lemma ReloadsSnoc(p: seq<Line>, l: Line)
    ensures Reloads(p + [l]) <==> Reloads(p) || l.reload
  {
    if i :| 0 <= i < |p| && p[i].reload { assert (p + [l])[i].reload; }
    if l.reload { assert (p + [l])[|p|].reload; }
  }

  lemma ReadySnoc(p: seq<Line>, l: Line)
    ensures ReadyAfterReloads(p + [l]) <==> l.ready || (ReadyAfterReloads(p) && !l.reload)
  {
    var h := p + [l];
    if l.ready { assert h[|p|].ready; }
    if !l.reload {
      if j :| 0 <= j < |p| && p[j].ready && forall i | j < i < |p| :: !p[i].reload {
        assert h[j].ready && forall i | j < i < |h| :: !h[i].reload;
      }
    }
    if j :| 0 <= j < |h| && h[j].ready && forall i | j < i < |h| :: !h[i].reload {
      if j < |p| {
        assert !h[|p|].reload;
        assert p[j].ready && forall i | j < i < |p| :: !p[i].reload by {
          forall i | j < i < |p| ensures !p[i].reload { assert !h[i].reload; }
        }
      }
    }
  }

  lemma FailureSnoc(p: seq<Line>, l: Line)
    ensures NoFailureStands(p + [l]) <==> !l.failed && (l.reload || l.ready || NoFailureStands(p))
  {
    var h := p + [l];
    if l.failed { assert h[|p|].failed && !MarkedAfter(h, |p|); }
    forall f | 0 <= f < |p| ensures MarkedAfter(h, f) <==> l.reload || l.ready || MarkedAfter(p, f) {
      if l.reload || l.ready { assert h[|p|].reload || h[|p|].ready; }
      if m :| f < m < |p| && (p[m].reload || p[m].ready) { assert h[m].reload || h[m].ready; }
      if m :| f < m < |h| && (h[m].reload || h[m].ready) { if m < |p| { assert p[m].reload || p[m].ready; } }
    }
    assert forall f | 0 <= f < |p| :: h[f].failed == p[f].failed;
  }

  lemma ErrorSnoc(p: seq<Line>, l: Line)
    ensures NoErrorStands(p + [l]) <==> l.errors == 0 && (l.building || l.reload || NoErrorStands(p))
  {
    var h := p + [l];
    if l.errors > 0 { assert h[|p|].errors > 0 && !BuiltAfter(h, |p|); }
    forall e | 0 <= e < |p| ensures BuiltAfter(h, e) <==> l.building || l.reload || BuiltAfter(p, e) {
      if l.building || l.reload { assert h[|p|].building || h[|p|].reload; }
      if m :| e < m < |p| && (p[m].building || p[m].reload) { assert h[m].building || h[m].reload; }
      if m :| e < m < |h| && (h[m].building || h[m].reload) { if m < |p| { assert p[m].building || p[m].reload; } }
    }
    assert forall e | 0 <= e < |p| :: h[e].errors == p[e].errors;
  }

  /** Counters only grow, and a count of reloads that stands still means no reload came. */
  lemma {:induction false} CountGrows(h: seq<Line>, a: nat, b: nat)
    requires a <= b <= |h|
    ensures Count(h[..a]).reloadMatches <= Count(h[..b]).reloadMatches
    ensures Count(h[..a]).readyMatches <= Count(h[..b]).readyMatches
    ensures Count(h[..a]).reloadMatches == Count(h[..b]).reloadMatches ==>
              Count(h[..a]).readyMatchesAtReload == Count(h[..b]).readyMatchesAtReload
    ensures Count(h[..a]).reloadMatches == Count(h[..b]).reloadMatches <==> forall i | a <= i < b :: !h[i].reload
    decreases b - a
  {
    if a < b {
      assert h[..b][..b-1] == h[..b-1];
      CountGrows(h, a, b - 1);
    }
  }

  // ------------------------------------------------------------------
  // The follower

  /** A followed process: what it has printed, its machine, the look whose answer
      is on its way, and what dependents have been shown. */
  datatype Follower = Follower(
    h: seq<Line>,
    s: Service,
    reading: Option<nat>,     // lines printed when the counters in flight were read
    told: nat,                // lines printed at the last reading the machine was told
    looks: nat,               // readings it was told
    probing: Probing,         // the probe the last of them asked for
    since: Instant,           // when the newest rebuild was first told
    at: Instant,              // when the machine last decided
    shown: seq<Status>)

  datatype Probing = NotAsked | Asked | Passed | Refused

  /** Where the probe of a reading stands after one more event. */
  function ProbingAfter(p: Probing, ev: Event, out: seq<Action>): Probing {
    if ev.Counters? then
      if Probe(ForReload) in out then Asked else NotAsked
    else if p.Asked? && ev.Probed? && ev.purpose.ForReload? then
      if ev.result.Pass? then Passed else Refused
    else p
  }

  datatype Step =
    | Print(line: Line)
    | Look
    | Tell(now: Instant)
    | Reply(result: ProbeResult, at: Instant)

  /** Settings of a service that is followed and not probed for liveness. */
  predicate Followed(cfg: ServiceConfig) {
    cfg.Valid() && cfg.followsReloads && cfg.liveness.None?
  }

  function Begin(s: Service, ready: bool, h: seq<Line>): (f: Follower)
    ensures Followed(s.cfg) ==> FollowInv(f)
  {
    Follower(h, s.(phase := InService(Unknown(ready), None, None)), None, 0, 0, NotAsked, 0, 0,
             [if ready then Status.Healthy else Status.Unhealthy])
  }

  /** The statuses an answer publishes, in order. */
  function Shown(out: seq<Action>): seq<Status> {
    if out == [] then []
    else (if out[0].SetStatus? then [out[0].status] else []) + Shown(out[1..])
  }

  const Nothing := Deps(None, [], [])

  predicate May(f: Follower, st: Step) {
    && f.s.phase.InService?
    && match st
       case Print(_) => true
       case Look => f.reading.None? && !f.probing.Asked?
       case Tell(_) => f.reading.Some?
       case Reply(_, _) => f.reading.None? && f.probing.Asked?
  }

  /** Whether the reading in flight shows a reload line the machine has not been told of. */
  predicate NewRebuild(f: Follower)
    requires f.reading.Some? ==> f.reading.value <= |f.h|
  {
    f.reading.Some? && exists i :: f.told <= i < f.reading.value && f.h[i].reload
  }

  function Do(f: Follower, st: Step): Follower
    requires May(f, st)
    requires f.reading.Some? ==> f.reading.value <= |f.h|
  {
    match st
    case Print(l) => f.(h := f.h + [l])
    case Look => f.(reading := Some(|f.h|))
    case Tell(now) =>
      var ev := Counters(Count(f.h[..f.reading.value]));
      var turn := On(f.s, ev, Nothing, now);
      f.(s := turn.next, reading := None, told := f.reading.value, looks := f.looks + 1,
         probing := ProbingAfter(f.probing, ev, turn.out),
         since := if f.looks == 0 || NewRebuild(f) then now else f.since,
         at := now,
         shown := f.shown + Shown(turn.out))
    case Reply(result, now) =>
      var ev := Probed(ForReload, result);
      var turn := On(f.s, ev, Nothing, now);
      f.(s := turn.next, probing := ProbingAfter(f.probing, ev, turn.out), at := now,
         shown := f.shown + Shown(turn.out))
  }

  /** What the machine knows of the output is what the output was. */
  predicate FollowInv(f: Follower) {
    && Followed(f.s.cfg) && f.s.phase.InService? && f.s.phase.alive.None?
    && f.told <= |f.h|
    && (f.reading.Some? ==> f.told <= f.reading.value <= |f.h| && f.s.phase.pending.None?)
    && !f.s.phase.rebuild.Off?
    && (f.s.phase.rebuild.Unknown? <==> f.looks == 0)
    && (f.s.phase.rebuild.Unknown? ==> f.s.phase.pending.None?)
    && (f.looks > 0 ==> Knows(f, Count(f.h[..f.told])) && Settles(f, Count(f.h[..f.told])))
    && f.shown != [] && f.shown[|f.shown| - 1] == StandsAs(f.s.phase.rebuild)
    && (f.probing.Asked? <==> f.s.phase.pending.Some?)
  }

  /** What dependents see of a service, by what is known of its rebuild. */
  function StandsAs(r: Rebuild): Status
    requires !r.Off?
  {
    match r
    case Unknown(ready) => if ready then Status.Healthy else Status.Unhealthy
    case UpToDate(_) => Status.Healthy
    case Rebuilding(_, _) => Status.Reloading
    case NotReady(_) => Status.Unhealthy
  }

  /** What a rebuild under way comes to at a look, and its probe if it took one. */
  function Verdict(c: ReloadCounters, deadline: Instant, pass: bool, now: Instant): Status {
    if ReadyAgain(c) && pass then Status.Healthy
    else if c.failures == 0 && c.errors == 0 && now < deadline then Status.Reloading
    else Status.Unhealthy
  }

  /** With no probe out, the newest counters have been acted on. */
  predicate Settles(f: Follower, c: ReloadCounters)
    requires f.s.phase.InService?
  {
    var r, pass := f.s.phase.rebuild, !f.probing.Refused?;
    && (f.looks > 1 && !f.probing.Asked? && pass && ReadyAgain(c) ==> r.UpToDate?)
    && (r.Rebuilding? ==> r.deadline == f.since + f.s.cfg.readyTimeout)
    && (r.Rebuilding? && !f.probing.Asked? ==> Verdict(c, r.deadline, pass, f.at) == Status.Reloading)
  }

  predicate Knows(f: Follower, c: ReloadCounters)
    requires f.s.phase.InService?
  {
    && f.s.phase.rebuild.Seen() == c.reloadMatches
    && (f.s.phase.pending.Some? ==> f.s.phase.pending.value == c && !f.s.phase.rebuild.UpToDate?)
    && (f.s.phase.rebuild.UpToDate? ==>
          && (c.reloadMatches == 0 || c.readyMatches > c.readyMatchesAtReload)
          && (f.looks > 1 ==> c.failures == 0))
  }

  /** What telling a machine the counters leaves, by what they say. */
  predicate ToldTo(s: Service, c: ReloadCounters, now: Instant, t: Service, out: seq<Action>)
    requires s.phase.InService? && !s.phase.rebuild.Off?
  {
    && t.phase.InService? && t.phase.alive == s.phase.alive && t.cfg == s.cfg
    && !t.phase.rebuild.Off? && !t.phase.rebuild.Unknown?
    && t.phase.rebuild.Seen() == c.reloadMatches
    && (t.phase.pending.Some? ==> t.phase.pending.value == c && !t.phase.rebuild.UpToDate?)
    && (t.phase.rebuild.UpToDate? ==>
          || (s.phase.rebuild.Unknown? && !InFlightAtFirstLook(c) && Shown(out) == [])
          || (s.phase.rebuild.UpToDate? && s.phase.rebuild.seen == c.reloadMatches && c.failures == 0 && Shown(out) == [])
          || (ReadyAgain(c) && Shown(out) != [] && Shown(out)[|Shown(out)| - 1] == Status.Healthy))
    // a rebuild not seen before is announced before anything else
    && (Notices(s, c) ==> Shown(out) != [] && Shown(out)[0] == Status.Reloading)
    && ToldSettles(s, c, now, t, out)
  }

  /** Whether the counters show a rebuild the machine knows nothing of. */
  predicate Notices(s: Service, c: ReloadCounters)
    requires s.phase.InService? && !s.phase.rebuild.Off?
  {
    if s.phase.rebuild.Unknown? then InFlightAtFirstLook(c) else c.reloadMatches != s.phase.rebuild.Seen()
  }

  /** What it shows, what it probes, and what it settles at once. */
  predicate ToldSettles(s: Service, c: ReloadCounters, now: Instant, t: Service, out: seq<Action>)
    requires s.phase.InService? && t.phase.InService? && !s.phase.rebuild.Off? && !t.phase.rebuild.Off?
  {
    var r, q := s.phase.rebuild, t.phase.rebuild;
    && Shows(r, q, Shown(out))
    && (Probe(ForReload) in out <==> t.phase.pending.Some?)
    && (!r.Unknown? ==> (t.phase.pending.Some? <==> s.cfg.probed && (Notices(s, c) || !r.UpToDate?)))
    && (!r.Unknown? && t.phase.pending.None? && ReadyAgain(c) ==> q.UpToDate?)
    && (q.Rebuilding? && !Notices(s, c) ==> r.Rebuilding? && q.deadline == r.deadline)
    && (q.Rebuilding? && Notices(s, c) ==> q.deadline == now + s.cfg.readyTimeout)
    && (Notices(s, c) || r.Rebuilding? ==>
          if t.phase.pending.Some? then q.Rebuilding?
          else StandsAs(q) == Verdict(c, if Notices(s, c) then now + s.cfg.readyTimeout else r.deadline, true, now))
  }

  /** The last status shown is that of what is known. */
  predicate Shows(r: Rebuild, q: Rebuild, shown: seq<Status>)
    requires !r.Off? && !q.Off?
  {
    if shown == [] then StandsAs(q) == StandsAs(r) else shown[|shown| - 1] == StandsAs(q)
  }

  lemma {:induction false} ShownCat(a: seq<Action>, b: seq<Action>)
    ensures Shown(a + b) == Shown(a) + Shown(b)
    decreases |a|
  {
    if a == [] {
      assert a + b == b;
    } else {
      var first := if a[0].SetStatus? then [a[0].status] else [];
      ShownCat(a[1..], b);
      ShownFirst(a[0], a[1..] + b);
      assert a + b == [a[0]] + (a[1..] + b);
      hide Shown;
      assert first + (Shown(a[1..]) + Shown(b)) == (first + Shown(a[1..])) + Shown(b);
    }
  }

  lemma ShownFirst(a: Action, rest: seq<Action>)
    ensures Shown([a] + rest) == (if a.SetStatus? then [a.status] else []) + Shown(rest)
  {
    assert ([a] + rest)[1..] == rest;
  }

  lemma Shown1(a: Action)
    ensures Shown([a]) == if a.SetStatus? then [a.status] else []
  {
    assert [a][1..] == [];
  }

  lemma Shown2(a: Action, b: Action)
    ensures Shown([a, b]) == Shown([a]) + Shown([b])
  {
    assert [a, b] == [a] + [b];
    ShownCat([a], [b]);
  }

  /** What settling a poll leaves. */
  predicate SettledTo(s: Service, c: ReloadCounters, pass: bool, now: Instant, t: Service, out: seq<Action>)
    requires s.phase.InService? && !s.phase.rebuild.Off?
  {
    && t.phase.InService? && t.cfg == s.cfg
    && t.phase.alive == s.phase.alive && t.phase.pending == s.phase.pending
    && var r, q := s.phase.rebuild, t.phase.rebuild;
       && q.Seen() == r.Seen() && !q.Off? && !q.Unknown?
       && (q.UpToDate? && !r.UpToDate? ==> ReadyAgain(c) && Shown(out) == [Status.Healthy])
       && (ReadyAgain(c) && pass ==> q.UpToDate?)
       && (q.Rebuilding? ==> r == q)
       && (r.Rebuilding? ==> StandsAs(q) == Verdict(c, r.deadline, pass, now))
       && (!r.UpToDate? ==> Shows(r, q, Shown(out)))
       && Probe(ForReload) !in out
  }

  lemma SettleTells(s: Service, c: ReloadCounters, pass: bool, now: Instant)
    requires s.phase.InService? && !s.phase.rebuild.Off? && !s.phase.rebuild.Unknown?
    ensures var turn := Settle(s, c, pass, now); SettledTo(s, c, pass, now, turn.next, turn.out)
  {
    Shown2(SetStatus(Status.Healthy), SetReason(ReloadedItself));
    Shown1(SetStatus(Status.Healthy));
    Shown1(SetReason(ReloadedItself));
    if s.phase.rebuild.Rebuilding? {
      match RebuildVerdict(s.cfg, s.phase.rebuild.deadline, c, now)
      case Some(why) => GivingUpShows(ReloadFailed(why), why);
      case None =>
    }
  }

  lemma GivingUpShows(said: Text, why: Text)
    ensures Shown([Log(said), SetStatus(Status.Unhealthy), SetReason(why)]) == [Status.Unhealthy]
  {
    assert [Log(said), SetStatus(Status.Unhealthy), SetReason(why)]
        == [Log(said)] + [SetStatus(Status.Unhealthy), SetReason(why)];
    ShownCat([Log(said)], [SetStatus(Status.Unhealthy), SetReason(why)]);
    Shown2(SetStatus(Status.Unhealthy), SetReason(why));
    Shown1(Log(said));
    Shown1(SetStatus(Status.Unhealthy));
    Shown1(SetReason(why));
  }

  predicate JudgedTo(s: Service, r: Rebuild, c: ReloadCounters, now: Instant, t: Service, out: seq<Action>)
    requires s.phase.InService? && !r.Off? && !r.Unknown?
  {
    && t.phase.InService? && t.cfg == s.cfg && t.phase.alive == s.phase.alive
    && var q := t.phase.rebuild;
       && !q.Off? && !q.Unknown? && q.Seen() == r.Seen()
       && (t.phase.pending.Some? ==> t.phase.pending.value == c && q == r && !q.UpToDate?)
       && (q.UpToDate? ==>
             || (r.UpToDate? && c.failures == 0 && Shown(out) == [])
             || (!r.UpToDate? && ReadyAgain(c) && Shown(out) == [Status.Healthy]))
       && Shows(r, q, Shown(out))
       && (Probe(ForReload) in out <==> t.phase.pending.Some?)
       && (t.phase.pending.Some? <==> s.cfg.probed && !r.UpToDate?)
       && (t.phase.pending.None? && ReadyAgain(c) ==> q.UpToDate?)
       && (q.Rebuilding? ==> r == q)
       && (r.Rebuilding? && t.phase.pending.None? ==> StandsAs(q) == Verdict(c, r.deadline, true, now))
  }

  lemma JudgeTells(s: Service, r: Rebuild, c: ReloadCounters, now: Instant)
    requires s.phase.InService? && !r.Off? && !r.Unknown?
    ensures var turn := JudgeReload(s, r, c, now); JudgedTo(s, r, c, now, turn.next, turn.out)
  {
    hide Settle;
    if r.UpToDate? {
      GivingUpShows(ReportedFailure, RebuildFailed);
    } else {
      SettleTells(s.(phase := s.phase.(rebuild := r, pending := None)), c, true, now);
      Shown1(Probe(ForReload));
    }
  }

  /** What noticing and judging leaves, by what was known of the last rebuild. */
  predicate NoticedTo(s: Service, r: Rebuild, c: ReloadCounters, now: Instant, t: Service, out: seq<Action>)
    requires s.phase.InService? && !r.Off? && !r.Unknown?
  {
    var unseen := c.reloadMatches != r.Seen();
    var under := if unseen then Rebuilding(c.reloadMatches, now + s.cfg.readyTimeout) else r;
    && t.phase.InService? && t.phase.alive == s.phase.alive && t.cfg == s.cfg
    && var q := t.phase.rebuild;
       && !q.Off? && !q.Unknown? && q.Seen() == c.reloadMatches
       && (t.phase.pending.Some? ==> t.phase.pending.value == c && q == under && !q.UpToDate?)
       && (q.UpToDate? ==>
             || (!unseen && r.UpToDate? && c.failures == 0 && Shown(out) == [])
             || (ReadyAgain(c) && Shown(out) != [] && Shown(out)[|Shown(out)| - 1] == Status.Healthy))
       && (unseen ==> Shown(out) != [] && Shown(out)[0] == Status.Reloading)
       && Shows(r, q, Shown(out))
       && (Probe(ForReload) in out <==> t.phase.pending.Some?)
       && (t.phase.pending.Some? <==> s.cfg.probed && !under.UpToDate?)
       && (t.phase.pending.None? && ReadyAgain(c) ==> q.UpToDate?)
       && (q.Rebuilding? ==> q == under)
       && (under.Rebuilding? && t.phase.pending.None? ==> StandsAs(q) == Verdict(c, under.deadline, true, now))
  }

  lemma NoticeTells(s: Service, r: Rebuild, c: ReloadCounters, now: Instant)
    requires s.phase.InService? && !r.Off? && !r.Unknown?
    ensures var turn := NoticeReload(s, r, c, now); NoticedTo(s, r, c, now, turn.next, turn.out)
  {
    hide JudgeReload, Verdict, ReadyAgain;
    var said := [SetStatus(Status.Reloading), SetReason(RebuildingItself)];
    var next := Rebuilding(c.reloadMatches, now + s.cfg.readyTimeout);
    if c.reloadMatches != r.Seen() {
      JudgeTells(s, next, c, now);
      ReloadingShows(said, JudgeReload(s, next, c, now).out);
    } else {
      JudgeTells(s, r, c, now);
    }
    hide Shown, StandsAs;
  }

  lemma ReloadingShows(said: seq<Action>, out: seq<Action>)
    requires said == [SetStatus(Status.Reloading), SetReason(RebuildingItself)]
    ensures Shown(said + out) == [Status.Reloading] + Shown(out)
    ensures Probe(ForReload) in said + out <==> Probe(ForReload) in out
  {
    ShownCat(said, out);
    Shown2(said[0], said[1]);
    Shown1(said[0]);
    Shown1(said[1]);
  }

  lemma CountersTell(s: Service, c: ReloadCounters, now: Instant)
    requires s.phase.InService? && !s.phase.rebuild.Off? && s.phase.pending.None?
    ensures var turn := CountersRead(s, c, now); ToldTo(s, c, now, turn.next, turn.out)
  {
    hide NoticeReload, Verdict, ReadyAgain;
    var r := s.phase.rebuild;
    var seen := if InFlightAtFirstLook(c) then c.reloadMatches - 1 else c.reloadMatches;
    var known := if !r.Unknown? then r else if r.ready then UpToDate(seen) else NotReady(seen);
    if !r.Unknown? || InFlightAtFirstLook(c) {
      NoticeTells(s, known, c, now);
      hide Shown;
    }
  }

  lemma OnCounters(s: Service, c: ReloadCounters, now: Instant)
    requires s.phase.InService? && !s.phase.rebuild.Off? && s.phase.pending.None?
    ensures var turn := On(s, Counters(c), Nothing, now); ToldTo(s, c, now, turn.next, turn.out)
  {
    hide CountersRead, ToldTo;
    var again := [SetTimer(ReloadPoll, now + s.cfg.probeInterval)];
    CountersTell(s, c, now);
    var turn := CountersRead(s, c, now);
    ShownCat(again, turn.out);
    Shown1(again[0]);
    assert Shown(again + turn.out) == Shown(turn.out);
    StillInService(s, Counters(c), now);
    ToldSame(s, c, now, turn.next, turn.out, again + turn.out);
  }

  lemma ToldSame(s: Service, c: ReloadCounters, now: Instant, t: Service, a: seq<Action>, b: seq<Action>)
    requires s.phase.InService? && !s.phase.rebuild.Off? && ToldTo(s, c, now, t, a) && Shown(a) == Shown(b)
    requires Probe(ForReload) in a <==> Probe(ForReload) in b
    ensures ToldTo(s, c, now, t, b)
  {
  }

  /** A poll or its probe never ends the supervisor. */
  lemma StillInService(s: Service, ev: Event, now: Instant)
    requires s.phase.InService? && (ev.Counters? || (ev.Probed? && ev.purpose.ForReload?))
    ensures On(s, ev, Nothing, now) == StepService(s, ev, Nothing, now)
  {
    CL.ServiceNeverExits(s, CL.Input(ev, Nothing, now));
  }

  lemma DoKeeps(f: Follower, st: Step)
    requires FollowInv(f) && May(f, st)
    ensures FollowInv(Do(f, st))
  {
    match st
    case Print(l) =>
      assert (f.h + [l])[..f.told] == f.h[..f.told];
      hide Knows, Settles, StandsAs;
    case Look =>
      hide Knows, Settles, StandsAs;
    case Tell(now) => TellKeeps(f, now);
    case Reply(result, now) => ReplyKeeps(f, result, now);
  }

  lemma TellKeeps(f: Follower, now: Instant)
    requires FollowInv(f) && May(f, Tell(now))
    ensures FollowInv(Do(f, Tell(now)))
  {
    hide On, Verdict, Shown, Count, Reloads, ReadyAfterReloads, NoFailureStands, NoErrorStands;
    var b := f.reading.value;
    OnCounters(f.s, Count(f.h[..b]), now);
    CountGrows(f.h, f.told, b);
    CountMeans(f.h[..b]);
    CountMeans(f.h[..f.told]);
  }

  lemma ReplyKeeps(f: Follower, result: ProbeResult, now: Instant)
    requires FollowInv(f) && May(f, Reply(result, now))
    ensures FollowInv(Do(f, Reply(result, now)))
  {
    hide On, Settle, Verdict, Shown, Count;
    var s1 := f.s.(phase := f.s.phase.(pending := None));
    StillInService(f.s, Probed(ForReload, result), now);
    SettleTells(s1, f.s.phase.pending.value, result.Pass?, now);
    ReplySettles(f.s, result, now);
  }

  lemma ReplySettles(s: Service, result: ProbeResult, now: Instant)
    requires s.phase.InService? && s.phase.pending.Some?
    ensures StepService(s, Probed(ForReload, result), Nothing, now)
            == Settle(s.(phase := s.phase.(pending := None)), s.phase.pending.value, result.Pass?, now)
  {
  }

  // ------------------------------------------------------------------
  // Over every run

  predicate Follows(f: Follower, steps: seq<Step>)
    requires FollowInv(f)
    decreases |steps|
  {
    steps == [] || (May(f, steps[0]) && (DoKeeps(f, steps[0]); Follows(Do(f, steps[0]), steps[1..])))
  }

  function EndsAt(f: Follower, steps: seq<Step>): (g: Follower)
    requires FollowInv(f) && Follows(f, steps)
    ensures FollowInv(g)
    decreases |steps|
  {
    if steps == [] then f
    else
      DoKeeps(f, steps[0]);
      EndsAt(Do(f, steps[0]), steps[1..])
  }

  /** A process rests as ready only if its newest rebuild was answered by a ready
      line; past the first look, only if no failure has been reported since. */
  lemma ReadyOnlyIfAnswered(s: Service, ready: bool, h: seq<Line>, steps: seq<Step>)
    requires Followed(s.cfg) && Follows(Begin(s, ready, h), steps)
    requires EndsAt(Begin(s, ready, h), steps).s.phase.rebuild.UpToDate?
    ensures var f := EndsAt(Begin(s, ready, h), steps);
            && Answered(f.h[..f.told])
            && (f.looks > 1 ==> NoFailureStands(f.h[..f.told]))
  {
    var f := EndsAt(Begin(s, ready, h), steps);
    CountMeans(f.h[..f.told]);
  }

  /** And it is taken as ready again: past the first look, with the newest reading
      acted on, a process that has reloaded rests in ready and shows it exactly when
      its newest reload line was followed by a ready line, no failed line stands
      unanswered, and the probe, if the reading called for one, has passed. */
  lemma ReadyExactlyIfAnswered(s: Service, ready: bool, h: seq<Line>, steps: seq<Step>)
    requires Followed(s.cfg) && Follows(Begin(s, ready, h), steps)
    requires var f := EndsAt(Begin(s, ready, h), steps);
             f.looks > 1 && !f.probing.Asked? && !f.probing.Refused? && Reloads(f.h[..f.told])
    ensures var f := EndsAt(Begin(s, ready, h), steps);
            var answered := ReadyAfterReloads(f.h[..f.told]) && NoFailureStands(f.h[..f.told]);
            && (f.s.phase.rebuild.UpToDate? <==> answered)
            && (f.shown[|f.shown| - 1] == Status.Healthy <==> answered)
  {
    var f := EndsAt(Begin(s, ready, h), steps);
    CountMeans(f.h[..f.told]);
    hide Do, May, On, Count, Verdict, ReadyAfterReloads, NoFailureStands, NoErrorStands, Reloads;
  }

  /** What a look at a rebuild shows, by the lines told: ready if answered, not
      ready on a failure, on errors, or once its time is up, and otherwise still
      under way. */
  function Outcome(g: Follower): Status
    requires g.told <= |g.h|
  {
    var told := g.h[..g.told];
    if ReadyAfterReloads(told) && NoFailureStands(told) && !g.probing.Refused? then Status.Healthy
    else if NoFailureStands(told) && NoErrorStands(told) && g.at < g.since + g.s.cfg.readyTimeout then Status.Reloading
    else Status.Unhealthy
  }

  lemma OutcomeIsVerdict(g: Follower)
    requires g.told <= |g.h|
    ensures Outcome(g) == Verdict(Count(g.h[..g.told]), g.since + g.s.cfg.readyTimeout, !g.probing.Refused?, g.at)
  {
    CountMeans(g.h[..g.told]);
    hide Count, ReadyAfterReloads, NoFailureStands, NoErrorStands, Reloads;
  }

  lemma LookComesTo(f: Follower, now: Instant)
    requires FollowInv(f) && May(f, Tell(now)) && f.looks > 0
    requires f.s.phase.rebuild.Rebuilding? || NewRebuild(f)
    requires !Do(f, Tell(now)).probing.Asked?
    ensures var g := Do(f, Tell(now)); g.told <= |g.h| && g.shown != [] && g.shown[|g.shown| - 1] == Outcome(g)
  {
    hide On, Shown, Count, Verdict, Outcome;
    var g := Do(f, Tell(now));
    TellKeeps(f, now);
    OutcomeIsVerdict(g);
    OnCounters(f.s, Count(f.h[..f.reading.value]), now);
    CountGrows(f.h, f.told, g.told);
    hide StandsAs;
  }

  lemma ReplyComesTo(f: Follower, result: ProbeResult, now: Instant)
    requires FollowInv(f) && May(f, Reply(result, now)) && f.s.phase.rebuild.Rebuilding? && f.looks > 0
    ensures var g := Do(f, Reply(result, now)); g.told <= |g.h| && g.shown != [] && g.shown[|g.shown| - 1] == Outcome(g)
  {
    hide On, Settle, Shown, Count, Verdict, Outcome;
    var g := Do(f, Reply(result, now));
    ReplyKeeps(f, result, now);
    OutcomeIsVerdict(g);
    var s1 := f.s.(phase := f.s.phase.(pending := None));
    StillInService(f.s, Probed(ForReload, result), now);
    SettleTells(s1, f.s.phase.pending.value, result.Pass?, now);
    ReplySettles(f.s, result, now);
    hide StandsAs;
  }

  /** A look that finds a rebuild under way or not seen before, and the answer of
      its probe, bring it to its outcome at once, in every run. */
  lemma RebuildComesTo(s: Service, ready: bool, h: seq<Line>, steps: seq<Step>, st: Step)
    requires Followed(s.cfg) && Follows(Begin(s, ready, h), steps)
    requires var f := EndsAt(Begin(s, ready, h), steps);
             && May(f, st) && (st.Tell? || st.Reply?) && f.looks > 0
             && (f.shown[|f.shown| - 1] == Status.Reloading || (st.Tell? && NewRebuild(f)))
             && !Do(f, st).probing.Asked?
    ensures var g := Do(EndsAt(Begin(s, ready, h), steps), st);
            g.told <= |g.h| && g.shown != [] && g.shown[|g.shown| - 1] == Outcome(g)
  {
    var f := EndsAt(Begin(s, ready, h), steps);
    assert FollowInv(f);
    if st.Tell? { LookComesTo(f, st.now); } else { ReplyComesTo(f, st.result, st.at); }
    hide Do, Outcome, On, Count, Knows, Settles, NewRebuild;
  }

  /** Past the first look, a reading asks for a probe exactly when the service is
      probed and is not up to date: what it shows is not ready, or the reading has
      a reload line it had not been told of. */
  lemma ProbesExactly(s: Service, ready: bool, h: seq<Line>, steps: seq<Step>, now: Instant)
    requires Followed(s.cfg) && Follows(Begin(s, ready, h), steps)
    requires var f := EndsAt(Begin(s, ready, h), steps); May(f, Tell(now)) && f.looks > 0
    ensures var f := EndsAt(Begin(s, ready, h), steps);
            Do(f, Tell(now)).probing.Asked? <==>
              s.cfg.probed && (NewRebuild(f) || f.shown[|f.shown| - 1] != Status.Healthy)
  {
    var f := EndsAt(Begin(s, ready, h), steps);
    CfgStays(Begin(s, ready, h), steps);
    AsksExactly(f, now);
    hide Do, On, Count, Knows, Settles, NewRebuild;
  }

  lemma AsksExactly(f: Follower, now: Instant)
    requires FollowInv(f) && May(f, Tell(now)) && f.looks > 0
    ensures Do(f, Tell(now)).probing.Asked? <==> f.s.cfg.probed && (NewRebuild(f) || !f.s.phase.rebuild.UpToDate?)
  {
    hide On, Shown, Count, Verdict;
    OnCounters(f.s, Count(f.h[..f.reading.value]), now);
    CountGrows(f.h, f.told, f.reading.value);
    hide StandsAs;
  }

  lemma {:induction false} CfgStays(f: Follower, steps: seq<Step>)
    requires FollowInv(f) && Follows(f, steps)
    ensures EndsAt(f, steps).s.cfg == f.s.cfg
    decreases |steps|
  {
    hide Count, ProbingAfter, NewRebuild, Knows, Settles;
    if steps != [] {
      DoKeeps(f, steps[0]);
      StepKeepsCfg(f, steps[0]);
      hide Do;
      CfgStays(Do(f, steps[0]), steps[1..]);
    }
  }

  lemma StepKeepsCfg(f: Follower, st: Step)
    requires FollowInv(f) && May(f, st)
    ensures Do(f, st).s.cfg == f.s.cfg
  {
    hide Count, ProbingAfter, NewRebuild, Knows, Settles;
  }

  /** The first look is the exception: it takes readiness from startup, and a
      failure reported before it leaves the node ready. */
  lemma FirstLookForgives(s: Service)
    requires Followed(s.cfg)
    ensures var broken := Line(false, false, false, true, 0);
            var f := Do(Do(Begin(s, true, [broken]), Look), Tell(0));
            f.s.phase.InService? && f.s.phase.rebuild == UpToDate(0) && f.looks == 1 && !NoFailureStands(f.h[..f.told])
  {
    var broken := Line(false, false, false, true, 0);
    assert [broken][..1] == [broken] && [broken][..0] == [];
    assert Count([broken]) == Ingest(Count([]), broken);
    assert [broken][0].failed && !MarkedAfter([broken], 0);
  }

  /** A look that finds a rebuild not seen before publishes `Reloading` first. */
  lemma RebuildAnnounced(f: Follower, now: Instant)
    requires FollowInv(f) && f.reading.Some? && f.looks > 0
    requires exists i :: f.told <= i < f.reading.value && f.h[i].reload
    ensures var shown := Do(f, Tell(now)).shown;
            && |shown| > |f.shown| && shown[..|f.shown|] == f.shown && shown[|f.shown|] == Status.Reloading
  {
    hide On;
    var b := f.reading.value;
    OnCounters(f.s, Count(f.h[..b]), now);
    CountGrows(f.h, f.told, b);
  }

  /** Results published: each is a new generation of the node. */
  function Results(shown: seq<Status>): nat {
    if shown == [] then 0
    else Results(shown[..|shown|-1]) + (if shown[|shown|-1].IsReady() then 1 else 0)
  }

  lemma {:induction false} ResultsCat(a: seq<Status>, b: seq<Status>)
    ensures Results(a + b) == Results(a) + Results(b)
    decreases |b|
  {
    if b == [] {
      assert a + b == a;
    } else {
      assert (a + b)[..|a + b| - 1] == a + b[..|b|-1];
      ResultsCat(a, b[..|b|-1]);
    }
  }

  /** Since `from`: no new rebuild is known, or the node is out of ready, or it
      has published a new result. */
  predicate Since(origin: Follower, f: Follower)
    requires FollowInv(f) && origin.told <= |origin.h|
  {
    && origin.h <= f.h && origin.told <= f.told && f.looks > 0
    && Results(f.shown) >= Results(origin.shown)
    && (|| Count(f.h[..f.told]).reloadMatches == Count(origin.h[..origin.told]).reloadMatches
        || !f.s.phase.rebuild.UpToDate?
        || Results(f.shown) > Results(origin.shown))
  }

  lemma SinceStep(origin: Follower, f: Follower, st: Step)
    requires FollowInv(f) && origin.told <= |origin.h| && Since(origin, f) && May(f, st)
    ensures FollowInv(Do(f, st)) && Since(origin, Do(f, st))
  {
    hide On;
    DoKeeps(f, st);
    match st
    case Print(l) =>
      assert (f.h + [l])[..f.told] == f.h[..f.told];
    case Look =>
    case Tell(now) =>
      var c := Count(f.h[..f.reading.value]);
      OnCounters(f.s, c, now);
      ResultsCat(f.shown, Shown(On(f.s, Counters(c), Nothing, now).out));
    case Reply(result, now) =>
      var s1 := f.s.(phase := f.s.phase.(pending := None));
      StillInService(f.s, Probed(ForReload, result), now);
      SettleTells(s1, f.s.phase.pending.value, result.Pass?, now);
      ReplySettles(f.s, result, now);
      ResultsCat(f.shown, Shown(On(f.s, Probed(ForReload, result), Nothing, now).out));
  }

  lemma {:induction false} SinceRuns(origin: Follower, f: Follower, steps: seq<Step>)
    requires FollowInv(f) && origin.told <= |origin.h| && Since(origin, f) && Follows(f, steps)
    ensures Since(origin, EndsAt(f, steps))
    decreases |steps|
  {
    hide Since, Do, May;
    if steps != [] {
      SinceStep(origin, f, steps[0]);
      SinceRuns(origin, Do(f, steps[0]), steps[1..]);
    }
  }

  /** No rebuild is missed: a node ready now, told of a rebuild it had not been
      told of at `f`, has published a new result since — even if the rebuild began
      and ended between two looks. */
  lemma RebuildBumpsGeneration(f: Follower, steps: seq<Step>)
    requires FollowInv(f) && f.looks > 0 && Follows(f, steps)
    requires var g := EndsAt(f, steps);
             g.s.phase.rebuild.UpToDate? && exists i :: f.told <= i < g.told && g.h[i].reload
    ensures Results(EndsAt(f, steps).shown) > Results(f.shown)
  {
    SinceRuns(f, f, steps);
    var g := EndsAt(f, steps);
    assert g.h[..f.told] == f.h[..f.told];
    CountGrows(g.h, f.told, g.told);
  }
}
