/** That the cache is of use: a run whose result is cleanly stored is served from
    then on, until something at its place is stored or dropped, and exactly what is
    archived. */
module HitsServed {
  import opened Status
  import opened Replay

  /** Nothing is stored or dropped at a place. */
  predicate Elsewhere(op: Op, at: Place) {
    (op.Finish? || op.Drop?) ==> op.at != at
  }

  lemma StaysElsewhere(s: State, op: Op, at: Place, digest: Digest)
    requires Elsewhere(op, at)
    ensures var t := Next(s, op, digest);
            && (at in t.records <==> at in s.records) && (at in s.records ==> t.records[at] == s.records[at])
            && Held(t.archives, at) == Held(s.archives, at)
  {
    hide OutputHash, Total, Listing;
    if op.Finish? { ArchivesElsewhere(s, op.at, Outputs(op.declared), op.fate, at); }
  }

  lemma {:induction false} RunsElsewhere(s: State, ops: seq<Op>, at: Place, digest: Digest)
    requires forall op <- ops :: Elsewhere(op, at)
    ensures var t := Run(s, ops, digest);
            && (at in t.records <==> at in s.records) && (at in s.records ==> t.records[at] == s.records[at])
            && Held(t.archives, at) == Held(s.archives, at)
  {
    hide Next, Elsewhere, Held;
    if ops != [] {
      var op := ops[|ops| - 1];
      assert op in ops;
      RunsElsewhere(s, ops[..|ops| - 1], at, digest);
      StaysElsewhere(Run(s, ops[..|ops| - 1], digest), op, at, digest);
    }
  }

  /** What a finished run leaves in the cache: a record, and an archive exactly if
      its outputs are all there, no more than fits, and the disk lets them be copied
      and put in place. */
  lemma ArchivedExactly(s: State, op: Op, digest: Digest)
    requires op.Finish? && op.declared.Collected? && op.stored
    ensures var t, files := Next(s, op, digest), op.declared.files;
            && op.at in t.records && t.records[op.at].exitCode == 0
            && t.records[op.at].hash == op.hash && t.records[op.at].outputs == files
            && (t.records[op.at].archived <==>
                  && Total(s.root, files) <= MAX_ARCHIVE_BYTES && (forall f <- files :: f in s.root)
                  && !op.fate.CopyFails? && !op.fate.SwapFails?)
            && (t.records[op.at].archived && op.fate.Copies? ==>
                  forall f <- files :: f in Held(t.archives, op.at) && Held(t.archives, op.at)[f] == s.root[f])
  {
    hide OutputHash, Total;
  }

  /** A run cleanly archived and stored is a hit from then on, whatever else happens,
      as long as nothing is stored or dropped at its place and the disk lets its
      files be copied back: they are as the run left them, and so is its stamp. */
  lemma CleanRunIsServed(s: State, op: Op, between: seq<Op>, hit: Op, digest: Digest)
    requires op.Finish? && op.declared.Collected? && op.stored && op.fate.Copies?
    requires Total(s.root, op.declared.files) <= MAX_ARCHIVE_BYTES && forall f <- op.declared.files :: f in s.root
    requires forall o <- between :: Elsewhere(o, op.at)
    requires hit.Hit? && hit.at == op.at && hit.hash == op.hash && hit.task == op.task
    requires hit.copies >= |op.declared.files|
    ensures var left := Next(s, op, digest);
            var now := Run(left, between, digest);
            var after := Next(now, hit, digest);
            && Served(now, hit)
            && (forall f <- op.declared.files :: f in after.root && after.root[f] == s.root[f])
            && (forall f :: f !in op.declared.files ==>
                  (f in after.root <==> f in now.root) && (f in now.root ==> after.root[f] == now.root[f]))
            && op.task in left.stamps && hit.task in after.stamps && after.stamps[hit.task] == left.stamps[op.task]
            && (op.declared.files != [] ==> left.stamps[op.task] != "" && left.stamps[op.task][0] == 'o')
  {
    var left := Next(s, op, digest);
    var now := Run(left, between, digest);
    ArchivedExactly(s, op, digest);
    RunsElsewhere(left, between, op.at, digest);
    StampsTheRun(s, op, digest);
    HitGivesBack(s, op, now, hit, digest);
  }

  /** The stamp of a run that produced anything is that of its outputs. */
  lemma StampsTheRun(s: State, op: Op, digest: Digest)
    requires op.Finish? && op.declared.Collected? && op.stored && forall f <- op.declared.files :: f in s.root
    ensures var t := Next(s, op, digest);
            && op.task in t.stamps && op.at in t.records
            && t.stamps[op.task] == StampOf(op.hash, t.records[op.at].outputHash)
            && t.records[op.at].outputHash == OutputHash(s.root, op.declared.files, digest)
            && (op.declared.files != [] ==> t.stamps[op.task] != "" && t.stamps[op.task][0] == 'o')
  {
    hide Total;
    if op.declared.files != [] { assert op.declared.files[|op.declared.files| - 1] in op.declared.files; }
  }

  lemma HitGivesBack(s: State, op: Op, now: State, hit: Op, digest: Digest)
    requires op.Finish? && op.declared.Collected? && op.stored && forall f <- op.declared.files :: f in s.root
    requires hit.Hit? && hit.hash == op.hash && hit.copies >= |op.declared.files|
    requires hit.at in now.records
    requires var rec := now.records[hit.at];
             && rec.exitCode == 0 && rec.archived && rec.outputs == op.declared.files
             && rec.outputHash == OutputHash(s.root, op.declared.files, digest)
    requires forall f <- op.declared.files ::
               f in Held(now.archives, hit.at) && Held(now.archives, hit.at)[f] == s.root[f]
    ensures var after := Next(now, hit, digest);
            && Served(now, hit)
            && (forall f <- op.declared.files :: f in after.root && after.root[f] == s.root[f])
            && (forall f :: f !in op.declared.files ==>
                  (f in after.root <==> f in now.root) && (f in now.root ==> after.root[f] == now.root[f]))
            && hit.task in after.stamps
            && after.stamps[hit.task] == StampOf(hit.hash, OutputHash(s.root, op.declared.files, digest))
  {
    var files, after := op.declared.files, Next(now, hit, digest);
    assert after.root == now.root + Taken(Held(now.archives, hit.at), files);
    ListingDepends(after.root, s.root, files);
    hide Listing, StampOf;
  }

  /** Once dropped, a result is not served until another is stored at its place. */
  lemma DroppedIsNotServed(s: State, at: Place, files: set<string>, between: seq<Op>, hit: Op, digest: Digest)
    requires forall o <- between :: o.Finish? ==> o.at != at
    requires hit.Hit? && hit.at == at
    ensures var now := Run(Next(s, Drop(at, true, files), digest), between, digest);
            && !Served(now, hit)
            && Next(now, hit, digest).root == now.root
            && hit.task in Next(now, hit, digest).stamps && Next(now, hit, digest).stamps[hit.task] == "key:" + hit.hash
  {
    var left := Next(s, Drop(at, true, files), digest);
    StaysDropped(left, between, at, digest);
  }

  /** Dropping takes out the record, if it gets that far, and the files it says, and
      nothing else. */
  lemma DropTakesExactly(s: State, at: Place, record: bool, files: set<string>, between: seq<Op>, digest: Digest)
    requires forall o <- between :: Elsewhere(o, at)
    ensures var now := Run(Next(s, Drop(at, record, files), digest), between, digest);
            && (at in now.records <==> at in s.records && !record)
            && (at in now.records ==> now.records[at] == s.records[at])
            && (forall f :: f in Held(now.archives, at) <==> f in Held(s.archives, at) && f !in files)
            && (forall f :: f in Held(now.archives, at) ==> Held(now.archives, at)[f] == Held(s.archives, at)[f])
  {
    RunsElsewhere(s.(records := Next(s, Drop(at, record, files), digest).records,
                     archives := Next(s, Drop(at, record, files), digest).archives), between, at, digest);
  }

  lemma StaysOut(s: State, op: Op, at: Place, digest: Digest)
    requires at !in s.records && (op.Finish? ==> op.at != at)
    ensures at !in Next(s, op, digest).records
  {
    hide OutputHash, ArchivesAfter, StampOf, Served;
  }

  lemma {:induction false} StaysDropped(s: State, ops: seq<Op>, at: Place, digest: Digest)
    requires at !in s.records && forall o <- ops :: o.Finish? ==> o.at != at
    ensures at !in Run(s, ops, digest).records
  {
    hide Next;
    if ops != [] {
      var op := ops[|ops| - 1];
      assert op in ops;
      StaysDropped(s, ops[..|ops| - 1], at, digest);
      StaysOut(Run(s, ops[..|ops| - 1], digest), op, at, digest);
    }
  }

  // ------------------------------------------------------------------
  // What a stamp is

  /** An operation that stamps a task. */
  predicate Stamps(op: Op, task: Name) {
    (op.Fail? || op.Finish? || op.Hit?) && op.task == task
  }

  /** A stamp by what is readable of some files, or by the key if nothing is. */
  predicate OfOutputs(stamp: string, hash: string, root: Files, files: seq<string>, digest: Digest) {
    if exists f :: f in files && f in root then stamp == "out:" + digest(Listing(root, files))
    else stamp == "key:" + hash
  }

  lemma {:induction false} ListingEmpty(root: Files, files: seq<string>)
    ensures Listing(root, files) == [] <==> forall f :: f in files ==> f !in root
  {
    if files != [] {
      ListingEmpty(root, files[..|files| - 1]);
      assert files == files[..|files| - 1] + [files[|files| - 1]];
    }
  }

  lemma StampedBy(s: State, op: Op, task: Name, digest: Digest)
    requires Stamps(op, task)
    ensures var t := Next(s, op, digest);
            && task in t.stamps
            && match op
               case Fail(_, hash) => t.stamps[task] == "key:" + hash
               case Finish(_, _, hash, _, _, _) => OfOutputs(t.stamps[task], hash, s.root, Outputs(op.declared), digest)
               case Hit(_, at, hash, _, _) =>
                 if !Served(s, op) then t.stamps[task] == "key:" + hash
                 else if s.records[at].outputHash.Some? then t.stamps[task] == "out:" + s.records[at].outputHash.value
                 else OfOutputs(t.stamps[task], hash, t.root, s.records[at].outputs, digest)
               case _ => true
  {
    hide Listing, ArchivesAfter, Restorable, IsArchived;
    if op.Finish? { ListingEmpty(s.root, Outputs(op.declared)); }
    if op.Hit? && op.at in s.records { ListingEmpty(Next(s, op, digest).root, s.records[op.at].outputs); }
  }

  lemma StampLeft(s: State, op: Op, task: Name, digest: Digest)
    requires !Stamps(op, task)
    ensures var t := Next(s, op, digest);
            (task in t.stamps <==> task in s.stamps) && (task in s.stamps ==> t.stamps[task] == s.stamps[task])
  {
    hide OutputHash, ArchivesAfter, StampOf, Served;
  }

  lemma {:induction false} StampStays(s: State, ops: seq<Op>, task: Name, digest: Digest)
    requires forall op <- ops :: !Stamps(op, task)
    ensures task in Run(s, ops, digest).stamps <==> task in s.stamps
    ensures task in s.stamps ==> Run(s, ops, digest).stamps[task] == s.stamps[task]
  {
    hide Next, Stamps;
    if ops != [] {
      var op := ops[|ops| - 1];
      assert op in ops;
      StampStays(s, ops[..|ops| - 1], task, digest);
      StampLeft(Run(s, ops[..|ops| - 1], digest), op, task, digest);
    }
  }

  lemma {:induction false} RunCat(s: State, a: seq<Op>, b: seq<Op>, digest: Digest)
    ensures Run(s, a + b, digest) == Run(Run(s, a, digest), b, digest)
    decreases |b|
  {
    hide Next;
    if b == [] {
      assert a + b == a;
    } else {
      assert (a + b)[..|a + b| - 1] == a + b[..|b| - 1];
      RunCat(s, a, b[..|b| - 1], digest);
    }
  }

  /** After any history, the stamp of a task is what the newest run or lookup of it
      came to: its key if that failed, left nothing or was no hit, and otherwise
      the digest of the outputs it left, or that its record promised. */
  lemma StampIsItsNewestRun(s: State, before: seq<Op>, op: Op, rest: seq<Op>, task: Name, digest: Digest)
    requires Stamps(op, task) && forall o <- rest :: !Stamps(o, task)
    ensures var was := Run(s, before, digest);
            var now := Run(s, before + [op] + rest, digest);
            && task in now.stamps
            && match op
               case Fail(_, hash) => now.stamps[task] == "key:" + hash
               case Finish(_, _, hash, _, _, _) => OfOutputs(now.stamps[task], hash, was.root, Outputs(op.declared), digest)
               case Hit(_, at, hash, _, _) =>
                 if !Served(was, op) then now.stamps[task] == "key:" + hash
                 else if was.records[at].outputHash.Some? then now.stamps[task] == "out:" + was.records[at].outputHash.value
                 else OfOutputs(now.stamps[task], hash, Next(was, op, digest).root, was.records[at].outputs, digest)
               case _ => true
  {
    var was := Run(s, before, digest);
    RunCat(s, before + [op], rest, digest);
    assert (before + [op])[..|before + [op]| - 1] == before;
    assert Run(s, before + [op], digest) == Next(was, op, digest);
    StampedBy(was, op, task, digest);
    StampStays(Next(was, op, digest), rest, task, digest);
    hide Next, Run, OfOutputs, Served;
  }
}
