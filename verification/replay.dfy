/**
  The cache: archiving what a run left, restoring it on a hit, and the
  stamps dependents fold into their own keys. Files are named by their path,
  and a place stands for the directory a result lives in: a name made from the
  task's, and the first 32 digits of its key.
 */
module Replay {
  import opened Status

  type Bytes = seq<bv8>
  type Files = map<string, Bytes>
  type Place = (string, string)

  /** A hash over a list of files and their contents. */
  type Digest = seq<(string, Bytes)> -> string

  const MAX_ARCHIVE_BYTES := 256 * 1024 * 1024

  datatype Record = Record(hash: string, exitCode: int, outputs: seq<string>, archived: bool, outputHash: Option<string>)

  /** What the run behind a record left of its outputs, and the stamp it gave. */
  datatype Left = Left(files: Files, stamp: string)

  datatype State = State(root: Files, records: map<Place, Record>, archives: map<Place, Files>,
                         stamps: map<Name, string>, left: map<Place, Left>)

  function Held(archives: map<Place, Files>, at: Place): Files {
    if at in archives then archives[at] else map[]
  }

  function Total(root: Files, files: seq<string>): nat {
    if files == [] then 0
    else Total(root, files[..|files| - 1])
         + (var f := files[|files| - 1]; if f in root then |root[f]| else 0)
  }

  /** The listed files as they are in `from`. */
  function Taken(from: Files, files: seq<string>): Files {
    map f | f in files && f in from :: from[f]
  }

  /** The readable files of a list, with their contents. */
  function Listing(root: Files, files: seq<string>): seq<(string, Bytes)> {
    if files == [] then []
    else
      var f := files[|files| - 1];
      Listing(root, files[..|files| - 1]) + (if f in root then [(f, root[f])] else [])
  }

  /** None if no output is there: nothing is not a result. */
  function OutputHash(root: Files, files: seq<string>, digest: Digest): Option<string> {
    var l := Listing(root, files);
    if l == [] then None else Some(digest(l))
  }

  lemma {:induction false} ListingDepends(a: Files, b: Files, files: seq<string>)
    requires forall f :: f in files ==> (f in a <==> f in b) && (f in a ==> a[f] == b[f])
    ensures Listing(a, files) == Listing(b, files)
  {
    if files != [] {
      ListingDepends(a, b, files[..|files| - 1]);
      assert files[|files| - 1] in files;
    }
  }

  /** How far the disk lets an archive get: `OldStays` is the old archive not
      let itself be removed, all but some files, so the new one cannot take
      its place; `SwapFails` loses the old and fails to publish the new. */
  datatype Fate = Copies | CopyFails | SwapFails | OldStays(gone: set<string>)

  datatype Archived = Kept | TooLarge | Error

  predicate AllThere(root: Files, files: seq<string>) {
    forall f :: f in files ==> f in root
  }

  function ArchiveOutcome(root: Files, files: seq<string>, fate: Fate): Archived {
    if Total(root, files) > MAX_ARCHIVE_BYTES then TooLarge
    else if fate.CopyFails? || fate.SwapFails? || !AllThere(root, files) then Error
    else Kept
  }

  function ArchivesAfter(s: State, at: Place, files: seq<string>, fate: Fate): map<Place, Files> {
    if Total(s.root, files) > MAX_ARCHIVE_BYTES then s.archives
    else if fate.CopyFails? || !AllThere(s.root, files) then s.archives
    else match fate
      case SwapFails => s.archives - {at}
      case OldStays(gone) =>
        if at in s.archives then s.archives[at := s.archives[at] - gone]
        else s.archives[at := Taken(s.root, files)]
      case _ => s.archives[at := Taken(s.root, files)]
  }

  datatype Restored = Whole | Incomplete | Broken

  predicate Restorable(archives: map<Place, Files>, at: Place, files: seq<string>) {
    forall f :: f in files ==> f in Held(archives, at)
  }

  /** `copies` is how many files the disk lets be copied back. */
  function RestoreOutcome(s: State, at: Place, files: seq<string>, copies: nat): Restored {
    if !Restorable(s.archives, at, files) then Incomplete
    else if copies < |files| then Broken
    else Whole
  }

  function RootAfterRestore(s: State, at: Place, files: seq<string>, copies: nat): Files {
    match RestoreOutcome(s, at, files, copies)
    case Incomplete => s.root
    case Broken => s.root + Taken(Held(s.archives, at), files[..copies])
    case Whole => s.root + Taken(Held(s.archives, at), files)
  }

  /** What a node's output globs come to. */
  datatype Declared = NoOutputs | BadGlobs | Collected(files: seq<string>)

  datatype Op =
    /** Anything that rewrites the workspace: an edit, or a command at work. */
    | Change(root: Files)
    /** A task's command failed. */
    | Fail(task: Name, hash: string)
    /** A task's command succeeded. */
    | Finish(task: Name, at: Place, hash: string, declared: Declared, fate: Fate, stored: bool)
    /** A task is looked up; `present` is whether its declared paths exist. */
    | Hit(task: Name, at: Place, hash: string, present: bool, copies: nat)
    /** Forgetting or evicting, as far as the deletions succeed. */
    | Drop(at: Place, record: bool, files: set<string>)

  function KeyStamp(hash: string): string {
    "key:" + hash
  }

  function StampOf(hash: string, outputHash: Option<string>): string {
    if outputHash.Some? then "out:" + outputHash.value else KeyStamp(hash)
  }

  function Outputs(declared: Declared): seq<string> {
    if declared.Collected? then declared.files else []
  }

  predicate IsArchived(s: State, op: Op)
    requires op.Finish?
  {
    match op.declared
    case NoOutputs => true
    case BadGlobs => false
    case Collected(files) => ArchiveOutcome(s.root, files, op.fate) == Kept
  }

  function Finished(s: State, op: Op, digest: Digest): State
    requires op.Finish?
  {
    var outputs := Outputs(op.declared);
    var archives := if op.declared.Collected? then ArchivesAfter(s, op.at, outputs, op.fate) else s.archives;
    var outputHash := OutputHash(s.root, outputs, digest);
    var stamp := StampOf(op.hash, outputHash);
    var archived := IsArchived(s, op);
    var s := s.(archives := archives, stamps := s.stamps[op.task := stamp]);
    if op.stored then
      s.(records := s.records[op.at := Record(op.hash, 0, outputs, archived, outputHash)],
         left := s.left[op.at := Left(Taken(s.root, outputs), stamp)])
    else s
  }

  predicate Served(s: State, op: Op)
    requires op.Hit?
  {
    && op.at in s.records
    && s.records[op.at].exitCode == 0
    && (if s.records[op.at].archived
        then RestoreOutcome(s, op.at, s.records[op.at].outputs, op.copies) == Whole
        else op.present)
  }

  function LookedUp(s: State, op: Op, digest: Digest): State
    requires op.Hit?
  {
    if op.at !in s.records || s.records[op.at].exitCode != 0 then
      s.(stamps := s.stamps[op.task := KeyStamp(op.hash)])
    else
      var rec := s.records[op.at];
      var root := if rec.archived then RootAfterRestore(s, op.at, rec.outputs, op.copies) else s.root;
      var found := if rec.outputHash.Some? then rec.outputHash else OutputHash(root, rec.outputs, digest);
      var stamp := if Served(s, op) then StampOf(op.hash, found) else KeyStamp(op.hash);
      s.(root := root, stamps := s.stamps[op.task := stamp])
  }

  function Next(s: State, op: Op, digest: Digest): State {
    match op
    case Change(root) => s.(root := root)
    case Fail(task, hash) => s.(stamps := s.stamps[task := KeyStamp(hash)])
    case Finish(_, _, _, _, _, _) => Finished(s, op, digest)
    case Hit(_, _, _, _, _) => LookedUp(s, op, digest)
    case Drop(at, record, files) =>
      s.(records := if record then s.records - {at} else s.records,
         archives := if at in s.archives then s.archives[at := s.archives[at] - files] else s.archives)
  }

  function Run(s: State, ops: seq<Op>, digest: Digest): State {
    if ops == [] then s else Next(Run(s, ops[..|ops| - 1], digest), ops[|ops| - 1], digest)
  }

  /** What is archived under a record is what the run behind it left, as far
      as it is still there. */
  ghost predicate Agrees(s: State, at: Place, digest: Digest)
    requires at in s.records
  {
    var rec := s.records[at];
    && at in s.left
    && (forall f :: f in rec.outputs ==> f in s.left[at].files)
    && (forall f :: f in rec.outputs && f in Held(s.archives, at) ==> Held(s.archives, at)[f] == s.left[at].files[f])
    && rec.outputHash == OutputHash(s.left[at].files, rec.outputs, digest)
    && s.left[at].stamp == StampOf(rec.hash, rec.outputHash)
  }

  ghost predicate Faithful(s: State, digest: Digest) {
    forall at :: at in s.records && s.records[at].archived ==> Agrees(s, at, digest)
  }

  /** A finished run's record is written, and its archive, if it is published,
      is its own. */
  predicate CleanlyStored(op: Op) {
    op.Finish? ==> op.stored && !op.fate.OldStays?
  }

  lemma ArchivedWasTaken(s: State, op: Op)
    requires op.Finish? && IsArchived(s, op)
    ensures forall f :: f in Outputs(op.declared) ==> f in s.root
    ensures op.declared.Collected? && !op.fate.OldStays? ==>
      ArchivesAfter(s, op.at, Outputs(op.declared), op.fate) == s.archives[op.at := Taken(s.root, Outputs(op.declared))]
  {
    hide Total;
  }

  lemma TakenHashesAlike(root: Files, files: seq<string>, digest: Digest)
    ensures OutputHash(Taken(root, files), files, digest) == OutputHash(root, files, digest)
  {
    ListingDepends(Taken(root, files), root, files);
  }

  lemma ArchivesElsewhere(s: State, at: Place, files: seq<string>, fate: Fate, other: Place)
    requires other != at
    ensures Held(ArchivesAfter(s, at, files, fate), other) == Held(s.archives, other)
  {
    hide Total, Taken;
  }

  lemma FinishKeepsFaith(s: State, op: Op, digest: Digest)
    requires Faithful(s, digest) && op.Finish? && CleanlyStored(op)
    ensures Faithful(Finished(s, op, digest), digest)
  {
    hide Total, OutputHash, ArchivesAfter, IsArchived, StampOf;
    var s' := Finished(s, op, digest);
    forall at | at in s'.records && s'.records[at].archived ensures Agrees(s', at, digest) {
      if at == op.at {
        ArchivedWasTaken(s, op);
        TakenHashesAlike(s.root, Outputs(op.declared), digest);
      } else {
        ArchivesElsewhere(s, op.at, Outputs(op.declared), op.fate, at);
        assert Agrees(s, at, digest);
      }
    }
  }

  lemma DropKeepsFaith(s: State, op: Op, digest: Digest)
    requires Faithful(s, digest) && op.Drop?
    ensures Faithful(Next(s, op, digest), digest)
  {
    hide OutputHash, StampOf;
    var s' := Next(s, op, digest);
    forall at | at in s'.records && s'.records[at].archived ensures Agrees(s', at, digest) {
      assert Agrees(s, at, digest);
    }
  }

  lemma NextKeepsFaith(s: State, op: Op, digest: Digest)
    requires Faithful(s, digest) && CleanlyStored(op)
    ensures Faithful(Next(s, op, digest), digest)
  {
    if op.Finish? {
      FinishKeepsFaith(s, op, digest);
    } else if op.Drop? {
      DropKeepsFaith(s, op, digest);
    } else {
      var s' := Next(s, op, digest);
      assert s'.records == s.records && s'.archives == s.archives && s'.left == s.left;
      forall at | at in s'.records && s'.records[at].archived ensures Agrees(s', at, digest) {
        assert Agrees(s, at, digest);
      }
    }
  }

  /** A hit has put back what the run behind its record left, and stamps its
      task as that run did. */
  ghost predicate Replayed(s: State, op: Op, digest: Digest)
    requires op.Hit? && op.at in s.records && op.at in s.left
  {
    var rec, after := s.records[op.at], Next(s, op, digest);
    && (forall f :: f in rec.outputs ==> f in after.root && f in s.left[op.at].files
                                         && after.root[f] == s.left[op.at].files[f])
    && (forall f :: f !in rec.outputs ==> (f in after.root <==> f in s.root) && (f in s.root ==> after.root[f] == s.root[f]))
    && after.stamps == s.stamps[op.task := s.left[op.at].stamp]
    && OutputHash(after.root, rec.outputs, digest) == rec.outputHash
  }

  lemma HitReplays(s: State, op: Op, digest: Digest)
    requires op.Hit? && op.at in s.records && s.records[op.at].archived
    requires Agrees(s, op.at, digest)
    requires s.records[op.at].hash == op.hash
    requires Served(s, op)
    ensures Replayed(s, op, digest)
  {
    hide StampOf;
    var rec, after := s.records[op.at], Next(s, op, digest);
    var archive := Held(s.archives, op.at);
    assert after.root == s.root + Taken(archive, rec.outputs);
    forall f | f in rec.outputs ensures f in after.root && after.root[f] == s.left[op.at].files[f] {
      assert f in archive && f in Taken(archive, rec.outputs);
    }
    ListingDepends(after.root, s.left[op.at].files, rec.outputs);
  }

  lemma {:induction false} RunsKeepFaith(s: State, ops: seq<Op>, digest: Digest)
    requires s.records == map[]
    requires forall op :: op in ops ==> CleanlyStored(op)
    ensures Faithful(Run(s, ops, digest), digest)
  {
    hide Next, Agrees;
    if ops != [] {
      RunsKeepFaith(s, ops[..|ops| - 1], digest);
      assert ops[|ops| - 1] in ops;
      NextKeepsFaith(Run(s, ops[..|ops| - 1], digest), ops[|ops| - 1], digest);
    }
  }

  /** After any history of runs, edits, evictions and hits that begins with no
      records, and in which every finished run's result is cleanly stored, an
      archived hit agrees with really running. No two keys share a place. */
  lemma ArchivedHitAgrees(s: State, ops: seq<Op>, op: Op, digest: Digest)
    requires s.records == map[]
    requires forall o :: o in ops ==> CleanlyStored(o)
    requires op.Hit?
    requires var now := Run(s, ops, digest);
             && op.at in now.records && now.records[op.at].archived
             && now.records[op.at].hash == op.hash && Served(now, op)
    ensures op.at in Run(s, ops, digest).left
    ensures Replayed(Run(s, ops, digest), op, digest)
  {
    hide Next, Served, Replayed;
    RunsKeepFaith(s, ops, digest);
    HitReplays(Run(s, ops, digest), op, digest);
  }

  // A store that fails halfway can pair a record with another run's archive.
  // That is harmless exactly as long as a key always produces the same bytes.

  ghost predicate Reproduces(s: State, op: Op, truth: Place -> Files) {
    op.Finish? ==>
      forall f :: f in Outputs(op.declared) && f in s.root ==> f in truth(op.at) && truth(op.at)[f] == s.root[f]
  }

  ghost predicate Within(files: Files, truth: Files) {
    forall f :: f in files ==> f in truth && truth[f] == files[f]
  }

  ghost predicate AllTrue(s: State, truth: Place -> Files) {
    && (forall at :: at in s.archives ==> Within(s.archives[at], truth(at)))
    && (forall at :: at in s.left ==> Within(s.left[at].files, truth(at)))
  }

  lemma ArchivesStayTrue(s: State, at: Place, files: seq<string>, fate: Fate, truth: Place -> Files)
    requires forall p :: p in s.archives ==> Within(s.archives[p], truth(p))
    requires Within(Taken(s.root, files), truth(at))
    ensures forall p :: p in ArchivesAfter(s, at, files, fate) ==> Within(ArchivesAfter(s, at, files, fate)[p], truth(p))
  {
    hide Total, Taken;
  }

  lemma FinishedStaysTrue(s: State, op: Op, digest: Digest, truth: Place -> Files)
    requires op.Finish? && Reproduces(s, op, truth) && AllTrue(s, truth)
    ensures AllTrue(Finished(s, op, digest), truth)
    ensures Within(Taken(s.root, Outputs(op.declared)), truth(op.at))
    ensures Within(Held(Finished(s, op, digest).archives, op.at), truth(op.at))
  {
    var outputs := Outputs(op.declared);
    assert Within(Taken(s.root, outputs), truth(op.at));
    assert Within(map[], truth(op.at));
    hide Total, OutputHash, StampOf, IsArchived, ArchivesAfter, Taken, Within;
    ArchivesStayTrue(s, op.at, outputs, op.fate, truth);
  }

  lemma FinishKeepsTruth(s: State, op: Op, digest: Digest, truth: Place -> Files)
    requires op.Finish? && Reproduces(s, op, truth) && AllTrue(s, truth) && Faithful(s, digest)
    ensures AllTrue(Finished(s, op, digest), truth)
    ensures Faithful(Finished(s, op, digest), digest)
  {
    hide Finished, AllTrue, Faithful, Reproduces, Within;
    FinishedStaysTrue(s, op, digest, truth);
    TrueFinish(s, op, digest, truth);
  }

  lemma TrueFinish(s: State, op: Op, digest: Digest, truth: Place -> Files)
    requires op.Finish? && AllTrue(s, truth) && Faithful(s, digest)
    requires Within(Taken(s.root, Outputs(op.declared)), truth(op.at))
    requires Within(Held(Finished(s, op, digest).archives, op.at), truth(op.at))
    ensures Faithful(Finished(s, op, digest), digest)
  {
    hide Agrees, AllTrue, Within, Total, OutputHash, ArchivesAfter, IsArchived, StampOf;
    var s' := Finished(s, op, digest);
    forall at | at in s'.records && s'.records[at].archived ensures Agrees(s', at, digest) {
      if at == op.at && op.stored {
        NewRecordAgrees(s, op, digest, truth);
      } else {
        OldRecordAgrees(s, op, digest, truth, at);
      }
    }
  }

  lemma NewRecordAgrees(s: State, op: Op, digest: Digest, truth: Place -> Files)
    requires op.Finish? && op.stored && IsArchived(s, op)
    requires Within(Taken(s.root, Outputs(op.declared)), truth(op.at))
    requires Within(Held(Finished(s, op, digest).archives, op.at), truth(op.at))
    ensures Agrees(Finished(s, op, digest), op.at, digest)
  {
    hide Total, OutputHash, ArchivesAfter, IsArchived, StampOf;
    ArchivedWasTaken(s, op);
    TakenHashesAlike(s.root, Outputs(op.declared), digest);
  }

  lemma OldRecordAgrees(s: State, op: Op, digest: Digest, truth: Place -> Files, at: Place)
    requires op.Finish? && AllTrue(s, truth) && (at != op.at || !op.stored)
    requires at in s.records && Agrees(s, at, digest)
    requires Within(Held(Finished(s, op, digest).archives, op.at), truth(op.at))
    ensures Agrees(Finished(s, op, digest), at, digest)
  {
    hide Total, OutputHash, ArchivesAfter, IsArchived, StampOf;
    if at != op.at {
      ArchivesElsewhere(s, op.at, Outputs(op.declared), op.fate, at);
    }
  }

  lemma NextKeepsTruth(s: State, op: Op, digest: Digest, truth: Place -> Files)
    requires Reproduces(s, op, truth) && AllTrue(s, truth) && Faithful(s, digest)
    ensures AllTrue(Next(s, op, digest), truth) && Faithful(Next(s, op, digest), digest)
  {
    hide Finished, Agrees, LookedUp;
    if op.Finish? {
      FinishKeepsTruth(s, op, digest, truth);
    } else {
      NextKeepsFaith(s, op, digest);
      LookedUpStores(s, op, digest);
    }
  }

  lemma LookedUpStores(s: State, op: Op, digest: Digest)
    ensures op.Hit? ==>
      var s' := LookedUp(s, op, digest);
      s'.records == s.records && s'.archives == s.archives && s'.left == s.left
  {
  }

  ghost predicate AllReproduce(s: State, ops: seq<Op>, digest: Digest, truth: Place -> Files) {
    forall i :: 0 <= i < |ops| ==> Reproduces(Run(s, ops[..i], digest), ops[i], truth)
  }

  lemma {:induction false} RunsKeepTruth(s: State, ops: seq<Op>, digest: Digest, truth: Place -> Files)
    requires s.records == map[] && s.archives == map[] && s.left == map[]
    requires AllReproduce(s, ops, digest, truth)
    ensures AllTrue(Run(s, ops, digest), truth) && Faithful(Run(s, ops, digest), digest)
  {
    hide Next, Agrees, Reproduces;
    if ops != [] {
      var front := ops[..|ops| - 1];
      forall i | 0 <= i < |front| ensures Reproduces(Run(s, front[..i], digest), front[i], truth) {
        assert front[..i] == ops[..i];
        assert Reproduces(Run(s, ops[..i], digest), ops[i], truth);
      }
      RunsKeepTruth(s, front, digest, truth);
      assert Reproduces(Run(s, ops[..|front|], digest), ops[|front|], truth);
      NextKeepsTruth(Run(s, front, digest), ops[|front|], digest, truth);
    }
  }

  /** Where every key always produces the same bytes, an archived hit agrees
      with running however archiving and storing fail along the way. */
  lemma ReproducibleHitAgrees(s: State, ops: seq<Op>, op: Op, digest: Digest, truth: Place -> Files)
    requires s.records == map[] && s.archives == map[] && s.left == map[]
    requires AllReproduce(s, ops, digest, truth)
    requires op.Hit?
    requires var now := Run(s, ops, digest);
             && op.at in now.records && now.records[op.at].archived
             && now.records[op.at].hash == op.hash && Served(now, op)
    ensures op.at in Run(s, ops, digest).left
    ensures Replayed(Run(s, ops, digest), op, digest)
  {
    hide Next, Served, Replayed, Reproduces;
    RunsKeepTruth(s, ops, digest, truth);
    HitReplays(Run(s, ops, digest), op, digest);
  }

  /** A restore that finds a file missing changes nothing; the run that
      follows starts from the key's own stamp. */
  lemma IncompleteChangesNothing(s: State, op: Op, digest: Digest)
    requires op.Hit? && op.at in s.records && s.records[op.at].archived
    requires !Restorable(s.archives, op.at, s.records[op.at].outputs)
    ensures Next(s, op, digest) == s.(stamps := s.stamps[op.task := KeyStamp(op.hash)])
  {
  }

  /** One cut short by the disk has put back recorded bytes and no others. */
  lemma BrokenPutsBackRecordedBytes(s: State, at: Place, files: seq<string>, copies: nat, f: string)
    requires RestoreOutcome(s, at, files, copies) == Broken
    ensures var root := RootAfterRestore(s, at, files, copies);
            && (f in s.root ==> f in root)
            && (f in root ==> (f in s.root && root[f] == s.root[f])
                              || (f in files && f in Held(s.archives, at) && root[f] == Held(s.archives, at)[f]))
  {
    assert forall g :: g in files[..copies] ==> g in files;
  }

  // When exactly a finished run leaves a record over another run's bytes.

  /** Publishing let the archive and the record part: the record is new and the
      archive stayed old, or the archive is new and the record stayed old; and
      the two runs made different bytes. */
  ghost predicate Parts(s: State, op: Op)
    requires op.Finish?
  {
    var files := Outputs(op.declared);
    && op.declared.Collected? && ArchiveOutcome(s.root, files, op.fate) == Kept
    && (if op.fate.OldStays? && op.at in s.archives then
          op.stored && exists f :: f in files && f in s.archives[op.at] - op.fate.gone && s.archives[op.at][f] != s.root[f]
        else
          && !op.stored && op.at in s.records && s.records[op.at].archived && op.at in s.left
          && exists f :: f in s.records[op.at].outputs && f in files && f in s.left[op.at].files
                         && s.root[f] != s.left[op.at].files[f])
  }

  /** The archive at a place, if a run there was kept. */
  lemma KeptArchive(s: State, op: Op)
    requires op.Finish? && op.declared.Collected? && ArchiveOutcome(s.root, op.declared.files, op.fate) == Kept
    ensures var held := Held(ArchivesAfter(s, op.at, op.declared.files, op.fate), op.at);
            held == if op.fate.OldStays? && op.at in s.archives then s.archives[op.at] - op.fate.gone
                    else Taken(s.root, op.declared.files)
    ensures AllThere(s.root, op.declared.files)
  {
    hide Total;
  }

  lemma LostArchive(s: State, op: Op)
    requires op.Finish? && !(op.declared.Collected? && ArchiveOutcome(s.root, op.declared.files, op.fate) == Kept)
    ensures var held := Held(Finished(s, op, d => "").archives, op.at);
            held == Held(s.archives, op.at) || held == map[]
  {
    hide Total;
  }

  lemma ArchivesAreDigestFree(s: State, op: Op, a: Digest, b: Digest)
    requires op.Finish?
    ensures Finished(s, op, a).archives == Finished(s, op, b).archives
  {
    hide Total, OutputHash, ArchivesAfter;
  }

  lemma FinishPartsAt(s: State, op: Op, digest: Digest)
    requires op.Finish? && Faithful(s, digest)
    ensures var s' := Finished(s, op, digest);
            (op.at in s'.records && s'.records[op.at].archived ==> Agrees(s', op.at, digest)) <==> !Parts(s, op)
  {
    TakenHashesAlike(s.root, Outputs(op.declared), digest);
    if op.declared.Collected? && ArchiveOutcome(s.root, op.declared.files, op.fate) == Kept {
      KeptArchive(s, op);
      hide Total, OutputHash, ArchivesAfter, StampOf, ArchiveOutcome;
      if op.at in s.records && s.records[op.at].archived { assert Agrees(s, op.at, digest); }
      KeptPartsAt(s, op, digest);
    } else {
      LostArchive(s, op);
      ArchivesAreDigestFree(s, op, digest, d => "");
      hide Total, OutputHash, ArchivesAfter, StampOf, ArchiveOutcome;
      if op.at in s.records && s.records[op.at].archived { assert Agrees(s, op.at, digest); }
    }
  }

  lemma KeptPartsAt(s: State, op: Op, digest: Digest)
    requires op.Finish? && op.declared.Collected? && ArchiveOutcome(s.root, op.declared.files, op.fate) == Kept
    requires AllThere(s.root, op.declared.files)
    requires OutputHash(Taken(s.root, op.declared.files), op.declared.files, digest)
          == OutputHash(s.root, op.declared.files, digest)
    requires Held(ArchivesAfter(s, op.at, op.declared.files, op.fate), op.at)
          == if op.fate.OldStays? && op.at in s.archives then s.archives[op.at] - op.fate.gone
             else Taken(s.root, op.declared.files)
    requires op.at in s.records && s.records[op.at].archived ==> Agrees(s, op.at, digest)
    ensures var s' := Finished(s, op, digest);
            (op.at in s'.records && s'.records[op.at].archived ==> Agrees(s', op.at, digest)) <==> !Parts(s, op)
  {
    hide Total, OutputHash, ArchivesAfter, StampOf, ArchiveOutcome;
  }

  /** Storing a result keeps every archived record over its own run's bytes
      exactly when it does not let the two part. */
  lemma FinishKeepsFaithExactly(s: State, op: Op, digest: Digest)
    requires op.Finish? && Faithful(s, digest)
    ensures Faithful(Finished(s, op, digest), digest) <==> !Parts(s, op)
  {
    hide Total, OutputHash, ArchivesAfter, IsArchived, StampOf, Parts, Agrees;
    FinishPartsAt(s, op, digest);
    var s' := Finished(s, op, digest);
    forall at | at in s'.records && s'.records[at].archived && at != op.at ensures Agrees(s', at, digest) {
      assert Agrees(s, at, digest);
      ElsewhereAgrees(s, op, digest, at);
    }
  }

  lemma ElsewhereAgrees(s: State, op: Op, digest: Digest, at: Place)
    requires op.Finish? && at != op.at && at in s.records && Agrees(s, at, digest)
    ensures Agrees(Finished(s, op, digest), at, digest)
  {
    hide Total, OutputHash, ArchivesAfter, IsArchived, StampOf;
    ArchivesElsewhere(s, op.at, Outputs(op.declared), op.fate, at);
  }

  // What an unarchived record says of its outputs.

  /** Every record has the hash of what its run left, whatever failed. */
  ghost predicate Hashed(s: State, digest: Digest) {
    forall at :: at in s.records ==>
      at in s.left && s.records[at].outputHash == OutputHash(s.left[at].files, s.records[at].outputs, digest)
  }

  lemma NextKeepsHashes(s: State, op: Op, digest: Digest)
    requires Hashed(s, digest)
    ensures Hashed(Next(s, op, digest), digest)
  {
    hide OutputHash, ArchivesAfter, IsArchived, StampOf, RootAfterRestore;
    if op.Finish? { TakenHashesAlike(s.root, Outputs(op.declared), digest); }
  }

  lemma {:induction false} RunsKeepHashes(s: State, ops: seq<Op>, digest: Digest)
    requires s.records == map[]
    ensures Hashed(Run(s, ops, digest), digest)
  {
    hide Next;
    if ops != [] {
      RunsKeepHashes(s, ops[..|ops| - 1], digest);
      NextKeepsHashes(Run(s, ops[..|ops| - 1], digest), ops[|ops| - 1], digest);
    }
  }

  lemma {:induction false} ListingHolds(root: Files, files: seq<string>, f: string, x: Bytes)
    ensures (f, x) in Listing(root, files) <==> f in files && f in root && root[f] == x
  {
    if files != [] {
      var front, last := files[..|files| - 1], files[|files| - 1];
      ListingHolds(root, front, f, x);
      assert files == front + [last];
    }
  }

  predicate SameOutputs(a: Files, b: Files, files: seq<string>) {
    forall f :: f in files ==> (f in a <==> f in b) && (f in a ==> a[f] == b[f])
  }

  lemma ListingDecides(a: Files, b: Files, files: seq<string>)
    ensures Listing(a, files) == Listing(b, files) <==> SameOutputs(a, b, files)
  {
    if SameOutputs(a, b, files) { ListingDepends(a, b, files); }
    if Listing(a, files) == Listing(b, files) {
      forall f | f in files ensures (f in a <==> f in b) && (f in a ==> a[f] == b[f]) {
        if f in a { ListingHolds(a, files, f, a[f]); ListingHolds(b, files, f, a[f]); }
        if f in b { ListingHolds(a, files, f, b[f]); ListingHolds(b, files, f, b[f]); }
      }
    }
  }

  /** After any history, with a digest that tells contents apart, what an
      unarchived hit stamps is the stamp of what is on disk exactly if every
      recorded output is still as the recording run left it. */
  lemma UnarchivedHitRightExactly(s: State, ops: seq<Op>, op: Op, digest: Digest)
    requires s.records == map[] && op.Hit?
    requires forall x, y :: digest(x) == digest(y) ==> x == y
    requires var now := Run(s, ops, digest);
             && op.at in now.records && !now.records[op.at].archived && now.records[op.at].outputHash.Some?
             && now.records[op.at].exitCode == 0 && op.present
    ensures var now := Run(s, ops, digest);
            && op.at in now.left
            && (now.records[op.at].outputHash == OutputHash(now.root, now.records[op.at].outputs, digest)
                <==> SameOutputs(now.root, now.left[op.at].files, now.records[op.at].outputs))
            && Next(now, op, digest).stamps[op.task] == StampOf(op.hash, now.records[op.at].outputHash)
            && Next(now, op, digest).root == now.root
  {
    hide Run, Listing, StampOf;
    RunsKeepHashes(s, ops, digest);
    var now := Run(s, ops, digest);
    ListingDecides(now.root, now.left[op.at].files, now.records[op.at].outputs);
  }
}
