/** The cache as it works on the disk, proved against the replay functions. */
module CacheStore {
  import opened Status
  import opened Replay

  class Cache {
    var root: Files
    var records: map<Place, Record>
    var archives: map<Place, Files>
    var stamps: map<Name, string>
    ghost var left: map<Place, Left>

    constructor (root: Files)
      ensures Now() == State(root, map[], map[], map[], map[])
    {
      this.root, records, archives, stamps, left := root, map[], map[], map[], map[];
    }

    ghost function Now(): State
      reads this
    {
      State(root, records, archives, stamps, left)
    }

    /** Stages the outputs, then swaps them into place, so a half-written
        archive is never under the real name. */
    method Archive(at: Place, files: seq<string>, fate: Fate) returns (r: Archived)
      modifies this`archives
      ensures r == ArchiveOutcome(old(root), files, fate)
      ensures archives == ArchivesAfter(old(Now()), at, files, fate)
    {
      var total := 0;
      assert files[..|files|] == files;
      for i := 0 to |files|
        invariant total == Total(root, files[..i])
      {
        assert files[..i + 1][..i] == files[..i];
        if files[i] in root {
          total := total + |root[files[i]]|;
        }
      }
      if total > MAX_ARCHIVE_BYTES {
        return TooLarge;
      }
      if fate.CopyFails? {
        return Error;
      }
      var staging: Files := map[];
      for i := 0 to |files|
        invariant staging == Taken(root, files[..i])
        invariant AllThere(root, files[..i])
      {
        assert files[..i + 1] == files[..i] + [files[i]];
        if files[i] !in root {
          assert files[i] in files;
          return Error;
        }
        staging := staging[files[i] := root[files[i]]];
      }
      if fate.SwapFails? {
        archives := archives - {at};
        return Error;
      }
      if fate.OldStays? && at in archives {
        archives := archives[at := archives[at] - fate.gone];
        return Kept;
      }
      archives := archives[at := staging];
      r := Kept;
    }

    /** Copies a stored result back: every file, or none if one is missing. */
    method Restore(at: Place, files: seq<string>, copies: nat) returns (r: Restored)
      modifies this`root
      ensures r == RestoreOutcome(old(Now()), at, files, copies)
      ensures root == RootAfterRestore(old(Now()), at, files, copies)
    {
      var dir := Held(archives, at);
      for i := 0 to |files|
        invariant forall f :: f in files[..i] ==> f in dir
      {
        assert files[..i + 1] == files[..i] + [files[i]];
        if files[i] !in dir {
          assert files[i] in files;
          return Incomplete;
        }
      }
      assert files[..|files|] == files;
      for i := 0 to |files|
        invariant i <= copies
        invariant root == old(root) + Taken(dir, files[..i])
      {
        if i == copies {
          return Broken;
        }
        assert files[..i + 1] == files[..i] + [files[i]];
        assert files[i] in files;
        root := root[files[i] := dir[files[i]]];
      }
      r := Whole;
    }

    /** After a run has succeeded: capture, hash, stamp and record. */
    method Finish(op: Op, digest: Digest)
      requires op.Finish?
      modifies this
      ensures Now() == Finished(old(Now()), op, digest)
    {
      hide OutputHash, ArchivesAfter;
      var outputs: seq<string> := [];
      var archived := true;
      match op.declared {
        case NoOutputs =>
        case BadGlobs => archived := false;
        case Collected(files) =>
          outputs := files;
          var kept := Archive(op.at, files, op.fate);
          archived := kept == Kept;
      }
      var outputHash := OutputHash(root, outputs, digest);
      stamps := stamps[op.task := KeyStamp(op.hash)];
      if outputHash.Some? {
        stamps := stamps[op.task := "out:" + outputHash.value];
      }
      assert stamps == old(stamps)[op.task := StampOf(op.hash, outputHash)];
      if op.stored {
        records := records[op.at := Record(op.hash, 0, outputs, archived, outputHash)];
        left := left[op.at := Left(Taken(root, outputs), StampOf(op.hash, outputHash))];
      }
    }

    /** Looks a task up; a hit replays the record and its stamp. */
    method LookUp(op: Op, digest: Digest) returns (served: bool)
      requires op.Hit?
      modifies this
      ensures served == Served(old(Now()), op)
      ensures Now() == LookedUp(old(Now()), op, digest)
    {
      hide OutputHash, RestoreOutcome, RootAfterRestore;
      stamps := stamps[op.task := KeyStamp(op.hash)];
      if op.at !in records || records[op.at].exitCode != 0 {
        return false;
      }
      var rec := records[op.at];
      ghost var before := Now();
      assert before == old(Now()).(stamps := stamps);
      if rec.archived {
        var restored := Restore(op.at, rec.outputs, op.copies);
        served := restored == Whole;
        StampsDoNotMatter(old(Now()), before, op);
      } else {
        served := op.present;
      }
      if served {
        var found := if rec.outputHash.Some? then rec.outputHash else OutputHash(root, rec.outputs, digest);
        if found.Some? {
          stamps := stamps[op.task := "out:" + found.value];
        }
      }
      assert stamps == LookedUp(old(Now()), op, digest).stamps;
    }

    /** Drops one result, as far as the deletions succeed. */
    method Drop(at: Place, record: bool, files: set<string>, digest: Digest)
      modifies this
      ensures Now() == Next(old(Now()), Op.Drop(at, record, files), digest)
    {
      if record {
        records := records - {at};
      }
      if at in archives {
        archives := archives[at := archives[at] - files];
      }
    }
  }

  lemma StampsDoNotMatter(a: State, b: State, op: Op)
    requires op.Hit? && op.at in a.records
    requires b == a.(stamps := b.stamps)
    ensures var files := a.records[op.at].outputs;
            && RestoreOutcome(a, op.at, files, op.copies) == RestoreOutcome(b, op.at, files, op.copies)
            && RootAfterRestore(a, op.at, files, op.copies) == RootAfterRestore(b, op.at, files, op.copies)
  {
  }
}
