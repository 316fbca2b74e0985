/** Where the cache does not agree with running, on concrete histories. */
module ReplayLimits {
  import opened Status
  import opened Replay

  const PLACE: Place := ("build", "0f")
  const OUT := "dist/app"

  function Holding(content: Bytes): Files {
    map[OUT := content]
  }

  function Empty(): State {
    State(map[], map[], map[], map[], map[])
  }

  function Ran(fate: Fate, stored: bool): Op {
    Finish("build", PLACE, "0f", Collected([OUT]), fate, stored)
  }

  function Looked(): Op {
    Hit("build", PLACE, "0f", true, 1)
  }

  lemma Listed(content: Bytes)
    ensures Listing(Holding(content), [OUT]) == [(OUT, content)]
    ensures Total(Holding(content), [OUT]) == |content|
    ensures Taken(Holding(content), [OUT]) == Holding(content)
  {
    assert [OUT][..0] == [];
  }

  /** An unarchived record is served when its paths exist. The stamp is then the
      record's whatever the files hold now: right exactly if they still hash
      to it. */
  lemma UnarchivedHitStampsTheRecord(s: State, op: Op, digest: Digest)
    requires op.Hit? && op.at in s.records && !s.records[op.at].archived && s.records[op.at].exitCode == 0
    requires s.records[op.at].outputHash.Some?
    ensures Served(s, op) <==> op.present
    ensures op.present ==> Next(s, op, digest).root == s.root
    ensures op.present ==>
      (Next(s, op, digest).stamps[op.task] == StampOf(op.hash, OutputHash(s.root, s.records[op.at].outputs, digest))
       <==> s.records[op.at].outputHash == OutputHash(s.root, s.records[op.at].outputs, digest))
  {
    hide OutputHash;
    var found := OutputHash(s.root, s.records[op.at].outputs, digest);
    var kept := s.records[op.at].outputHash;
    assert StampOf(op.hash, kept)[0] == 'o' && StampOf(op.hash, kept)[4..] == kept.value;
    if found.Some? {
      assert StampOf(op.hash, found)[4..] == found.value;
    } else {
      assert StampOf(op.hash, found)[0] == 'k';
    }
  }

  /** A run whose archiving fails, an edit of the output, and a hit: the edited
      file is left, under the stamp of what the run made. */
  lemma UnarchivedHitCanLie(digest: Digest)
    ensures var ops := [Change(Holding([0])), Ran(CopyFails, true), Change(Holding([1]))];
            var s := Run(Empty(), ops, digest);
            && Served(s, Looked())
            && Next(s, Looked(), digest).root == Holding([1])
            && Next(s, Looked(), digest).stamps["build"] == "out:" + digest([(OUT, [0])])
  {
    hide OutputHash, Total;
    var ops := [Change(Holding([0])), Ran(CopyFails, true), Change(Holding([1]))];
    assert ops[..2] == [Change(Holding([0])), Ran(CopyFails, true)];
    assert ops[..2][..1] == [Change(Holding([0]))];
    assert ops[..1][..0] == [];
    Listed([0]);
    OutHash([0], digest);
    var s1 := Empty().(root := Holding([0]));
    assert Run(Empty(), ops[..1], digest) == s1;
    var s2 := Finished(s1, Ran(CopyFails, true), digest);
    assert Run(Empty(), ops[..2], digest) == s2;
    assert s2.records[PLACE] == Record("0f", 0, [OUT], false, Some(digest([(OUT, [0])])));
  }

  lemma OutHash(content: Bytes, digest: Digest)
    ensures OutputHash(Holding(content), [OUT], digest) == Some(digest([(OUT, content)]))
  {
    Listed(content);
  }

  /** Two runs under one key that made different bytes, the second's record not
      written: the first record is then served with the second's archive. */
  lemma LostRecordPairsWithAnotherArchive(digest: Digest)
    ensures var s1 := Finished(Empty().(root := Holding([0])), Ran(Copies, true), digest);
            var s2 := Finished(s1.(root := Holding([1])), Ran(Copies, false), digest);
            var after := Next(s2, Looked(), digest);
            && Served(s2, Looked())
            && after.root == Holding([1])
            && after.stamps["build"] == "out:" + digest([(OUT, [0])])
            && s2.left[PLACE].files == Holding([0])
  {
    hide OutputHash, Total;
    Listed([0]);
    Listed([1]);
    OutHash([0], digest);
    OutHash([1], digest);
    var s1 := Finished(Empty().(root := Holding([0])), Ran(Copies, true), digest);
    assert s1.records[PLACE] == Record("0f", 0, [OUT], true, Some(digest([(OUT, [0])])));
    var s2 := Finished(s1.(root := Holding([1])), Ran(Copies, false), digest);
    assert s2.archives[PLACE] == Holding([1]);
    assert s2.records == s1.records;
  }
}
