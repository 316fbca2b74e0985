/**
  Hashing a workspace's input files. The walk stays out of directories the
  globs cannot reach; what it hashes must be what a walk of everything would.
  Which entries a `.gitignore` hides is an arbitrary relation on paths: the
  pruned walk reads the same ignore files on the way to every match.
 */
module PrunedWalk {
  import opened Status
  import opened Globs

  type Bytes = seq<bv8>

  datatype Entry = Entry(name: string, node: Node)

  /** `bytes` is None for a file that cannot be read; `Other` is a link or a device. */
  datatype Node = File(bytes: Option<Bytes>) | Dir(entries: seq<Entry>) | Other

  datatype Found = Found(rel: string, bytes: Option<Bytes>)

  /** Paths are handed to the globs with forward slashes. */
  function Slashes(path: string): (r: string)
    ensures |r| == |path|
  {
    seq(|path|, i requires 0 <= i < |path| => if path[i] == '\\' then '/' else path[i])
  }

  function Join(dir: string, name: string): string {
    if dir == "" then name else dir + "/" + name
  }

  predicate Kept(prune: Option<Matcher>, dir: string) {
    prune.None? || MayContain(prune.value, Slashes(dir))
  }

  /** The files of a walk in its order, each with its path from the root. */
  function Walk(dir: string, entries: seq<Entry>, prune: Option<Matcher>,
                ignored: (string, bool) -> bool): seq<Found>
    decreases entries
  {
    if entries == [] then []
    else Visit(Join(dir, entries[0].name), entries[0].node, prune, ignored)
         + Walk(dir, entries[1..], prune, ignored)
  }

  function Visit(path: string, node: Node, prune: Option<Matcher>, ignored: (string, bool) -> bool): seq<Found>
    decreases node
  {
    match node
    case File(bytes) => if ignored(path, false) then [] else [Found(Slashes(path), bytes)]
    case Dir(entries) =>
      if ignored(path, true) || !Kept(prune, path) then [] else Walk(path, entries, prune, ignored)
    case Other => []
  }

  function Matching(found: seq<Found>, m: Matcher, tail: Tail): seq<Found> {
    if found == [] then []
    else (if Matches(m, found[0].rel, tail) then [found[0]] else []) + Matching(found[1..], m, tail)
  }

  lemma {:induction false} MatchingSplits(a: seq<Found>, b: seq<Found>, m: Matcher, tail: Tail)
    ensures Matching(a + b, m, tail) == Matching(a, m, tail) + Matching(b, m, tail)
  {
    hide Matches;
    if a == [] {
      assert a + b == b;
    } else {
      MatchingSplits(a[1..], b, m, tail);
      assert (a + b)[1..] == a[1..] + b;
    }
  }

  lemma {:induction false} NoneMatch(found: seq<Found>, m: Matcher, tail: Tail)
    requires forall f :: f in found ==> !Matches(m, f.rel, tail)
    ensures Matching(found, m, tail) == []
  {
    hide Matches;
    if found != [] {
      assert found[0] in found;
      NoneMatch(found[1..], m, tail);
    }
  }

  lemma SlashesJoin(dir: string, name: string)
    ensures Above(Slashes(dir), Slashes(Join(dir, name)))
  {
    if dir != "" {
      assert Slashes(Join(dir, name))[..|dir| + 1] == Slashes(dir) + "/";
    }
  }

  lemma AboveBelow(dir: string, path: string, p: string)
    requires path != ""
    requires Above(Slashes(dir), Slashes(path)) && Above(Slashes(path), p)
    ensures Above(Slashes(dir), p)
  {
    var d, s := Slashes(dir), Slashes(path);
    if d != "" {
      StartsWithin(p, s + "/", s);
      StartsWithin(p, s, d + "/");
    }
  }

  /** What a walk finds under a directory lies under that directory. Names are
      not empty, so nothing below the root has the root's path. */
  lemma {:induction false} FoundBelow(dir: string, entries: seq<Entry>, prune: Option<Matcher>,
                                      ignored: (string, bool) -> bool, f: Found)
    requires Named(entries)
    requires f in Walk(dir, entries, prune, ignored)
    ensures Above(Slashes(dir), f.rel)
    decreases entries
  {
    hide Above;
    var path, node := Join(dir, entries[0].name), entries[0].node;
    if f in Visit(path, node, prune, ignored) {
      SlashesJoin(dir, entries[0].name);
      if node.Dir? {
        FoundBelow(path, node.entries, prune, ignored, f);
        AboveBelow(dir, path, f.rel);
      }
    } else {
      FoundBelow(dir, entries[1..], prune, ignored, f);
    }
  }

  /** No file or directory has an empty name. */
  predicate Named(entries: seq<Entry>)
    decreases entries
  {
    entries == [] || (entries[0].name != "" && NamedNode(entries[0].node) && Named(entries[1..]))
  }

  predicate NamedNode(node: Node)
    decreases node
  {
    node.Dir? ==> Named(node.entries)
  }

  lemma PrunedHoldsNoMatch(dir: string, entries: seq<Entry>, ignored: (string, bool) -> bool,
                           includes: seq<string>, excludes: seq<string>, valid: string -> bool, tail: Tail)
    requires Named(entries)
    requires !MayContain(MatcherOf(includes, excludes, valid), Slashes(dir))
    ensures Matching(Walk(dir, entries, None, ignored), MatcherOf(includes, excludes, valid), tail) == []
  {
    hide Matches, MayContain, Above, Walk;
    var m := MatcherOf(includes, excludes, valid);
    var found := Walk(dir, entries, None, ignored);
    forall f | f in found ensures !Matches(m, f.rel, tail) {
      FoundBelow(dir, entries, None, ignored, f);
      if Matches(m, f.rel, tail) {
        AncestorsOfAMatchAreKept(includes, excludes, valid, f.rel, Slashes(dir), tail);
      }
    }
    NoneMatch(found, m, tail);
  }

  /** Below any directory the pruned walk finds, in the same order, exactly
      the matching files of the full walk. */
  lemma {:induction false} PrunedWalkIsFullWalk(dir: string, entries: seq<Entry>, ignored: (string, bool) -> bool,
                                                includes: seq<string>, excludes: seq<string>,
                                                valid: string -> bool, tail: Tail)
    requires Named(entries)
    ensures var m := MatcherOf(includes, excludes, valid);
            Matching(Walk(dir, entries, Some(m), ignored), m, tail)
            == Matching(Walk(dir, entries, None, ignored), m, tail)
    decreases entries
  {
    hide Matching, MatcherOf, MayContain;
    var m := MatcherOf(includes, excludes, valid);
    if entries != [] {
      var path, node := Join(dir, entries[0].name), entries[0].node;
      PrunedWalkIsFullWalk(dir, entries[1..], ignored, includes, excludes, valid, tail);
      var pruned, full := Visit(path, node, Some(m), ignored), Visit(path, node, None, ignored);
      MatchingSplits(pruned, Walk(dir, entries[1..], Some(m), ignored), m, tail);
      MatchingSplits(full, Walk(dir, entries[1..], None, ignored), m, tail);
      if node.Dir? && !ignored(path, true) {
        if Kept(Some(m), path) {
          PrunedWalkIsFullWalk(path, node.entries, ignored, includes, excludes, valid, tail);
        } else {
          PrunedHoldsNoMatch(path, node.entries, ignored, includes, excludes, valid, tail);
          NoneMatch([], m, tail);
        }
      }
    }
  }

  /** The hashes of the readable files, by path. */
  function Hashes(found: seq<Found>, hash: Bytes -> string): map<string, string> {
    if found == [] then map[]
    else
      var files := Hashes(found[..|found| - 1], hash);
      var last := found[|found| - 1];
      if last.bytes.Some? then files[last.rel := hash(last.bytes.value)] else files
  }

  lemma {:induction false} MatchingGrows(found: seq<Found>, f: Found, m: Matcher, tail: Tail)
    ensures Matching(found + [f], m, tail)
         == Matching(found, m, tail) + (if Matches(m, f.rel, tail) then [f] else [])
  {
    hide Matches;
    MatchingSplits(found, [f], m, tail);
    assert Matching([f], m, tail) == (if Matches(m, f.rel, tail) then [f] else []) + Matching([f][1..], m, tail);
  }

  lemma HashesGrow(found: seq<Found>, f: Found, hash: Bytes -> string)
    ensures Hashes(found + [f], hash)
         == (if f.bytes.Some? then Hashes(found, hash)[f.rel := hash(f.bytes.value)] else Hashes(found, hash))
  {
    assert (found + [f])[..|found + [f]| - 1] == found;
  }

  lemma {:induction false} MatchingHolds(found: seq<Found>, m: Matcher, tail: Tail, f: Found)
    ensures f in Matching(found, m, tail) <==> f in found && Matches(m, f.rel, tail)
  {
    hide Matches;
    if found != [] {
      MatchingHolds(found[1..], m, tail, f);
      assert found == [found[0]] + found[1..];
    }
  }

  /** What is hashed, of what a walk found: the readable files that an include
      matches and no exclude does. */
  lemma HashedExactly(found: seq<Found>, includes: seq<string>, excludes: seq<string>, valid: string -> bool,
                      tail: Tail, hash: Bytes -> string)
    ensures forall rel :: rel in Hashes(Matching(found, MatcherOf(includes, excludes, valid), tail), hash) <==>
      && (exists f :: f in found && f.rel == rel && f.bytes.Some?)
      && AnyMatches(includes, valid, rel, tail) && !AnyMatches(excludes, valid, rel, tail)
  {
    hide Hashes, Matching, Matches, MatcherOf, AnyMatches;
    var m := MatcherOf(includes, excludes, valid);
    forall rel ensures rel in Hashes(Matching(found, m, tail), hash) <==>
      && (exists f :: f in found && f.rel == rel && f.bytes.Some?)
      && AnyMatches(includes, valid, rel, tail) && !AnyMatches(excludes, valid, rel, tail)
    {
      HashesMean(Matching(found, m, tail), hash, rel);
      WantedExactly(includes, excludes, valid, rel, tail);
      forall f { MatchingHolds(found, m, tail, f); }
    }
  }

  /** A chain of entries from a directory down to a file, none of them ignored. */
  predicate Leads(dir: string, entries: seq<Entry>, chain: seq<Entry>, ignored: (string, bool) -> bool, f: Found)
    decreases |chain|
  {
    && chain != [] && chain[0] in entries
    && var path := Join(dir, chain[0].name);
       if |chain| == 1 then
         chain[0].node.File? && !ignored(path, false) && f == Found(Slashes(path), chain[0].node.bytes)
       else
         chain[0].node.Dir? && !ignored(path, true) && Leads(path, chain[0].node.entries, chain[1..], ignored, f)
  }

  ghost predicate IsLedTo(dir: string, entries: seq<Entry>, ignored: (string, bool) -> bool, f: Found) {
    exists chain :: Leads(dir, entries, chain, ignored, f)
  }

  lemma LedInto(dir: string, entries: seq<Entry>, chain: seq<Entry>, ignored: (string, bool) -> bool, f: Found)
    requires Leads(dir, entries, chain, ignored, f)
    ensures IsLedTo(dir, entries, ignored, f)
  {
  }

  /** The full walk finds exactly the files such a chain leads to. */
  lemma {:induction false} WalkFindsExactly(dir: string, entries: seq<Entry>, ignored: (string, bool) -> bool, f: Found)
    ensures f in Walk(dir, entries, None, ignored) <==> IsLedTo(dir, entries, ignored, f)
    decreases entries
  {
    if entries != [] {
      var e, rest := entries[0], entries[1..];
      WalkFindsExactly(dir, rest, ignored, f);
      if e.node.Dir? { WalkFindsExactly(Join(dir, e.name), e.node.entries, ignored, f); }
      VisitLeads(dir, e, ignored, f);
      FirstOrRest(dir, e, rest, ignored, f);
      assert entries == [e] + rest;
      hide IsLedTo;
    }
  }

  lemma FirstOrRest(dir: string, e: Entry, rest: seq<Entry>, ignored: (string, bool) -> bool, f: Found)
    ensures IsLedTo(dir, [e] + rest, ignored, f) <==> IsLedTo(dir, [e], ignored, f) || IsLedTo(dir, rest, ignored, f)
  {
    if chain :| Leads(dir, [e] + rest, chain, ignored, f) {
      LedInto(dir, if chain[0] == e then [e] else rest, chain, ignored, f);
    }
    if chain :| Leads(dir, [e], chain, ignored, f) { LedInto(dir, [e] + rest, chain, ignored, f); }
    if chain :| Leads(dir, rest, chain, ignored, f) { LedInto(dir, [e] + rest, chain, ignored, f); }
  }

  lemma VisitLeads(dir: string, e: Entry, ignored: (string, bool) -> bool, f: Found)
    requires e.node.Dir? ==>
      var path := Join(dir, e.name);
      (f in Walk(path, e.node.entries, None, ignored) <==> IsLedTo(path, e.node.entries, ignored, f))
    ensures f in Visit(Join(dir, e.name), e.node, None, ignored) <==> IsLedTo(dir, [e], ignored, f)
  {
    hide Walk;
    var path := Join(dir, e.name);
    if f in Visit(path, e.node, None, ignored) {
      if e.node.File? {
        LedInto(dir, [e], [e], ignored, f);
      } else {
        var chain :| Leads(path, e.node.entries, chain, ignored, f);
        assert ([e] + chain)[1..] == chain;
        LedInto(dir, [e], [e] + chain, ignored, f);
      }
    }
    if chain :| Leads(dir, [e], chain, ignored, f) {
      assert chain[0] == e;
      if |chain| > 1 { LedInto(path, e.node.entries, chain[1..], ignored, f); }
    }
  }

  /** Hashes every matching file, walking only where the globs can reach. The
      result is that of the full walk, filtered. */
  method FingerprintFiles(entries: seq<Entry>, ignored: (string, bool) -> bool, includes: seq<string>,
                          excludes: seq<string>, valid: string -> bool, tail: Tail, hash: Bytes -> string)
    returns (files: map<string, string>)
    requires Named(entries)
    ensures files == Hashes(Matching(Walk("", entries, None, ignored), MatcherOf(includes, excludes, valid), tail), hash)
    ensures forall rel :: rel in files <==>
      && (exists f :: f in Walk("", entries, None, ignored) && f.rel == rel && f.bytes.Some?)
      && AnyMatches(includes, valid, rel, tail) && !AnyMatches(excludes, valid, rel, tail)
  {
    hide Walk, MatcherOf, Matches, AnyMatches;
    HashedExactly(Walk("", entries, None, ignored), includes, excludes, valid, tail, hash);
    var m := MatcherOf(includes, excludes, valid);
    files := map[];
    PrunedWalkIsFullWalk("", entries, ignored, includes, excludes, valid, tail);
    if m.empty {
      EmptyMatchesNothing(Walk("", entries, None, ignored), m, tail);
      return;
    }
    var walk := Walk("", entries, Some(m), ignored);
    for i := 0 to |walk|
      invariant files == Hashes(Matching(walk[..i], m, tail), hash)
    {
      var f := walk[i];
      assert walk[..i + 1] == walk[..i] + [f];
      MatchingGrows(walk[..i], f, m, tail);
      HashesGrow(Matching(walk[..i], m, tail), f, hash);
      assert Matching(walk[..i], m, tail) + [] == Matching(walk[..i], m, tail);
      if !Matches(m, f.rel, tail) {
        continue;
      }
      if f.bytes.None? {
        continue;
      }
      files := files[f.rel := hash(f.bytes.value)];
    }
    assert walk[..|walk|] == walk;
  }

  lemma EmptyMatchesNothing(found: seq<Found>, m: Matcher, tail: Tail)
    requires m.empty
    ensures Matching(found, m, tail) == []
  {
    NoneMatch(found, m, tail);
  }

  /** What is hashed: exactly the readable files of the whole walk that match,
      by the content each path was last found with. */
  lemma {:induction false} HashesMean(found: seq<Found>, hash: Bytes -> string, rel: string)
    ensures rel in Hashes(found, hash) <==> exists f :: f in found && f.rel == rel && f.bytes.Some?
    ensures rel in Hashes(found, hash) ==>
      exists f :: f in found && f.rel == rel && f.bytes.Some? && Hashes(found, hash)[rel] == hash(f.bytes.value)
  {
    if found != [] {
      var front, last := found[..|found| - 1], found[|found| - 1];
      HashesMean(front, hash, rel);
      assert found == front + [last];
      assert last in found;
      assert forall f :: f in found <==> f in front || f == last;
    }
  }
}
