/**
  Include and excludes globs. The meaning given to a glob is the one of the
  `globset` crate with its default options, where `*` and `?` cross `/`. From
  the first `[`, `{` or `\` on, the rest of a glob is handed to `tail`, an
  arbitrary relation, so what is proved here holds for any reading of those.
 */
module Globs {
  import opened Status

  datatype Result<T> = Ok(value: T) | Err(glob: string)

  const STARS: string := ['*', '*']
  const ANYWHERE: string := ['*', '*', '/']
  const BELOW: string := ['/', '*', '*']
  const ANY_DEPTH: string := ['/', '*', '*', '/']

  type Tail = (string, string) -> bool

  predicate IsMeta(c: char) {
    c == '*' || c == '?' || c == '[' || c == '{' || c == '\\'
  }

  /** How much of a glob is plain text: up to its first pattern character. */
  function Literal(g: string): (n: nat)
    ensures n <= |g|
    ensures forall k :: 0 <= k < n ==> !IsMeta(g[k])
    ensures n < |g| ==> IsMeta(g[n])
  {
    if g == "" || IsMeta(g[0]) then 0 else 1 + Literal(g[1..])
  }

  /** The last slash of a text. */
  function LastSlash(s: string): (at: Option<nat>)
    ensures at.Some? ==> at.value < |s| && s[at.value] == '/'
    ensures at.Some? ==> '/' !in s[at.value + 1..]
    ensures at.None? ==> '/' !in s
  {
    if s == "" then None
    else if s[|s| - 1] == '/' then Some(|s| - 1)
    else LastSlash(s[..|s| - 1])
  }

  /** Everything before the last slash. */
  function DirectoryOf(text: string): string {
    match LastSlash(text)
    case None => ""
    case Some(j) => text[..j]
  }

  /** Where everything a glob matches has to be. */
  function LiteralPrefix(g: string): string {
    var n := Literal(g);
    if n == |g| then g else DirectoryOf(g[..n])
  }

  predicate StartsWith(s: string, prefix: string) {
    |prefix| <= |s| && s[..|prefix|] == prefix
  }

  predicate Match(g: string, p: string, tail: Tail)
    decreases |g|
  {
    if g == "" then p == ""
    else if StartsWith(g, ANY_DEPTH) then
      if StartsWith(g[4..], ANYWHERE) || g[4..] == STARS then Match(g[3..], p, tail)
      else
        && p != ""
        && p[0] == '/'
        && (|| Match(g[4..], p[1..], tail)
            || exists k :: 1 <= k < |p| && p[k] == '/' && Match(g[4..], p[k + 1..], tail))
    else if g == BELOW then p != "" && p[0] == '/'
    else if g[0] == '*' then exists k :: 0 <= k <= |p| && Match(g[1..], p[k..], tail)
    else if g[0] == '?' then p != "" && Match(g[1..], p[1..], tail)
    else if IsMeta(g[0]) then tail(g, p)
    else p != "" && p[0] == g[0] && Match(g[1..], p[1..], tail)
  }

  /** A glob may open with `**` and a slash, which matches in any directory. */
  predicate GlobMatch(g: string, p: string, tail: Tail)
    decreases |g|
  {
    if !StartsWith(g, ANYWHERE) then Match(g, p, tail)
    else if StartsWith(g[3..], ANYWHERE) || g[3..] == STARS then GlobMatch(g[3..], p, tail)
    else
      || Match(g[3..], p, tail)
      || exists k :: 0 <= k < |p| && p[k] == '/' && Match(g[3..], p[k + 1..], tail)
  }

  /** Every component that stands for any depth closed up to one slash. */
  function Collapse(g: string): string {
    if g == "" then ""
    else if StartsWith(g, ANY_DEPTH) then "/" + Collapse(g[4..])
    else [g[0]] + Collapse(g[1..])
  }

  lemma {:induction false} MatchStarts(g: string, p: string, tail: Tail)
    requires Match(g, p, tail)
    ensures StartsWith(p, g[..Literal(g)])
    ensures Literal(g) == |g| ==> p == g
    decreases |g|
  {
    if g == "" || IsMeta(g[0]) {
    } else if StartsWith(g, ANY_DEPTH) {
      assert g[1] == '*';
      if StartsWith(g[4..], ANYWHERE) || g[4..] == STARS {
        assert g[3..][0] == '/' && IsMeta(g[3..][1]) && Literal(g[3..]) == 1;
        MatchStarts(g[3..], p, tail);
      }
      assert Literal(g) == 1;
      assert p[..1] == g[..1];
    } else if g == BELOW {
      assert g[1] == '*';
      assert Literal(g) == 1;
      assert p[..1] == g[..1];
    } else {
      MatchStarts(g[1..], p[1..], tail);
      var n := Literal(g);
      assert p == [p[0]] + p[1..];
      assert g == [g[0]] + g[1..];
      assert g[..n] == [g[0]] + g[1..][..n - 1];
      assert p[..n] == [p[0]] + p[1..][..n - 1];
    }
  }

  lemma GlobMatchStarts(g: string, p: string, tail: Tail)
    requires GlobMatch(g, p, tail)
    ensures StartsWith(p, g[..Literal(g)])
    ensures Literal(g) == |g| ==> p == g
  {
    if StartsWith(g, ANYWHERE) {
      assert g[0] == '*';
    } else {
      MatchStarts(g, p, tail);
    }
  }

  lemma {:induction false} CollapseKeepsLiteral(g: string)
    ensures StartsWith(Collapse(g), g[..Literal(g)])
    ensures Literal(g) == |g| ==> Collapse(g) == g
  {
    if g == "" || IsMeta(g[0]) {
    } else if StartsWith(g, ANY_DEPTH) {
      assert g[1] == '*';
      assert Literal(g) == 1;
    } else {
      CollapseKeepsLiteral(g[1..]);
      var n := Literal(g);
      var c := Collapse(g);
      assert c[1..] == Collapse(g[1..]);
      assert g[..n] == [g[0]] + g[1..][..n - 1];
      assert c[..n] == [g[0]] + c[1..][..n - 1];
      assert g == [g[0]] + g[1..];
    }
  }

  lemma {:induction false} LiteralIsLongest(c: string, n: nat)
    requires n <= |c|
    requires forall k :: 0 <= k < n ==> !IsMeta(c[k])
    ensures n <= Literal(c)
  {
    if n > 0 {
      assert !IsMeta(c[0]);
      LiteralIsLongest(c[1..], n - 1);
    }
  }

  /** What the closed-up form of a glob matches starts the same way. */
  lemma CollapsedMatchStarts(g: string, p: string, tail: Tail)
    requires GlobMatch(Collapse(g), p, tail)
    ensures StartsWith(p, g[..Literal(g)])
    ensures Literal(g) == |g| ==> p == g
  {
    var c, n := Collapse(g), Literal(g);
    CollapseKeepsLiteral(g);
    assert forall k :: 0 <= k < n ==> c[k] == c[..n][k] == g[k];
    LiteralIsLongest(c, n);
    GlobMatchStarts(c, p, tail);
    assert p[..n] == p[..Literal(c)][..n] == c[..Literal(c)][..n] == c[..n];
    if n == |g| {
      assert c == g;
    }
  }

  /** `dir` is a directory on the way to the path `p`. */
  predicate Above(dir: string, p: string) {
    dir == "" || StartsWith(p, dir + "/")
  }

  /** A directory and a root on one line of descent. */
  predicate Related(root: string, dir: string) {
    || root == ""
    || root == dir
    || StartsWith(root, dir + "/")
    || StartsWith(dir, root + "/")
  }

  lemma CommonPath(root: string, dir: string, p: string)
    requires StartsWith(p, root + "/") && StartsWith(p, dir + "/")
    ensures Related(root, dir)
  {
    var r, d := root + "/", dir + "/";
    if |root| < |dir| {
      assert dir[..|r|] == d[..|r|] == p[..|d|][..|r|] == r;
    } else if |dir| < |root| {
      assert root[..|d|] == r[..|d|] == p[..|r|][..|d|] == d;
    } else {
      assert root == r[..|root|] == d[..|root|] == dir;
    }
  }

  lemma StartsWithin(p: string, whole: string, part: string)
    requires StartsWith(p, whole) && StartsWith(whole, part)
    ensures StartsWith(p, part)
  {
    assert p[..|part|] == p[..|whole|][..|part|];
  }

  lemma TextEntersDirectory(text: string)
    requires DirectoryOf(text) != ""
    ensures StartsWith(text, DirectoryOf(text) + "/")
  {
    var j := LastSlash(text).value;
    assert text[..j + 1] == text[..j] + "/";
  }

  lemma PrefixMeets(g: string, dir: string, p: string)
    requires StartsWith(p, g[..Literal(g)])
    requires Literal(g) == |g| ==> p == g
    requires StartsWith(p, dir + "/")
    ensures Related(LiteralPrefix(g), dir)
  {
    if Literal(g) < |g| {
      hide StartsWith, DirectoryOf, Literal;
      var root := LiteralPrefix(g);
      if root != "" {
        TextEntersDirectory(g[..Literal(g)]);
        StartsWithin(p, g[..Literal(g)], root + "/");
        CommonPath(root, dir, p);
      }
    }
  }

  /** Include and exclude sets, and where the includes can match. */
  datatype Matcher = Matcher(includes: set<string>, excludes: set<string>, empty: bool, roots: set<string>)

  function GlobSetOf(globs: seq<string>, valid: string -> bool): set<string> {
    (set g | g in globs) + (set g | g in globs && valid(Collapse(g)) :: Collapse(g))
  }

  function MatcherOf(includes: seq<string>, excludes: seq<string>, valid: string -> bool): Matcher {
    Matcher(GlobSetOf(includes, valid), GlobSetOf(excludes, valid), includes == [],
            set g | g in includes :: LiteralPrefix(g))
  }

  predicate MayContain(m: Matcher, dir: string) {
    && !m.empty
    && (dir == "" || exists r :: r in m.roots && Related(r, dir))
  }

  predicate InSet(globs: set<string>, p: string, tail: Tail) {
    exists g :: g in globs && GlobMatch(g, p, tail)
  }

  predicate Matches(m: Matcher, p: string, tail: Tail) {
    !m.empty && InSet(m.includes, p, tail) && !InSet(m.excludes, p, tail)
  }

  /** Some glob of a list matches, as it is written or, where that is a valid glob,
      closed up. */
  ghost predicate AnyMatches(globs: seq<string>, valid: string -> bool, p: string, tail: Tail) {
    exists g :: g in globs && EitherMatches(g, valid, p, tail)
  }

  predicate EitherMatches(g: string, valid: string -> bool, p: string, tail: Tail) {
    GlobMatch(g, p, tail) || (valid(Collapse(g)) && GlobMatch(Collapse(g), p, tail))
  }

  lemma SetMatchesList(globs: seq<string>, valid: string -> bool, p: string, tail: Tail)
    ensures InSet(GlobSetOf(globs, valid), p, tail) <==> AnyMatches(globs, valid, p, tail)
  {
    hide GlobMatch, Collapse;
    if g :| g in GlobSetOf(globs, valid) && GlobMatch(g, p, tail) {
      if g in globs {
        assert EitherMatches(g, valid, p, tail);
      } else {
        var h :| h in globs && valid(Collapse(h)) && Collapse(h) == g;
        assert EitherMatches(h, valid, p, tail);
      }
    }
    if g :| g in globs && EitherMatches(g, valid, p, tail) {
      if GlobMatch(g, p, tail) {
        assert g in GlobSetOf(globs, valid);
      } else {
        assert Collapse(g) in GlobSetOf(globs, valid);
      }
    }
  }

  /** A path is wanted exactly if an include matches it and no exclude does. */
  lemma WantedExactly(includes: seq<string>, excludes: seq<string>, valid: string -> bool, p: string, tail: Tail)
    ensures Matches(MatcherOf(includes, excludes, valid), p, tail)
      <==> AnyMatches(includes, valid, p, tail) && !AnyMatches(excludes, valid, p, tail)
  {
    hide GlobMatch, Collapse, InSet, GlobSetOf, EitherMatches;
    SetMatchesList(includes, valid, p, tail);
    SetMatchesList(excludes, valid, p, tail);
  }

  /** A directory is entered only if it lies on one path with what some include
      begins with. */
  lemma EnteredOnlyOnTheWay(includes: seq<string>, excludes: seq<string>, valid: string -> bool, dir: string)
    ensures MayContain(MatcherOf(includes, excludes, valid), dir) <==>
      && includes != []
      && (dir == "" || exists g, p: string :: g in includes && OnTheWay(LiteralPrefix(g), dir, p))
  {
    hide LiteralPrefix;
    var m := MatcherOf(includes, excludes, valid);
    if dir != "" {
      if r :| r in m.roots && Related(r, dir) {
        var g :| g in includes && LiteralPrefix(g) == r;
        var p := if r == "" || StartsWith(dir, r + "/") then dir + "/" else r + "/";
        RelatedMeet(r, dir);
        assert OnTheWay(LiteralPrefix(g), dir, p);
      }
      if g, p: string :| g in includes && OnTheWay(LiteralPrefix(g), dir, p) {
        assert LiteralPrefix(g) in m.roots;
        if LiteralPrefix(g) != "" { CommonPath(LiteralPrefix(g), dir, p); }
      }
    }
  }

  /** A path below both. */
  predicate OnTheWay(root: string, dir: string, p: string) {
    (root == "" || StartsWith(p, root + "/")) && StartsWith(p, dir + "/")
  }

  lemma RelatedMeet(r: string, dir: string)
    requires Related(r, dir) && dir != ""
    ensures OnTheWay(r, dir, if r == "" || StartsWith(dir, r + "/") then dir + "/" else r + "/")
  {
    if r != "" && StartsWith(dir, r + "/") {
      StartsWithin(dir + "/", dir, r + "/");
    } else if r != "" && StartsWith(r, dir + "/") {
      StartsWithin(r + "/", r, dir + "/");
    }
  }

  /** Every directory above a matching path may contain something: nothing
      that matches is ever pruned away, whether a glob or its closed-up form
      is what matches. */
  lemma AncestorsOfAMatchAreKept(includes: seq<string>, excludes: seq<string>, valid: string -> bool,
                                 p: string, dir: string, tail: Tail)
    requires Matches(MatcherOf(includes, excludes, valid), p, tail)
    requires Above(dir, p)
    ensures MayContain(MatcherOf(includes, excludes, valid), dir)
  {
    hide GlobMatch, Match, Collapse, LiteralPrefix, StartsWith, Related;
    var m := MatcherOf(includes, excludes, valid);
    if dir != "" {
      var c :| c in m.includes && GlobMatch(c, p, tail);
      var g :| g in includes && (c == g || c == Collapse(g));
      if c == g {
        GlobMatchStarts(g, p, tail);
      } else {
        CollapsedMatchStarts(g, p, tail);
      }
      PrefixMeets(g, dir, p);
      assert LiteralPrefix(g) in m.roots;
    }
  }

  method BuildSet(globs: seq<string>, valid: string -> bool) returns (r: Result<set<string>>)
    ensures r.Ok? <==> forall g :: g in globs ==> valid(g)
    ensures r.Ok? ==> r.value == GlobSetOf(globs, valid)
    ensures r.Err? ==> r.glob in globs && !valid(r.glob)
  {
    var b := {};
    for i := 0 to |globs|
      invariant forall g :: g in globs[..i] ==> valid(g)
      invariant b == GlobSetOf(globs[..i], valid)
    {
      var g := globs[i];
      assert globs[..i + 1] == globs[..i] + [g];
      if !valid(g) {
        return Err(g);
      }
      b := b + {g};
      var collapsed := Collapse(g);
      if collapsed != g && valid(collapsed) {
        b := b + {collapsed};
      }
    }
    assert globs[..|globs|] == globs;
    r := Ok(b);
  }

  /** Building a matcher fails exactly on an invalid glob. */
  method NewMatcher(includes: seq<string>, excludes: seq<string>, valid: string -> bool)
    returns (r: Result<Matcher>)
    ensures r.Ok? <==> forall g :: g in includes + excludes ==> valid(g)
    ensures r.Ok? ==> r.value == MatcherOf(includes, excludes, valid)
    ensures r.Err? ==> r.glob in includes + excludes && !valid(r.glob)
  {
    var roots := set g | g in includes :: LiteralPrefix(g);
    var wanted := BuildSet(includes, valid);
    if wanted.Err? {
      return Err(wanted.glob);
    }
    var unwanted := BuildSet(excludes, valid);
    if unwanted.Err? {
      return Err(unwanted.glob);
    }
    r := Ok(Matcher(wanted.value, unwanted.value, includes == [], roots));
  }
}
