/** What a glob means, said without matching: its parts each stand for some pieces
    of text, and it matches the paths made of one such piece after another. */
module GlobMeaning {
  import opened Globs

  /** The parts of a glob: a character, any one character, any text, and directories:
      any number of them on the way, everything below, and any to begin with. What
      follows the first `[`, `{` or backslash is one part. */
  datatype Part = Char(c: char) | One | Run | Depth | Under | Opening | Rest(g: string)

  predicate Stands(part: Part, piece: string, tail: Tail) {
    match part
    case Char(c) => piece == [c]
    case One => |piece| == 1
    case Run => true
    case Depth => piece != "" && piece[0] == '/' && piece[|piece| - 1] == '/'
    case Under => piece != "" && piece[0] == '/'
    case Opening => piece == "" || piece[|piece| - 1] == '/'
    case Rest(g) => tail(g, piece)
  }

  function Parts(g: string): seq<Part>
    decreases |g|
  {
    if g == "" then []
    else if StartsWith(g, ANY_DEPTH) then
      if StartsWith(g[4..], ANYWHERE) || g[4..] == STARS then Parts(g[3..]) else [Depth] + Parts(g[4..])
    else if g == BELOW then [Under]
    else if g[0] == '*' then [Run] + Parts(g[1..])
    else if g[0] == '?' then [One] + Parts(g[1..])
    else if IsMeta(g[0]) then [Rest(g)]
    else [Char(g[0])] + Parts(g[1..])
  }

  function AllParts(g: string): seq<Part>
    decreases |g|
  {
    if !StartsWith(g, ANYWHERE) then Parts(g)
    else if StartsWith(g[3..], ANYWHERE) || g[3..] == STARS then AllParts(g[3..])
    else [Opening] + Parts(g[3..])
  }

  function Concat(pieces: seq<string>): string {
    if pieces == [] then "" else pieces[0] + Concat(pieces[1..])
  }

  predicate Fit(parts: seq<Part>, pieces: seq<string>, tail: Tail) {
    |pieces| == |parts| && forall i | 0 <= i < |parts| :: Stands(parts[i], pieces[i], tail)
  }

  /** `p` is one piece after another, each one its part stands for. */
  ghost predicate MadeOf(parts: seq<Part>, p: string, tail: Tail) {
    exists pieces :: Fit(parts, pieces, tail) && Concat(pieces) == p
  }

  lemma MadeOfNothing(p: string, tail: Tail)
    ensures MadeOf([], p, tail) <==> p == ""
  {
    assert Fit([], [], tail) && Concat([]) == "";
  }

  /** A first piece, and the rest. */
  lemma MadeOfFirst(part: Part, parts: seq<Part>, p: string, tail: Tail)
    ensures MadeOf([part] + parts, p, tail)
      <==> exists k :: 0 <= k <= |p| && Stands(part, p[..k], tail) && MadeOf(parts, p[k..], tail)
  {
    hide Stands;
    if pieces :| Fit([part] + parts, pieces, tail) && Concat(pieces) == p {
      var k := |pieces[0]|;
      assert p[..k] == pieces[0] && p[k..] == Concat(pieces[1..]);
      assert Stands(([part] + parts)[0], pieces[0], tail);
      forall i | 0 <= i < |parts| ensures Stands(parts[i], pieces[1..][i], tail) {
        assert Stands(([part] + parts)[i + 1], pieces[i + 1], tail);
      }
      assert Fit(parts, pieces[1..], tail);
    }
    if k :| 0 <= k <= |p| && Stands(part, p[..k], tail) && MadeOf(parts, p[k..], tail) {
      var pieces :| Fit(parts, pieces, tail) && Concat(pieces) == p[k..];
      var all := [p[..k]] + pieces;
      assert all[1..] == pieces;
      assert Fit([part] + parts, all, tail);
      assert Concat(all) == p[..k] + p[k..] == p;
    }
  }

  /** Matching a glob is being made of pieces its parts stand for. */
  lemma {:induction false} MatchMeans(g: string, p: string, tail: Tail)
    ensures Match(g, p, tail) <==> MadeOf(Parts(g), p, tail)
    decreases |g|
  {
    hide MadeOf;
    if g == "" {
      MadeOfNothing(p, tail);
    } else if StartsWith(g, ANY_DEPTH) {
      if StartsWith(g[4..], ANYWHERE) || g[4..] == STARS {
        MatchMeans(g[3..], p, tail);
      } else {
        DepthMeans(g, p, tail);
      }
    } else if g == BELOW {
      UnderMeans(p, tail);
    } else if g[0] == '*' {
      MadeOfFirst(Run, Parts(g[1..]), p, tail);
      forall k | 0 <= k <= |p| { MatchMeans(g[1..], p[k..], tail); }
    } else if g[0] == '?' {
      OneMeans(One, g, p, tail);
    } else if IsMeta(g[0]) {
      RestMeans(g, p, tail);
    } else {
      OneMeans(Char(g[0]), g, p, tail);
    }
  }

  lemma OneMeans(part: Part, g: string, p: string, tail: Tail)
    requires g != "" && (part.One? || part.Char?)
    ensures MadeOf([part] + Parts(g[1..]), p, tail)
      <==> p != "" && (part.Char? ==> p[0] == part.c) && Match(g[1..], p[1..], tail)
    decreases |g|, 0
  {
    hide MadeOf;
    MadeOfFirst(part, Parts(g[1..]), p, tail);
    if p != "" { MatchMeans(g[1..], p[1..], tail); }
    if p != "" && (part.Char? ==> p[0] == part.c) && Match(g[1..], p[1..], tail) {
      assert Stands(part, p[..1], tail);
    }
  }

  lemma UnderMeans(p: string, tail: Tail)
    ensures MadeOf([Under], p, tail) <==> p != "" && p[0] == '/'
  {
    hide MadeOf;
    MadeOfFirst(Under, [], p, tail);
    assert [Under] + [] == [Under];
    forall k | 0 <= k <= |p| { MadeOfNothing(p[k..], tail); }
    if p != "" && p[0] == '/' { assert p[..|p|] == p && p[|p|..] == ""; }
  }

  lemma RestMeans(g: string, p: string, tail: Tail)
    ensures MadeOf([Rest(g)], p, tail) <==> tail(g, p)
  {
    hide MadeOf;
    MadeOfFirst(Rest(g), [], p, tail);
    assert [Rest(g)] + [] == [Rest(g)];
    forall k | 0 <= k <= |p| { MadeOfNothing(p[k..], tail); }
    assert p[..|p|] == p && p[|p|..] == "";
    assert forall k | 0 <= k <= |p| && p[k..] == "" :: p[..k] == p;
  }

  lemma DepthMeans(g: string, p: string, tail: Tail)
    requires StartsWith(g, ANY_DEPTH) && !StartsWith(g[4..], ANYWHERE) && g[4..] != STARS
    ensures Match(g, p, tail) <==> MadeOf([Depth] + Parts(g[4..]), p, tail)
    decreases |g|, 0
  {
    hide MadeOf;
    MadeOfFirst(Depth, Parts(g[4..]), p, tail);
    forall k | 0 <= k <= |p| { MatchMeans(g[4..], p[k..], tail); }
    if Match(g, p, tail) {
      if Match(g[4..], p[1..], tail) {
        assert Stands(Depth, p[..1], tail) && MadeOf(Parts(g[4..]), p[1..], tail);
      } else {
        var k :| 1 <= k < |p| && p[k] == '/' && Match(g[4..], p[k + 1..], tail);
        assert Stands(Depth, p[..k + 1], tail) && MadeOf(Parts(g[4..]), p[k + 1..], tail);
      }
    }
    if k :| 0 <= k <= |p| && Stands(Depth, p[..k], tail) && MadeOf(Parts(g[4..]), p[k..], tail) {
      assert p[..k][0] == p[0] && p[..k][k - 1] == p[k - 1];
      if k > 1 { assert p[k - 1] == '/' && Match(g[4..], p[(k - 1) + 1..], tail); }
    }
  }

  /** A path matches a glob exactly if it is made of what the glob's parts stand for. */
  lemma {:induction false} GlobMatchMeans(g: string, p: string, tail: Tail)
    ensures GlobMatch(g, p, tail) <==> MadeOf(AllParts(g), p, tail)
    decreases |g|
  {
    hide MadeOf, Match, Parts;
    if !StartsWith(g, ANYWHERE) {
      MatchMeans(g, p, tail);
    } else if StartsWith(g[3..], ANYWHERE) || g[3..] == STARS {
      GlobMatchMeans(g[3..], p, tail);
    } else {
      MadeOfFirst(Opening, Parts(g[3..]), p, tail);
      forall k | 0 <= k <= |p| { MatchMeans(g[3..], p[k..], tail); }
      if Match(g[3..], p, tail) { assert p[0..] == p && Stands(Opening, p[..0], tail); }
      if k :| 0 <= k < |p| && p[k] == '/' && Match(g[3..], p[k + 1..], tail) {
        assert Stands(Opening, p[..k + 1], tail);
      }
      if k :| 0 <= k <= |p| && Stands(Opening, p[..k], tail) && MadeOf(Parts(g[3..]), p[k..], tail) {
        if k == 0 {
          assert p[k..] == p;
        } else {
          assert p[..k][k - 1] == p[k - 1];
          assert p[k - 1] == '/' && Match(g[3..], p[(k - 1) + 1..], tail);
        }
      }
    }
  }

  /** Closing up a glob: what comes before its first component for any depth stays,
      that component becomes a slash, and so on; a glob without one is left alone. */
  lemma {:induction false} CollapseExactly(g: string, i: nat)
    requires i <= |g| && forall j :: 0 <= j < i ==> !StartsWith(g[j..], ANY_DEPTH)
    ensures i == |g| ==> Collapse(g) == g
    ensures StartsWith(g[i..], ANY_DEPTH) ==> Collapse(g) == g[..i] + "/" + Collapse(g[i + 4..])
    decreases |g|
  {
    if i == 0 {
      assert g[0..] == g;
    } else {
      assert g[0..] == g;
      forall j | 0 <= j < i - 1 ensures !StartsWith(g[1..][j..], ANY_DEPTH) { assert g[1..][j..] == g[j + 1..]; }
      CollapseExactly(g[1..], i - 1);
      assert g[1..][i - 1..] == g[i..];
      assert g == [g[0]] + g[1..];
      if StartsWith(g[i..], ANY_DEPTH) {
        assert g[1..][(i - 1) + 4..] == g[i + 4..];
        assert g[..i] == [g[0]] + g[1..][..i - 1];
      }
    }
  }
}
