/** Splitting a process's output into lines as it streams in, however the reads
    happen to cut it. */
module LineSplitter {

  type Byte = b: int | 0 <= b < 256

  const LF: Byte := 10
  const CR: Byte := 13

  /** The longest line kept whole. */
  const MAX_LINE: nat := 64 * 1024

  datatype Line = Line(text: seq<Byte>, transient: bool)

  /** What is buffered, and what has been emitted. */
  datatype Split = Split(pending: seq<Byte>, lines: seq<Line>)

  const Empty := Split([], [])

  predicate IsEnd(b: Byte) {
    b == LF || b == CR
  }

  /** A continuation byte: the two high bits are 10. */
  predicate IsContinuation(b: Byte) {
    0x80 <= b < 0xC0
  }

  // ------------------------------------------------------------------
  // What the stream means, one byte at a time

  /** Where the walk back from `i` stops. */
  function BackFrom(bytes: seq<Byte>, at: nat, i: nat): (j: nat)
    requires i <= at < |bytes|
    ensures j <= i && (j == 0 || at - j >= 4 || !IsContinuation(bytes[j]))
    ensures forall k | j < k <= i :: IsContinuation(bytes[k])
    ensures at - i <= 4 ==> at - j <= 4
    decreases i
  {
    if i > 0 && at - i < 4 && IsContinuation(bytes[i]) then BackFrom(bytes, at, i - 1) else i
  }

  /** The last character boundary at or before `at`. */
  function Boundary(bytes: seq<Byte>, at: nat): (cut: nat)
    requires at < |bytes|
    ensures cut <= at && at - cut <= 4 && (at > 0 ==> cut > 0)
  {
    var i := BackFrom(bytes, at, at);
    if i == 0 then at else i
  }

  function Emit(s: Split, transient: bool): Split {
    if s.pending == [] then s else Split([], s.lines + [Line(s.pending, transient)])
  }

  /** One line cut off a buffer that is longer than a line may be. */
  function CutOne(s: Split): (t: Split)
    requires |s.pending| > MAX_LINE
    ensures |t.pending| < |s.pending|
  {
    var cut := Boundary(s.pending, MAX_LINE);
    Split(s.pending[cut..], s.lines + [Line(s.pending[..cut], false)])
  }

  /** The buffer, cut until no longer than a line may be. */
  function CutLong(s: Split): (t: Split)
    ensures |t.pending| <= MAX_LINE
    decreases |s.pending|
  {
    if |s.pending| <= MAX_LINE then s else CutLong(CutOne(s))
  }

  function Feed(s: Split, b: Byte): Split {
    if b == LF then Emit(s, false)
    else if b == CR then Emit(s, true)
    else CutLong(Split(s.pending + [b], s.lines))
  }

  function FeedAll(s: Split, bytes: seq<Byte>): Split
    decreases |bytes|
  {
    if bytes == [] then s else FeedAll(Feed(s, bytes[0]), bytes[1..])
  }

  /** The lines of a whole stream. */
  function LinesOf(stream: seq<Byte>): seq<Line> {
    Emit(FeedAll(Empty, stream), false).lines
  }

  lemma {:induction false} FeedCat(s: Split, a: seq<Byte>, b: seq<Byte>)
    ensures FeedAll(s, a + b) == FeedAll(FeedAll(s, a), b)
    decreases |a|
  {
    if a == [] {
      assert a + b == b;
    } else {
      assert (a + b)[1..] == a[1..] + b;
      FeedCat(Feed(s, a[0]), a[1..], b);
    }
  }

  // ------------------------------------------------------------------
  // What the reader does, a run at a time

  /** Where to cut looks only at the bytes up to the cut. */
  lemma {:induction false} BackFromSame(a: seq<Byte>, b: seq<Byte>, at: nat, i: nat)
    requires i <= at < |a| && at < |b| && a[..at + 1] == b[..at + 1]
    ensures BackFrom(a, at, i) == BackFrom(b, at, i)
    decreases i
  {
    assert a[i] == a[..at + 1][i] == b[..at + 1][i] == b[i];
    if i > 0 && at - i < 4 && IsContinuation(a[i]) { BackFromSame(a, b, at, i - 1); }
  }

  /** The first cut of a long buffer is the cut of its first bytes alone. */
  lemma FirstCut(p: seq<Byte>, rest: seq<Byte>, lines: seq<Line>)
    requires |p| == MAX_LINE + 1
    ensures var cut := Boundary(p, MAX_LINE);
            var next := Line(p[..cut], false);
            && |p[cut..]| <= 5
            && CutLong(Split(p, lines)) == Split(p[cut..], lines + [next])
            && CutLong(Split(p + rest, lines)) == CutLong(Split(p[cut..] + rest, lines + [next]))
  {
    var all := p + rest;
    assert all[..MAX_LINE + 1] == p[..MAX_LINE + 1];
    BackFromSame(p, all, MAX_LINE, MAX_LINE);
    var cut := Boundary(p, MAX_LINE);
    assert all[..cut] == p[..cut];
    assert all[cut..] == p[cut..] + rest;
  }

  /** Appending a run without line ends and cutting it down is feeding it byte by byte. */
  lemma {:induction false} RunIsFed(s: Split, run: seq<Byte>)
    requires |s.pending| <= MAX_LINE && forall b <- run :: !IsEnd(b)
    ensures FeedAll(s, run) == CutLong(Split(s.pending + run, s.lines))
    decreases |run|
  {
    hide Boundary;
    if run == [] {
      assert s.pending + run == s.pending;
    } else {
      var b, rest := run[0], run[1..];
      assert !IsEnd(b);
      var p := s.pending + [b];
      assert s.pending + run == p + rest;
      if |p| > MAX_LINE { FirstCut(p, rest, s.lines); }
      RunIsFed(CutLong(Split(p, s.lines)), rest);
    }
  }

  method CharBoundary(bytes: seq<Byte>, at: nat) returns (cut: nat)
    requires at < |bytes|
    ensures cut == Boundary(bytes, at)
  {
    var i := at;
    while i > 0 && at - i < 4 && IsContinuation(bytes[i])
      invariant 0 <= i <= at && BackFrom(bytes, at, i) == BackFrom(bytes, at, at)
    {
      i := i - 1;
    }
    return if i == 0 then at else i;
  }

  /** Where the first line end stands, if there is one. */
  method FindEnd(bytes: seq<Byte>) returns (found: bool, i: nat)
    ensures i <= |bytes| && forall b <- bytes[..i] :: !IsEnd(b)
    ensures found ==> i < |bytes| && IsEnd(bytes[i])
    ensures !found ==> i == |bytes|
  {
    i := 0;
    while i < |bytes|
      invariant i <= |bytes| && forall b <- bytes[..i] :: !IsEnd(b)
    {
      if IsEnd(bytes[i]) {
        return true, i;
      }
      assert bytes[..i + 1] == bytes[..i] + [bytes[i]];
      i := i + 1;
    }
    return false, i;
  }

  class Reader {
    var pending: seq<Byte>
    var lines: seq<Line>

    function View(): Split
      reads this
    {
      Split(pending, lines)
    }

    constructor ()
      ensures View() == Empty
    {
      pending, lines := [], [];
    }

    method Flush(transient: bool)
      modifies this
      ensures View() == Emit(old(View()), transient)
    {
      if pending == [] {
        return;
      }
      lines := lines + [Line(pending, transient)];
      pending := [];
    }

    /** Takes one read, of any length. */
    method Take(chunk: seq<Byte>)
      requires |pending| <= MAX_LINE
      modifies this
      ensures View() == FeedAll(old(View()), chunk)
      ensures |pending| <= MAX_LINE
    {
      var rest := chunk;
      while rest != []
        invariant |pending| <= MAX_LINE
        invariant FeedAll(View(), rest) == FeedAll(old(View()), chunk)
        decreases |rest|
      {
        var found, i := FindEnd(rest);
        var run := rest[..i];
        ghost var before := View();
        RunIsFed(before, run);
        assert rest == run + rest[i..];
        FeedCat(before, run, rest[i..]);
        pending := pending + run;
        while |pending| > MAX_LINE
          invariant CutLong(View()) == FeedAll(before, run)
          decreases |pending|
        {
          var cut := CharBoundary(pending, MAX_LINE);
          var tail := pending[cut..];
          pending := pending[..cut];
          Flush(false);
          pending := tail;
        }
        assert View() == FeedAll(before, run);
        if found {
          ghost var fed := View();
          assert rest[i..][1..] == rest[i + 1..];
          assert FeedAll(fed, rest[i..]) == FeedAll(Feed(fed, rest[i]), rest[i + 1..]);
          Flush(rest[i] != LF);
          rest := rest[i + 1..];
        } else {
          assert rest[i..] == [];
          rest := [];
        }
      }
    }
  }

  /** The bytes read before the first empty read, which is the end of the stream. */
  function Stream(chunks: seq<seq<Byte>>): seq<Byte> {
    if chunks == [] || chunks[0] == [] then [] else chunks[0] + Stream(chunks[1..])
  }

  /** Reads to the end and emits what is left: the lines are those of the stream,
      however it was cut into reads. */
  method Pump(chunks: seq<seq<Byte>>) returns (lines: seq<Line>)
    ensures lines == LinesOf(Stream(chunks))
  {
    var r := new Reader();
    var i := 0;
    assert chunks[0..] == chunks;
    while i < |chunks| && chunks[i] != []
      invariant 0 <= i <= |chunks| && |r.pending| <= MAX_LINE
      invariant FeedAll(r.View(), Stream(chunks[i..])) == FeedAll(Empty, Stream(chunks))
    {
      assert chunks[i..][1..] == chunks[i + 1..];
      FeedCat(r.View(), chunks[i], Stream(chunks[i + 1..]));
      r.Take(chunks[i]);
      i := i + 1;
    }
    r.Flush(false);
    return r.lines;
  }

  // ------------------------------------------------------------------
  // What the lines are

  function Join(lines: seq<Line>): seq<Byte> {
    if lines == [] then [] else Join(lines[..|lines|-1]) + lines[|lines|-1].text
  }

  function WithoutEnds(bytes: seq<Byte>): seq<Byte> {
    if bytes == [] then [] else (if IsEnd(bytes[0]) then [] else [bytes[0]]) + WithoutEnds(bytes[1..])
  }

  lemma JoinOneMore(lines: seq<Line>, l: Line)
    ensures Join(lines + [l]) == Join(lines) + l.text
  {
    assert (lines + [l])[..|lines|] == lines;
  }

  /** Everything a splitter has taken in and not dropped. */
  function Content(s: Split): seq<Byte> {
    Join(s.lines) + s.pending
  }

  lemma CutOneKeeps(s: Split)
    requires |s.pending| > MAX_LINE
    ensures Content(CutOne(s)) == Content(s)
  {
    hide Join, Boundary;
    var cut := Boundary(s.pending, MAX_LINE);
    JoinOneMore(s.lines, Line(s.pending[..cut], false));
    assert s.pending == s.pending[..cut] + s.pending[cut..];
  }

  /** Cutting loses nothing. */
  lemma {:induction false} CutKeeps(s: Split)
    ensures Content(CutLong(s)) == Content(s)
    decreases |s.pending|
  {
    hide Content, CutOne;
    if |s.pending| > MAX_LINE {
      CutOneKeeps(s);
      CutKeeps(CutOne(s));
    }
  }

  function Kept(b: Byte): seq<Byte> {
    if IsEnd(b) then [] else [b]
  }

  lemma FeedKeeps(s: Split, b: Byte)
    ensures Content(Feed(s, b)) == Content(s) + Kept(b)
  {
    hide Join;
    if IsEnd(b) {
      if s.pending != [] { JoinOneMore(s.lines, Line(s.pending, b == CR)); }
    } else {
      CutKeeps(Split(s.pending + [b], s.lines));
      assert Join(s.lines) + (s.pending + [b]) == Join(s.lines) + s.pending + [b];
    }
  }

  lemma {:induction false} FeedAllKeeps(s: Split, bytes: seq<Byte>)
    ensures Content(FeedAll(s, bytes)) == Content(s) + WithoutEnds(bytes)
    decreases |bytes|
  {
    hide Content, Feed, Kept;
    if bytes == [] {
      assert Content(s) + [] == Content(s);
    } else {
      var t := Feed(s, bytes[0]);
      FeedKeeps(s, bytes[0]);
      FeedAllKeeps(t, bytes[1..]);
      WithoutEndsStep(bytes);
      assert Content(s) + (Kept(bytes[0]) + WithoutEnds(bytes[1..]))
          == (Content(s) + Kept(bytes[0])) + WithoutEnds(bytes[1..]);
    }
  }

  lemma WithoutEndsStep(bytes: seq<Byte>)
    requires bytes != []
    ensures WithoutEnds(bytes) == Kept(bytes[0]) + WithoutEnds(bytes[1..])
  {
  }

  /** Nothing is lost but the line ends, nothing added, nothing reordered. */
  lemma LinesConserve(stream: seq<Byte>)
    ensures Join(LinesOf(stream)) == WithoutEnds(stream)
  {
    FeedAllKeeps(Empty, stream);
    var s := FeedAll(Empty, stream);
    if s.pending != [] { JoinOneMore(s.lines, Line(s.pending, false)); }
    assert [] + [] + WithoutEnds(stream) == WithoutEnds(stream);
  }

  predicate GoodLines(lines: seq<Line>) {
    forall l <- lines :: 0 < |l.text| <= MAX_LINE
  }

  lemma {:induction false} CutGood(s: Split)
    requires GoodLines(s.lines)
    ensures GoodLines(CutLong(s).lines)
    decreases |s.pending|
  {
    if |s.pending| > MAX_LINE {
      var cut := Boundary(s.pending, MAX_LINE);
      CutGood(CutOne(s));
    }
  }

  lemma {:induction false} FeedAllGood(s: Split, bytes: seq<Byte>)
    requires GoodLines(s.lines) && |s.pending| <= MAX_LINE
    ensures GoodLines(FeedAll(s, bytes).lines) && |FeedAll(s, bytes).pending| <= MAX_LINE
    decreases |bytes|
  {
    if bytes != [] {
      if !IsEnd(bytes[0]) { CutGood(Split(s.pending + [bytes[0]], s.lines)); }
      FeedAllGood(Feed(s, bytes[0]), bytes[1..]);
    }
  }

  /** Every line has something in it, and none is longer than a line may be. */
  lemma LinesGood(stream: seq<Byte>)
    ensures GoodLines(LinesOf(stream))
  {
    FeedAllGood(Empty, stream);
  }

  // ------------------------------------------------------------------
  // Line ends

  /** A line ended by CR LF is flagged transient like a progress line, and the LF
      adds nothing; a line is transient exactly when a CR ended it. */
  lemma CrLfIsTransient(s: Split)
    requires s.pending != []
    ensures FeedAll(s, [CR, LF]) == Split([], s.lines + [Line(s.pending, true)])
    ensures FeedAll(s, [LF]) == Split([], s.lines + [Line(s.pending, false)])
  {
    assert [CR, LF][1..] == [LF] && [LF][1..] == [];
    var t := Feed(s, CR);
    assert FeedAll(s, [CR, LF]) == FeedAll(t, [LF]) == FeedAll(Feed(t, LF), []);
    assert FeedAll(s, [LF]) == FeedAll(Feed(s, LF), []);
  }

  /** An empty line is dropped: a line end adds a line exactly when something is pending. */
  lemma EmptyLinesDropped(s: Split, end: Byte)
    requires IsEnd(end)
    ensures FeedAll(s, [end]).lines == s.lines <==> s.pending == []
  {
    assert [end][1..] == [];
    assert FeedAll(s, [end]) == FeedAll(Feed(s, end), []);
    if s.pending != [] { assert |Feed(s, end).lines| == |s.lines| + 1; }
  }

  // ------------------------------------------------------------------
  // Characters

  /** The length of the character a byte string starts with, by the syntax of
      section 4 of RFC 3629; 0 if it starts with none. */
  function HeadLength(s: seq<Byte>): (n: nat)
    ensures n <= |s| && n <= 4
    ensures n > 0 ==> !IsContinuation(s[0]) && forall i | 0 < i < n :: IsContinuation(s[i])
  {
    if |s| >= 1 && s[0] <= 0x7F then 1
    else if |s| >= 2 && 0xC2 <= s[0] <= 0xDF && IsContinuation(s[1]) then 2
    else if |s| >= 3 && ThreeBytes(s[0], s[1]) && IsContinuation(s[2]) then 3
    else if |s| >= 4 && FourBytes(s[0], s[1]) && IsContinuation(s[2]) && IsContinuation(s[3]) then 4
    else 0
  }

  predicate ThreeBytes(a: Byte, b: Byte) {
    || (a == 0xE0 && 0xA0 <= b <= 0xBF)
    || (0xE1 <= a <= 0xEC && IsContinuation(b))
    || (a == 0xED && 0x80 <= b <= 0x9F)
    || (0xEE <= a <= 0xEF && IsContinuation(b))
  }

  predicate FourBytes(a: Byte, b: Byte) {
    || (a == 0xF0 && 0x90 <= b <= 0xBF)
    || (0xF1 <= a <= 0xF3 && IsContinuation(b))
    || (a == 0xF4 && 0x80 <= b <= 0x8F)
  }

  /** Well-formed UTF-8: whole characters, one after another. */
  predicate Utf8(s: seq<Byte>)
    decreases |s|
  {
    s == [] || (HeadLength(s) > 0 && Utf8(s[HeadLength(s)..]))
  }

  lemma HeadOfPrefix(s: seq<Byte>, i: nat)
    requires HeadLength(s) > 0 && HeadLength(s) <= i <= |s|
    ensures HeadLength(s[..i]) == HeadLength(s)
  {
  }

  /** Well-formed text splits into well-formed parts before any byte that starts a character. */
  lemma {:induction false} SplitsBetweenChars(s: seq<Byte>, i: nat)
    requires Utf8(s) && i <= |s| && (i < |s| ==> !IsContinuation(s[i]))
    ensures Utf8(s[..i]) && Utf8(s[i..])
    decreases |s|
  {
    if i == 0 {
      assert s[0..] == s;
    } else {
      var n := HeadLength(s);
      assert i >= n;
      SplitsBetweenChars(s[n..], i - n);
      assert s[n..][..i - n] == s[..i][n..];
      assert s[n..][i - n..] == s[i..];
      HeadOfPrefix(s, i);
    }
  }

  /** In well-formed text a character starts at most three bytes back. */
  lemma {:induction false} CharStartsNear(s: seq<Byte>, at: nat) returns (i: nat)
    requires Utf8(s) && at < |s|
    ensures i <= at && at - i <= 3 && !IsContinuation(s[i])
    ensures at > 3 ==> i > 0
    decreases |s|
  {
    var n := HeadLength(s);
    if at < n {
      i := 0;
    } else {
      i := CharStartsNear(s[n..], at - n);
      i := i + n;
    }
  }

  /** So a long line of well-formed text is cut where a character starts. */
  lemma BoundaryStartsChar(s: seq<Byte>, at: nat)
    requires Utf8(s) && 3 < at < |s|
    ensures !IsContinuation(s[Boundary(s, at)])
  {
    var i := CharStartsNear(s, at);
    var j := BackFrom(s, at, at);
    assert j >= i;
  }

  predicate AllUtf8(lines: seq<Line>) {
    forall l <- lines :: Utf8(l.text)
  }

  lemma CutOneBetweenChars(s: Split, rest: seq<Byte>)
    requires AllUtf8(s.lines) && Utf8(s.pending + rest) && |s.pending| > MAX_LINE
    ensures AllUtf8(CutOne(s).lines) && Utf8(CutOne(s).pending + rest)
  {
    hide Utf8, Boundary;
    var all := s.pending + rest;
    var cut := Boundary(s.pending, MAX_LINE);
    assert all[..MAX_LINE + 1] == s.pending[..MAX_LINE + 1];
    BoundarySame(s.pending, all);
    BoundaryStartsChar(all, MAX_LINE);
    SplitsBetweenChars(all, cut);
    assert all[..cut] == s.pending[..cut];
    assert all[cut..] == s.pending[cut..] + rest;
  }

  lemma BoundarySame(a: seq<Byte>, b: seq<Byte>)
    requires |a| > MAX_LINE && |b| > MAX_LINE && a[..MAX_LINE + 1] == b[..MAX_LINE + 1]
    ensures Boundary(a, MAX_LINE) == Boundary(b, MAX_LINE)
  {
    BackFromSame(a, b, MAX_LINE, MAX_LINE);
  }

  lemma {:induction false} CutsBetweenChars(s: Split, rest: seq<Byte>)
    requires AllUtf8(s.lines) && Utf8(s.pending + rest)
    ensures AllUtf8(CutLong(s).lines) && Utf8(CutLong(s).pending + rest)
    decreases |s.pending|
  {
    hide Utf8, CutOne, AllUtf8;
    if |s.pending| > MAX_LINE {
      CutOneBetweenChars(s, rest);
      CutsBetweenChars(CutOne(s), rest);
    }
  }

  lemma FeedsOneWholeChar(s: Split, b: Byte, rest: seq<Byte>)
    requires AllUtf8(s.lines) && Utf8(s.pending + [b] + rest)
    ensures AllUtf8(Feed(s, b).lines) && Utf8(Feed(s, b).pending + rest)
  {
    hide Utf8, CutLong, HeadLength;
    if IsEnd(b) {
      var all := s.pending + [b] + rest;
      assert all[|s.pending|] == b;
      SplitsBetweenChars(all, |s.pending|);
      assert all[..|s.pending|] == s.pending && all[|s.pending|..] == [b] + rest;
      EndIsAChar(b, rest);
      assert [] + rest == rest;
    } else {
      CutsBetweenChars(Split(s.pending + [b], s.lines), rest);
    }
  }

  lemma EndIsAChar(b: Byte, rest: seq<Byte>)
    requires IsEnd(b) && Utf8([b] + rest)
    ensures Utf8(rest)
  {
    assert ([b] + rest)[1..] == rest;
  }

  lemma {:induction false} FeedsWholeChars(s: Split, bytes: seq<Byte>)
    requires AllUtf8(s.lines) && Utf8(s.pending + bytes)
    ensures AllUtf8(FeedAll(s, bytes).lines) && Utf8(FeedAll(s, bytes).pending)
    decreases |bytes|
  {
    hide Utf8, AllUtf8, Feed;
    if bytes == [] {
      assert s.pending + bytes == s.pending;
    } else {
      assert s.pending + bytes == s.pending + [bytes[0]] + bytes[1..];
      FeedsOneWholeChar(s, bytes[0], bytes[1..]);
      FeedsWholeChars(Feed(s, bytes[0]), bytes[1..]);
    }
  }

  /** For well-formed output, no line splits a character. */
  lemma LinesWholeChars(stream: seq<Byte>)
    requires Utf8(stream)
    ensures AllUtf8(LinesOf(stream))
  {
    assert [] + stream == stream;
    FeedsWholeChars(Empty, stream);
  }

  // ------------------------------------------------------------------
  // Where lines begin and end

  /** The first line end, or the end of the text. */
  function EndAt(s: seq<Byte>): (n: nat)
    ensures n <= |s| && (n < |s| ==> IsEnd(s[n]))
    ensures forall i :: 0 <= i < n ==> !IsEnd(s[i])
  {
    if s == [] || IsEnd(s[0]) then 0 else 1 + EndAt(s[1..])
  }

  /** The runs between line ends that are not empty, each with how it ended. */
  function RunsOf(s: seq<Byte>): seq<Line>
    decreases |s|
  {
    var n := EndAt(s);
    if n == |s| then (if s == [] then [] else [Line(s, false)])
    else Ended(s[..n], s[n]) + RunsOf(s[n + 1..])
  }

  /** No run between line ends is longer than a line may be. */
  predicate ShortRuns(s: seq<Byte>)
    decreases |s|
  {
    var n := EndAt(s);
    n <= MAX_LINE && (n < |s| ==> ShortRuns(s[n + 1..]))
  }

  /** A short run is buffered whole. */
  lemma RunIsKept(lines: seq<Line>, run: seq<Byte>)
    requires |run| <= MAX_LINE && forall b <- run :: !IsEnd(b)
    ensures FeedAll(Split([], lines), run) == Split(run, lines)
  {
    hide FeedAll;
    RunIsFed(Split([], lines), run);
    assert [] + run == run;
  }

  /** And its end emits it. */
  lemma EndEmits(lines: seq<Line>, run: seq<Byte>, end: Byte)
    requires IsEnd(end)
    ensures Feed(Split(run, lines), end) == Split([], lines + Ended(run, end))
  {
    hide CutLong;
    assert lines + [] == lines;
  }

  /** What a run and its end come to. */
  function Ended(run: seq<Byte>, end: Byte): seq<Line> {
    if run == [] then [] else [Line(run, end == CR)]
  }

  lemma FeedsFirst(s: Split, b: Byte, rest: seq<Byte>)
    ensures FeedAll(s, [b] + rest) == FeedAll(Feed(s, b), rest)
  {
    hide Feed;
    assert ([b] + rest)[1..] == rest;
  }

  lemma RunIsEnded(lines: seq<Line>, run: seq<Byte>, end: Byte, rest: seq<Byte>)
    requires |run| <= MAX_LINE && (forall b <- run :: !IsEnd(b)) && IsEnd(end)
    ensures FeedAll(Split([], lines), run + ([end] + rest)) == FeedAll(Split([], lines + Ended(run, end)), rest)
  {
    hide FeedAll, Feed, Ended;
    FeedCat(Split([], lines), run, [end] + rest);
    RunIsKept(lines, run);
    FeedsFirst(Split(run, lines), end, rest);
    EndEmits(lines, run, end);
  }

  lemma LastRun(lines: seq<Line>, s: seq<Byte>)
    requires EndAt(s) == |s| <= MAX_LINE
    ensures Emit(FeedAll(Split([], lines), s), false).lines == lines + RunsOf(s)
  {
    RunIsKept(lines, s);
    hide FeedAll, EndAt;
    assert lines + [] == lines;
  }

  lemma ShortFirst(s: seq<Byte>)
    requires ShortRuns(s)
    ensures var n := EndAt(s); n <= MAX_LINE && (n < |s| ==> ShortRuns(s[n + 1..]))
  {
    hide EndAt;
  }

  lemma RunsStep(s: seq<Byte>)
    requires EndAt(s) < |s|
    ensures var n := EndAt(s); RunsOf(s) == Ended(s[..n], s[n]) + RunsOf(s[n + 1..])
  {
    hide EndAt, Ended;
  }

  lemma {:induction false} FedFrom(lines: seq<Line>, s: seq<Byte>)
    requires ShortRuns(s)
    ensures Emit(FeedAll(Split([], lines), s), false).lines == lines + RunsOf(s)
    decreases |s|
  {
    hide FeedAll, Feed, Emit, Ended, RunsOf, ShortRuns, EndAt;
    var n := EndAt(s);
    ShortFirst(s);
    if n == |s| {
      LastRun(lines, s);
    } else {
      RunsStep(s);
      var run, rest := s[..n], s[n + 1..];
      assert s == run + ([s[n]] + rest);
      RunIsEnded(lines, run, s[n], rest);
      FedFrom(lines + Ended(run, s[n]), rest);
      assert (lines + Ended(run, s[n])) + RunsOf(rest) == lines + (Ended(run, s[n]) + RunsOf(rest));
    }
  }

  /** The lines of a stream are its runs between line ends, none cut short and none
      joined, transient exactly if ended by a carriage return, as long as no run is
      longer than a line may be. */
  lemma LinesAreRuns(stream: seq<Byte>)
    requires ShortRuns(stream)
    ensures LinesOf(stream) == RunsOf(stream)
  {
    FedFrom([], stream);
    assert [] + RunsOf(stream) == RunsOf(stream);
  }

  /** And a run that is longer is cut no more often than it must be: what is cut off
      is within a character of the most a line may be. */
  lemma {:induction false} CutsAreLong(s: Split)
    ensures var t := CutLong(s);
            && s.lines <= t.lines
            && forall i | |s.lines| <= i < |t.lines| ::
                 !t.lines[i].transient && MAX_LINE - 4 <= |t.lines[i].text| <= MAX_LINE
    decreases |s.pending|
  {
    hide Boundary;
    if |s.pending| > MAX_LINE {
      var cut := Boundary(s.pending, MAX_LINE);
      CutsAreLong(CutOne(s));
      assert CutOne(s).lines[|s.lines|].text == s.pending[..cut];
    }
  }
}
