/**
  The bounded store of output lines. A transient line, one ended by a carriage
  return, is overwritten by its process's next line instead of piling up.
 */
module Logs {
  import opened Status

  datatype Line = Line(process: Name, text: seq<bv8>, transient: bool)

  function Size(lines: seq<Line>): nat {
    if lines == [] then 0 else Size(lines[..|lines| - 1]) + |lines[|lines| - 1].text|
  }

  /** The lines of one process. */
  function Of(lines: seq<Line>, p: Name): seq<Line> {
    if lines == [] then []
    else
      var last := lines[|lines| - 1];
      Of(lines[..|lines| - 1], p) + (if last.process == p then [last] else [])
  }

  /** A stream with each transient line overwritten by the next. */
  function Collapsed(lines: seq<Line>): seq<Line> {
    if lines == [] then []
    else
      var c := Collapsed(lines[..|lines| - 1]);
      if c != [] && c[|c| - 1].transient then c[..|c| - 1] + [lines[|lines| - 1]]
      else c + [lines[|lines| - 1]]
  }

  /** Where a process's newest kept line is. */
  function LastOf(lines: seq<Line>, p: Name): (at: Option<nat>)
    ensures at.Some? ==> at.value < |lines| && lines[at.value].process == p
    ensures at.Some? ==> forall i :: at.value < i < |lines| ==> lines[i].process != p
    ensures at.None? ==> forall i :: 0 <= i < |lines| ==> lines[i].process != p
  {
    if lines == [] then None
    else if lines[|lines| - 1].process == p then Some(|lines| - 1)
    else LastOf(lines[..|lines| - 1], p)
  }

  /** Where a line goes: over its process's last if that one was transient and
      is still kept, at the end otherwise. */
  function Placed(lines: seq<Line>, over: bool, line: Line): seq<Line> {
    var at := LastOf(lines, line.process);
    if over && at.Some? then lines[at.value := line] else lines + [line]
  }

  predicate Fits(lines: seq<Line>, cap: nat, byteCap: nat) {
    |lines| <= 1 || (|lines| <= cap && Size(lines) <= byteCap)
  }

  /** What is kept of the lines: as much of the end as fits. */
  function Trimmed(lines: seq<Line>, cap: nat, byteCap: nat): seq<Line> {
    if Fits(lines, cap, byteCap) then lines else Trimmed(lines[1..], cap, byteCap)
  }

  lemma {:induction false} SizeSplits(a: seq<Line>, b: seq<Line>)
    ensures Size(a + b) == Size(a) + Size(b)
  {
    if b == [] {
      assert a + b == a;
    } else {
      SizeSplits(a, b[..|b| - 1]);
      assert (a + b)[..|a + b| - 1] == a + b[..|b| - 1];
    }
  }

  lemma {:induction false} OfSplits(a: seq<Line>, b: seq<Line>, p: Name)
    ensures Of(a + b, p) == Of(a, p) + Of(b, p)
  {
    if b == [] {
      assert a + b == a;
    } else {
      OfSplits(a, b[..|b| - 1], p);
      assert (a + b)[..|a + b| - 1] == a + b[..|b| - 1];
    }
  }

  lemma OfOne(line: Line, p: Name)
    ensures Of([line], p) == if line.process == p then [line] else []
  {
    assert [line][..0] == [];
  }

  lemma SizeOfOne(line: Line)
    ensures Size([line]) == |line.text|
  {
    assert [line][..0] == [];
  }

  /** Trimming keeps the longest end that fits. */
  lemma {:induction false} TrimKeepsMost(lines: seq<Line>, cap: nat, byteCap: nat)
    ensures var t := Trimmed(lines, cap, byteCap);
            && Fits(t, cap, byteCap)
            && |t| <= |lines| && t == lines[|lines| - |t|..]
            && (forall i :: 0 <= i < |lines| - |t| ==> !Fits(lines[i..], cap, byteCap))
            && (lines != [] ==> t != [])
    decreases |lines|
  {
    hide Size;
    if !Fits(lines, cap, byteCap) {
      TrimKeepsMost(lines[1..], cap, byteCap);
      var t := Trimmed(lines, cap, byteCap);
      forall i | 0 <= i < |lines| - |t| ensures !Fits(lines[i..], cap, byteCap) {
        if i > 0 {
          assert lines[i..] == lines[1..][i - 1..];
        } else {
          assert lines[0..] == lines;
        }
      }
    }
  }

  predicate EndOf(part: seq<Line>, whole: seq<Line>) {
    |part| <= |whole| && part == whole[|whole| - |part|..]
  }

  /** A process's kept lines are the end of its collapsed stream. */
  ghost predicate Follows(lines: seq<Line>, stream: seq<Line>, p: Name) {
    EndOf(Of(lines, p), Collapsed(Of(stream, p)))
  }

  lemma {:induction false} NoneOf(lines: seq<Line>, p: Name)
    requires forall i :: 0 <= i < |lines| ==> lines[i].process != p
    ensures Of(lines, p) == []
  {
    if lines != [] {
      NoneOf(lines[..|lines| - 1], p);
    }
  }

  lemma Around(lines: seq<Line>, at: nat, line: Line, p: Name)
    requires at < |lines|
    ensures Of(lines, p) == Of(lines[..at], p) + Of([lines[at]], p) + Of(lines[at + 1..], p)
    ensures Of(lines[at := line], p) == Of(lines[..at], p) + Of([line], p) + Of(lines[at + 1..], p)
    ensures Size(lines[at := line]) == Size(lines) - |lines[at].text| + |line.text|
  {
    var a, b := lines[..at], lines[at + 1..];
    assert lines == a + [lines[at]] + b;
    assert lines[at := line] == a + [line] + b;
    OfSplits(a + [lines[at]], b, p);
    OfSplits(a, [lines[at]], p);
    OfSplits(a + [line], b, p);
    OfSplits(a, [line], p);
    SizeSplits(a + [lines[at]], b);
    SizeSplits(a, [lines[at]]);
    SizeSplits(a + [line], b);
    SizeSplits(a, [line]);
    SizeOfOne(line);
    SizeOfOne(lines[at]);
  }

  /** Overwriting touches only its process, and there the last line. */
  lemma OverwriteAt(lines: seq<Line>, line: Line, p: Name)
    requires LastOf(lines, line.process).Some?
    ensures var at := LastOf(lines, line.process).value;
            && var kept := Of(lines, p);
            && (p != line.process ==> Of(lines[at := line], p) == kept)
            && (p == line.process ==>
                  kept != [] && kept[|kept| - 1] == lines[at] && Of(lines[at := line], p) == kept[..|kept| - 1] + [line])
  {
    hide Of;
    var at := LastOf(lines, line.process).value;
    Around(lines, at, line, p);
    OfOne(line, p);
    OfOne(lines[at], p);
    if p == line.process {
      NoneOf(lines[at + 1..], p);
    }
  }

  /** Whether a process's last line was transient. */
  function WasTransient(flags: map<Name, bool>, p: Name): bool {
    p in flags && flags[p]
  }

  ghost predicate Flagged(flags: map<Name, bool>, stream: seq<Line>, p: Name) {
    var c := Collapsed(Of(stream, p));
    WasTransient(flags, p) <==> c != [] && c[|c| - 1].transient
  }

  lemma StreamGrows(stream: seq<Line>, line: Line, p: Name)
    ensures Of(stream + [line], p) == if line.process == p then Of(stream, p) + [line] else Of(stream, p)
  {
    OfSplits(stream, [line], p);
    OfOne(line, p);
  }

  lemma CollapsedGrows(s: seq<Line>, line: Line)
    ensures var c := Collapsed(s);
            Collapsed(s + [line]) == if c != [] && c[|c| - 1].transient then c[..|c| - 1] + [line] else c + [line]
  {
    assert (s + [line])[..|s + [line]| - 1] == s;
  }

  /** What an overwritten line was: the process's last, and transient. */
  lemma OnlyTransientIsOverwritten(lines: seq<Line>, flags: map<Name, bool>, stream: seq<Line>, line: Line)
    requires Follows(lines, stream, line.process) && Flagged(flags, stream, line.process)
    requires WasTransient(flags, line.process) && LastOf(lines, line.process).Some?
    ensures lines[LastOf(lines, line.process).value].transient
  {
    OverwriteAt(lines, line, line.process);
  }

  lemma EndGrows(part: seq<Line>, whole: seq<Line>, line: Line)
    requires EndOf(part, whole)
    ensures EndOf(part + [line], whole + [line])
  {
    var k := |whole| - |part|;
    assert (whole + [line])[k..] == whole[k..] + [line];
  }

  lemma EndShrinks(part: seq<Line>, whole: seq<Line>)
    requires EndOf(part, whole) && part != []
    ensures whole != [] && part[|part| - 1] == whole[|whole| - 1]
    ensures EndOf(part[..|part| - 1], whole[..|whole| - 1])
  {
    var k := |whole| - |part|;
    assert whole[k..][..|part| - 1] == whole[..|whole| - 1][k..];
  }

  /** An end grows with the whole, appended to or overwritten alike. */
  lemma EndsGrow(part: seq<Line>, whole: seq<Line>, line: Line)
    requires EndOf(part, whole)
    ensures EndOf(part + [line], whole + [line])
    ensures part != [] ==> whole != [] && part[|part| - 1] == whole[|whole| - 1]
    ensures part != [] ==> EndOf(part[..|part| - 1] + [line], whole[..|whole| - 1] + [line])
    ensures part == [] && whole != [] ==> EndOf([line], whole[..|whole| - 1] + [line])
  {
    hide EndOf;
    EndGrows(part, whole, line);
    if part != [] {
      EndShrinks(part, whole);
      EndGrows(part[..|part| - 1], whole[..|whole| - 1], line);
    } else if whole != [] {
      EmptyEnds(whole[..|whole| - 1]);
      EndGrows([], whole[..|whole| - 1], line);
      assert [] + [line] == [line];
    }
  }

  lemma EmptyEnds(whole: seq<Line>)
    ensures EndOf([], whole)
  {
  }

  lemma FlagFollows(flags: map<Name, bool>, stream: seq<Line>, line: Line, p: Name)
    requires Flagged(flags, stream, p)
    ensures Flagged(flags[line.process := line.transient], stream + [line], p)
  {
    hide Of, Collapsed;
    StreamGrows(stream, line, p);
    CollapsedGrows(Of(stream, p), line);
  }

  lemma PlacedFollows(lines: seq<Line>, flags: map<Name, bool>, stream: seq<Line>, line: Line, p: Name)
    requires Follows(lines, stream, p) && Flagged(flags, stream, p)
    ensures Follows(Placed(lines, WasTransient(flags, line.process), line), stream + [line], p)
  {
    hide Of, Collapsed, EndOf;
    StreamGrows(stream, line, p);
    CollapsedGrows(Of(stream, p), line);
    EndsGrow(Of(lines, p), Collapsed(Of(stream, p)), line);
    if WasTransient(flags, line.process) && LastOf(lines, line.process).Some? {
      OverwriteAt(lines, line, p);
    } else {
      StreamGrows(lines, line, p);
      if p == line.process && WasTransient(flags, p) {
        NoneOf(lines, p);
        assert Of(lines, p) + [line] == [line];
      }
    }
  }

  lemma TrimmedFollows(lines: seq<Line>, n: nat, stream: seq<Line>, p: Name)
    requires Follows(lines, stream, p) && n <= |lines|
    ensures Follows(lines[n..], stream, p)
  {
    assert lines == lines[..n] + lines[n..];
    OfSplits(lines[..n], lines[n..], p);
  }

  lemma SizeOfOverwritten(lines: seq<Line>, at: nat, line: Line)
    requires at < |lines|
    ensures |lines[at].text| <= Size(lines)
    ensures Size(lines[at := line]) == Size(lines) - |lines[at].text| + |line.text|
  {
    hide Of;
    Around(lines, at, line, line.process);
    Around(lines, at, lines[at].(text := []), line.process);
  }

  lemma SizeOfAppended(lines: seq<Line>, line: Line)
    ensures Size(lines + [line]) == Size(lines) + |line.text|
  {
    assert (lines + [line])[..|lines + [line]| - 1] == lines;
  }

  lemma SizeOfDropped(lines: seq<Line>)
    requires lines != []
    ensures Size(lines) == |lines[0].text| + Size(lines[1..])
  {
    hide Size;
    assert lines == [lines[0]] + lines[1..];
    SizeSplits([lines[0]], lines[1..]);
    SizeOfOne(lines[0]);
  }

  lemma TrimStep(lines: seq<Line>, cap: nat, byteCap: nat)
    ensures Trimmed(lines, cap, byteCap) == if Fits(lines, cap, byteCap) then lines else Trimmed(lines[1..], cap, byteCap)
  {
  }

  class LogStore {
    var lines: seq<Line>
    const cap: nat
    var bytes: nat
    const byteCap: nat
    var lastWasTransient: map<Name, bool>
    ghost var stream: seq<Line>

    ghost predicate Valid()
      reads this
    {
      && bytes == Size(lines)
      && Fits(lines, cap, byteCap)
      && (forall p :: Follows(lines, stream, p))
      && (forall p :: Flagged(lastWasTransient, stream, p))
    }

    constructor (cap: nat, byteCap: nat)
      ensures Valid() && stream == [] && this.cap == cap && this.byteCap == byteCap
    {
      lines, bytes, lastWasTransient, stream := [], 0, map[], [];
      this.cap, this.byteCap := cap, byteCap;
    }

    method Push(line: Line)
      requires Valid()
      modifies this
      ensures Valid() && stream == old(stream) + [line]
      ensures lines == Trimmed(Placed(old(lines), WasTransient(old(lastWasTransient), line.process), line), cap, byteCap)
      ensures var over := LastOf(old(lines), line.process);
              WasTransient(old(lastWasTransient), line.process) && over.Some? ==> old(lines)[over.value].transient
    {
      hide Size, Follows, Flagged, Collapsed, Of, LastOf, Trimmed;
      ghost var was, flags := lines, lastWasTransient;
      var replace := WasTransient(lastWasTransient, line.process);
      lastWasTransient := lastWasTransient[line.process := line.transient];
      var at := LastOf(lines, line.process);
      if replace && at.Some? {
        OnlyTransientIsOverwritten(was, flags, stream, line);
        SizeOfOverwritten(lines, at.value, line);
        bytes := bytes - |lines[at.value].text| + |line.text|;
        lines := lines[at.value := line];
      } else {
        SizeOfAppended(lines, line);
        bytes := bytes + |line.text|;
        lines := lines + [line];
      }
      ghost var placed := lines;
      assert placed == Placed(was, replace, line);
      forall p ensures Follows(placed, stream + [line], p) && Flagged(lastWasTransient, stream + [line], p) {
        PlacedFollows(was, flags, stream, line, p);
        FlagFollows(flags, stream, line, p);
      }
      stream := stream + [line];
      while |lines| > 1 && (|lines| > cap || bytes > byteCap)
        invariant |lines| <= |placed| && lines == placed[|placed| - |lines|..]
        invariant bytes == Size(lines)
        invariant Trimmed(lines, cap, byteCap) == Trimmed(placed, cap, byteCap)
        invariant stream == old(stream) + [line] && lastWasTransient == flags[line.process := line.transient]
      {
        SizeOfDropped(lines);
        TrimStep(lines, cap, byteCap);
        bytes := bytes - |lines[0].text|;
        lines := lines[1..];
      }
      TrimStep(lines, cap, byteCap);
      forall p ensures Follows(lines, stream, p) {
        TrimmedFollows(placed, |placed| - |lines|, stream, p);
      }
    }
  }

  function PlaceOf(lines: seq<Line>, over: bool, line: Line): (i: nat)
    ensures i < |Placed(lines, over, line)| && Placed(lines, over, line)[i] == line
  {
    var at := LastOf(lines, line.process);
    if over && at.Some? then at.value else |lines|
  }

  /** The newest line is not always shown: it stays exactly if everything from
      its place on fits, which at the end of the store it always does. */
  lemma NewestStays(lines: seq<Line>, over: bool, line: Line, cap: nat, byteCap: nat)
    ensures var placed, i := Placed(lines, over, line), PlaceOf(lines, over, line);
            i >= |placed| - |Trimmed(placed, cap, byteCap)| <==> Fits(placed[i..], cap, byteCap)
    ensures PlaceOf(lines, over, line) == |lines| ==> Fits(Placed(lines, over, line)[|lines|..], cap, byteCap)
  {
    hide Size, LastOf, Trimmed, Placed, PlaceOf;
    var placed, i := Placed(lines, over, line), PlaceOf(lines, over, line);
    var t := Trimmed(placed, cap, byteCap);
    TrimKeepsMost(placed, cap, byteCap);
    var n := |placed| - |t|;
    if i >= n {
      EndsFit(t, i - n, cap, byteCap);
      assert placed[i..] == t[i - n..];
    }
    PlacedLength(lines, over, line);
  }

  lemma PlacedLength(lines: seq<Line>, over: bool, line: Line)
    ensures |lines| <= |Placed(lines, over, line)| <= |lines| + 1
  {
  }

  lemma EndsFit(lines: seq<Line>, n: nat, cap: nat, byteCap: nat)
    requires Fits(lines, cap, byteCap) && n <= |lines|
    ensures Fits(lines[n..], cap, byteCap)
  {
    assert lines == lines[..n] + lines[n..];
    SizeSplits(lines[..n], lines[n..]);
  }

  /** A progress line that outgrows the store as it is overwritten is itself
      what eviction drops. */
  lemma NewestCanBeDropped()
    ensures var a, b := Line("a", [1], true), Line("b", [2], false);
            var bigger := Line("a", [1, 1], true);
            Trimmed(Placed([a, b], true, bigger), 10, 2) == [b]
  {
    var a, b := Line("a", [1], true), Line("b", [2], false);
    var bigger := Line("a", [1, 1], true);
    var lines := [a, b];
    assert LastOf(lines, "a") == Some(0);
    var placed := lines[0 := bigger];
    assert placed == [bigger] + [b];
    SizeSplits([bigger], [b]);
    SizeOfOne(bigger);
    SizeOfOne(b);
    assert placed[1..] == [b];
    assert !Fits(placed, 10, 2);
    assert Trimmed([b], 10, 2) == [b];
  }
}
