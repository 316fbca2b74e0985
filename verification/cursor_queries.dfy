/** How many times a stream asks for the cursor's position, however it is cut. */
module CursorQueries {
  import opened LineSplitter

  /** ESC [ 6 n, the request to report the cursor's position. */
  const QUERY: seq<Byte> := [0x1B, 0x5B, 0x36, 0x6E]

  predicate EndsWithQuery(s: seq<Byte>) {
    |s| >= |QUERY| && s[|s|-|QUERY|..] == QUERY
  }

  /** How often a query ends somewhere in the stream. */
  function Occurrences(s: seq<Byte>): nat {
    if s == [] then 0
    else Occurrences(s[..|s|-1]) + (if EndsWithQuery(s) then 1 else 0)
  }

  lemma {:induction false} ShortHasNone(s: seq<Byte>)
    requires |s| < |QUERY|
    ensures Occurrences(s) == 0
  {
    if s != [] {
      ShortHasNone(s[..|s|-1]);
    }
  }

  /** The end of a stream, where a query may have begun. */
  function Tail(s: seq<Byte>): (t: seq<Byte>)
    ensures |t| < |QUERY| && |t| <= |s| && t == s[|s|-|t|..]
  {
    if |s| < |QUERY| then s else s[|s| - (|QUERY| - 1)..]
  }

  lemma SameEnding(s: seq<Byte>, chunk: seq<Byte>)
    requires chunk != []
    ensures EndsWithQuery(s + chunk) == EndsWithQuery(Tail(s) + chunk)
  {
    var t := Tail(s);
    if |t + chunk| >= |QUERY| {
      assert (s + chunk)[|s + chunk| - |QUERY|..] == (t + chunk)[|t + chunk| - |QUERY|..];
    }
  }

  /** What ends in the new bytes is found in the old tail and the new bytes. */
  lemma {:induction false} TailIsEnough(s: seq<Byte>, chunk: seq<Byte>)
    ensures Occurrences(s + chunk) == Occurrences(s) + Occurrences(Tail(s) + chunk)
    decreases |chunk|
  {
    hide EndsWithQuery, Tail;
    var t := Tail(s);
    if chunk == [] {
      assert s + chunk == s && t + chunk == t;
      ShortHasNone(t);
    } else {
      var front := chunk[..|chunk|-1];
      TailIsEnough(s, front);
      assert (s + chunk)[..|s + chunk| - 1] == s + front;
      assert (t + chunk)[..|t + chunk| - 1] == t + front;
      SameEnding(s, chunk);
    }
  }

  lemma TailOfTail(s: seq<Byte>, chunk: seq<Byte>)
    ensures Tail(Tail(s) + chunk) == Tail(s + chunk)
  {
    var t := Tail(s);
    if |s| >= |QUERY| {
      assert s + chunk == s[..|s| - |t|] + (t + chunk);
    }
  }

  lemma OneMoreWindow(s: seq<Byte>, i: nat)
    requires i + |QUERY| <= |s|
    ensures Occurrences(s[..i + |QUERY|])
         == Occurrences(s[..i + |QUERY| - 1]) + (if s[i..i + |QUERY|] == QUERY then 1 else 0)
  {
    var w := s[..i + |QUERY|];
    assert w[..|w| - 1] == s[..i + |QUERY| - 1];
    assert w[|w| - |QUERY|..] == s[i..i + |QUERY|];
  }

  class Counter {
    var tail: seq<Byte>

    constructor ()
      ensures tail == []
    {
      tail := [];
    }

    method Count(chunk: seq<Byte>) returns (found: nat)
      modifies this
      ensures found == Occurrences(old(tail) + chunk)
      ensures tail == Tail(old(tail) + chunk)
    {
      hide Occurrences, EndsWithQuery;
      var window := tail + chunk;
      found := 0;
      var i := 0;
      var short := if |window| < |QUERY| then |window| else |QUERY| - 1;
      ShortHasNone(window[..short]);
      while i + |QUERY| <= |window|
        invariant i + short <= |window|
        invariant i > 0 ==> short == |QUERY| - 1
        invariant found == Occurrences(window[..i + short])
      {
        OneMoreWindow(window, i);
        if window[i..i + |QUERY|] == QUERY {
          found := found + 1;
        }
        i := i + 1;
      }
      assert window[..i + short] == window;
      var keep := if |QUERY| - 1 < |window| then |QUERY| - 1 else |window|;
      tail := window[|window| - keep..];
    }
  }

  function Concat(chunks: seq<seq<Byte>>): seq<Byte> {
    if chunks == [] then [] else Concat(chunks[..|chunks|-1]) + chunks[|chunks|-1]
  }

  /** The counts over any cutting of a stream add up to its queries: none is
      missed at a cut, none counted twice. */
  method CountAll(chunks: seq<seq<Byte>>) returns (total: nat)
    ensures total == Occurrences(Concat(chunks))
  {
    var c := new Counter();
    total := 0;
    assert chunks[..0] == [];
    for i := 0 to |chunks|
      invariant total == Occurrences(Concat(chunks[..i]))
      invariant c.tail == Tail(Concat(chunks[..i]))
    {
      ghost var sofar := Concat(chunks[..i]);
      assert chunks[..i + 1][..i] == chunks[..i];
      TailIsEnough(sofar, chunks[i]);
      TailOfTail(sofar, chunks[i]);
      var found := c.Count(chunks[i]);
      total := total + found;
    }
    assert chunks[..|chunks|] == chunks;
  }
}
