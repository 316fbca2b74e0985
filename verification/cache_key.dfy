/**
  What a task's cache key covers. A key is the hash of one text, built from the
  task's metadata and the hashes of its input files; the hash is taken to have
  no collisions among the texts compared.
 */
module CacheKey {

  // Maps are walked in ascending key order, as an ordered tree keeps them.

  predicate AtMost(a: string, b: string) {
    a == "" || (b != "" && (a[0] < b[0] || (a[0] == b[0] && AtMost(a[1..], b[1..]))))
  }

  lemma {:induction false} AtMostTotal(a: string, b: string)
    ensures AtMost(a, b) || AtMost(b, a)
    ensures AtMost(a, b) && AtMost(b, a) ==> a == b
  {
    if a != "" && b != "" && a[0] == b[0] {
      AtMostTotal(a[1..], b[1..]);
      assert a == [a[0]] + a[1..] && b == [b[0]] + b[1..];
    }
  }

  lemma {:induction false} AtMostTransitive(a: string, b: string, c: string)
    requires AtMost(a, b) && AtMost(b, c)
    ensures AtMost(a, c)
  {
    if a != "" && a[0] == b[0] == c[0] {
      AtMostTransitive(a[1..], b[1..], c[1..]);
    }
  }

  predicate Least(k: string, keys: set<string>) {
    k in keys && forall j :: j in keys ==> AtMost(k, j)
  }

  lemma {:induction false} HasLeast(keys: set<string>)
    requires keys != {}
    ensures exists k :: Least(k, keys)
    decreases |keys|
  {
    hide AtMost;
    var k :| k in keys;
    AtMostTotal(k, k);
    if keys == {k} {
      assert Least(k, keys);
    } else {
      var rest := keys - {k};
      HasLeast(rest);
      var least :| Least(least, rest);
      AtMostTotal(k, least);
      if AtMost(k, least) {
        forall j | j in keys ensures AtMost(k, j) {
          if j != k {
            AtMostTransitive(k, least, j);
          }
        }
        assert Least(k, keys);
      } else {
        assert Least(least, keys);
      }
    }
  }

  lemma OneLeast(k: string, j: string, keys: set<string>)
    requires Least(k, keys) && Least(j, keys)
    ensures k == j
  {
    AtMostTotal(k, j);
  }

  ghost function First(m: map<string, string>): (k: string)
    requires m != map[]
    ensures Least(k, m.Keys)
    ensures |m - {k}| < |m|
  {
    assert m.Keys != {};
    HasLeast(m.Keys);
    var k :| Least(k, m.Keys);
    assert (m - {k}).Keys == m.Keys - {k};
    assert |(m - {k}).Keys| < |m.Keys|;
    k
  }

  /** The fields of a map, key and value in turn, in ascending key order. */
  ghost function Fields(m: map<string, string>): seq<string>
    decreases |m|
  {
    if m == map[] then []
    else var k := First(m); [k, m[k]] + Fields(m - {k})
  }

  const HEADER := "turborust-v1"
  const FILES := "--files--"
  const NUL := ['\0']

  /** Fields, each ended by a NUL. */
  function Text(fields: seq<string>): string {
    if fields == [] then "" else fields[0] + NUL + Text(fields[1..])
  }

  ghost function KeyFields(files: map<string, string>, meta: map<string, string>): seq<string> {
    [HEADER] + Fields(meta) + [FILES] + Fields(files)
  }

  lemma {:induction false} TextJoins(a: seq<string>, b: seq<string>)
    ensures Text(a + b) == Text(a) + Text(b)
  {
    if a == [] {
      assert a + b == b;
    } else {
      TextJoins(a[1..], b);
      assert (a + b)[1..] == a[1..] + b;
    }
  }

  lemma TextOfTwo(a: string, b: string, rest: seq<string>)
    ensures Text([a, b] + rest) == a + NUL + b + NUL + Text(rest)
  {
    assert ([a, b] + rest)[1..] == [b] + rest;
    assert ([b] + rest)[1..] == rest;
  }

  /** Feeds a map's entries to the hash, one by one. */
  method Feed(m: map<string, string>, before: string) returns (text: string)
    ensures text == before + Text(Fields(m))
  {
    hide Text, AtMost;
    text := before;
    var rest := m;
    assert text + Text(Fields(rest)) == before + Text(Fields(m));
    while rest != map[]
      invariant text + Text(Fields(rest)) == before + Text(Fields(m))
      decreases |rest|
    {
      assert rest.Keys != {};
      HasLeast(rest.Keys);
      var k :| Least(k, rest.Keys);
      OneLeast(k, First(rest), rest.Keys);
      TextOfTwo(k, rest[k], Fields(rest - {k}));
      text := text + k + NUL + rest[k] + NUL;
      rest := rest - {k};
    }
    EmptyText();
  }

  lemma EmptyText()
    ensures Text([]) == ""
    ensures Text(Fields(map[])) == ""
  {
  }

  lemma TextOfParts(h: string, a: seq<string>, f: string, b: seq<string>)
    ensures Text([h] + a + [f] + b) == h + NUL + Text(a) + f + NUL + Text(b)
  {
    TextJoins([h] + a + [f], b);
    TextJoins([h] + a, [f]);
    TextJoins([h], a);
    assert [h][1..] == [] && [f][1..] == [];
  }

  /** The text of a key: the metadata, a marker, then the files. */
  method Combine(files: map<string, string>, meta: map<string, string>) returns (text: string)
    ensures text == Text(KeyFields(files, meta))
  {
    hide Text, Fields;
    text := HEADER + NUL;
    text := Feed(meta, text);
    text := text + FILES + NUL;
    text := Feed(files, text);
    TextOfParts(HEADER, Fields(meta), FILES, Fields(files));
  }

  predicate NulFree(fields: seq<string>) {
    forall f :: f in fields ==> '\0' !in f
  }

  lemma {:induction false} FirstField(a: string, x: string, b: string, y: string)
    requires '\0' !in a && '\0' !in b
    requires a + NUL + x == b + NUL + y
    ensures a == b && x == y
  {
    var s := a + NUL + x;
    assert s == b + NUL + y;
    assert s[|a|] == '\0' && s[|b|] == '\0';
    assert forall i :: 0 <= i < |a| ==> s[i] == a[i] && a[i] in a;
    assert forall i :: 0 <= i < |b| ==> s[i] == b[i] && b[i] in b;
    assert |a| == |b|;
    assert a == s[..|a|] == b;
    assert x == s[|a| + 1..] == y;
  }

  lemma {:induction false} TextDecides(a: seq<string>, b: seq<string>)
    requires NulFree(a) && NulFree(b)
    requires Text(a) == Text(b)
    ensures a == b
  {
    if a != [] && b != [] {
      assert a[0] in a && b[0] in b;
      FirstField(a[0], Text(a[1..]), b[0], Text(b[1..]));
      TextDecides(a[1..], b[1..]);
      assert a == [a[0]] + a[1..] && b == [b[0]] + b[1..];
    }
  }

  lemma {:induction false} FieldsDecide(m: map<string, string>, n: map<string, string>)
    requires Fields(m) == Fields(n)
    ensures m == n
    decreases |m|
  {
    hide AtMost;
    if m != map[] && n != map[] {
      var k, j := First(m), First(n);
      var a, b := Fields(m), Fields(n);
      assert a[0] == k && a[1] == m[k] && a[2..] == Fields(m - {k});
      assert b[0] == j && b[1] == n[j] && b[2..] == Fields(n - {j});
      FieldsDecide(m - {k}, n - {k});
      assert m == (m - {k})[k := m[k]];
      assert n == (n - {k})[k := n[k]];
    }
  }

  /** Keys stand at the even places, and none is the marker. */
  predicate MarkerFreeKeys(fields: seq<string>) {
    && |fields| % 2 == 0
    && forall i :: 0 <= i < |fields| && i % 2 == 0 ==> fields[i] != FILES
  }

  lemma {:induction false} KeysSpareMarker(m: map<string, string>)
    requires FILES !in m
    ensures MarkerFreeKeys(Fields(m))
    decreases |m|
  {
    hide AtMost;
    if m != map[] {
      var k := First(m);
      KeysSpareMarker(m - {k});
      var a, rest := Fields(m), Fields(m - {k});
      assert a == [k, m[k]] + rest;
      forall i | 0 <= i < |a| && i % 2 == 0 ensures a[i] != FILES {
        if i > 0 { assert a[i] == rest[i - 2] && (i - 2) % 2 == 0; }
      }
    }
  }

  /** Where the files begin is settled by the first key that is the marker. */
  lemma MarkerSplits(a: seq<string>, x: seq<string>, b: seq<string>, y: seq<string>)
    requires MarkerFreeKeys(a) && MarkerFreeKeys(b)
    requires a + [FILES] + x == b + [FILES] + y
    ensures a == b && x == y
  {
    var s, t := a + [FILES] + x, b + [FILES] + y;
    assert s[|a|] == FILES && t[|b|] == FILES;
    assert forall i :: 0 <= i < |a| && i % 2 == 0 ==> s[i] == a[i] != FILES;
    assert forall i :: 0 <= i < |b| && i % 2 == 0 ==> t[i] == b[i] != FILES;
    assert |a| == |b|;
    assert a == s[..|a|] == t[..|b|] == b;
    assert x == s[|a| + 1..] == t[|b| + 1..] == y;
  }

  ghost predicate Clean(files: map<string, string>, meta: map<string, string>) {
    && NulFree(Fields(meta))
    && NulFree(Fields(files))
    && FILES !in meta
  }

  /** Equal keys, equal inputs: with no NUL in a field and no metadata named
      like the marker, a key text determines the metadata and the files. */
  lemma KeyDecides(files: map<string, string>, meta: map<string, string>,
                   files': map<string, string>, meta': map<string, string>)
    requires Clean(files, meta) && Clean(files', meta')
    requires Text(KeyFields(files, meta)) == Text(KeyFields(files', meta'))
    ensures files == files' && meta == meta'
  {
    hide Text, Fields;
    KeyFieldsClean(files, meta);
    KeyFieldsClean(files', meta');
    TextDecides(KeyFields(files, meta), KeyFields(files', meta'));
    AfterHeader(Fields(meta), Fields(files), Fields(meta'), Fields(files'));
    KeysSpareMarker(meta);
    KeysSpareMarker(meta');
    MarkerSplits(Fields(meta), Fields(files), Fields(meta'), Fields(files'));
    FieldsDecide(meta, meta');
    FieldsDecide(files, files');
  }

  lemma KeyFieldsClean(files: map<string, string>, meta: map<string, string>)
    requires Clean(files, meta)
    ensures NulFree(KeyFields(files, meta))
  {
    hide Fields;
    assert '\0' !in HEADER && '\0' !in FILES;
  }

  lemma AfterHeader(a: seq<string>, x: seq<string>, b: seq<string>, y: seq<string>)
    requires [HEADER] + a + [FILES] + x == [HEADER] + b + [FILES] + y
    ensures a + [FILES] + x == b + [FILES] + y
  {
    assert a + [FILES] + x == ([HEADER] + a + [FILES] + x)[1..];
    assert b + [FILES] + y == ([HEADER] + b + [FILES] + y)[1..];
  }

  /** Without the condition on the marker the claim is false: a metadata entry
      can pass for the marker and a file. */
  lemma MarkerAsMetadata()
    ensures exists files, meta, files', meta' ::
      && NulFree(KeyFields(files, meta)) && NulFree(KeyFields(files', meta'))
      && Text(KeyFields(files, meta)) == Text(KeyFields(files', meta'))
      && meta != meta'
  {
    // [--files--, --files--] read as one metadata entry, and then the marker.
    var meta := map[FILES := FILES];
    var none: map<string, string> := map[];
    OneField(FILES, FILES);
    NoField();
    hide Fields, Text;
    var fields := [HEADER, FILES, FILES, FILES];
    assert KeyFields(none, meta) == fields;
    // The other reading: the marker, then a file of that name and content.
    assert KeyFields(meta, none) == fields;
    assert '\0' !in HEADER && '\0' !in FILES;
    assert NulFree(fields);
    assert meta != none;
  }

  lemma NoField()
    ensures Fields(map[]) == []
  {
  }

  lemma OneField(k: string, v: string)
    ensures Fields(map[k := v]) == [k, v]
  {
    var m := map[k := v];
    assert First(m) == k;
    assert m - {k} == map[];
    assert Fields(m - {k}) == [];
  }
}
