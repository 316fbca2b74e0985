/** What a task's fingerprint is made of, and what equal fingerprints mean. */
module Fingerprints {
  import opened Status
  import opened CacheKey

  datatype Task = Task(cmd: string, shell: Option<seq<string>>, cwd: string, envMode: string,
                       outputs: seq<string>, targetDir: string, inline: map<string, string>,
                       envKeys: seq<string>, dependsOn: seq<Name>)

  /** What else a key depends on: env files already parsed, the
      surrounding environment, the workspace, and the upstream stamps. */
  datatype Context = Context(envFiles: map<string, string>, ambient: map<string, string>,
                             toolchain: Option<string>, config: Option<string>, lockfile: Option<string>,
                             stamps: map<Name, string>)

  const UNIT := "\U{1F}"

  function Joined(parts: seq<string>): string {
    if parts == [] then ""
    else if |parts| == 1 then parts[0]
    else parts[0] + UNIT + Joined(parts[1..])
  }

  function Get(m: map<string, string>, k: string): Option<string> {
    if k in m then Some(m[k]) else None
  }

  /** A declared variable as the key sees it: the inline value, else the
      surrounding one, else empty. */
  function EnvValue(t: Task, c: Context, k: string): string {
    if k in t.inline then t.inline[k] else if k in c.ambient then c.ambient[k] else ""
  }

  predicate FromFile(t: Task, c: Context, k: string) {
    k in c.envFiles && k !in t.inline
  }

  predicate Under(prefix: string, key: string) {
    |prefix| <= |key| && key[..|prefix|] == prefix
  }

  const ENV := "env:"
  const ENV_FILE := "env_file:"
  const DEP := "dep:"

  function EnvEntry(t: Task, c: Context, keys: seq<string>, k: string): Option<string> {
    if k in keys && !FromFile(t, c, k) then Some(EnvValue(t, c, k)) else None
  }

  function DepEntry(c: Context, deps: seq<Name>, d: Name): Option<string> {
    if d in deps && d in c.stamps then Some(c.stamps[d]) else None
  }

  datatype Label = Cmd | Shell | Cwd | EnvMode | Outputs | TargetDir | Toolchain | Config | Lockfile

  function Spelled(l: Label): string {
    match l
    case Cmd => "cmd"
    case Shell => "shell"
    case Cwd => "cwd"
    case EnvMode => "env_mode"
    case Outputs => "outputs"
    case TargetDir => "target_dir"
    case Toolchain => "global:toolchain"
    case Config => "global:config"
    case Lockfile => "global:lockfile"
  }

  function LabelOf(key: string): Option<Label> {
    if key == "cmd" then Some(Cmd)
    else if key == "shell" then Some(Shell)
    else if key == "cwd" then Some(Cwd)
    else if key == "env_mode" then Some(EnvMode)
    else if key == "outputs" then Some(Outputs)
    else if key == "target_dir" then Some(TargetDir)
    else if key == "global:toolchain" then Some(Toolchain)
    else if key == "global:config" then Some(Config)
    else if key == "global:lockfile" then Some(Lockfile)
    else None
  }

  /** A shell is keyed only when one is set, so older keys still hit. */
  function Fixed(t: Task, c: Context, l: Label): Option<string> {
    match l
    case Cmd => Some(t.cmd)
    case Shell => if t.shell.Some? then Some(Joined(t.shell.value)) else None
    case Cwd => Some(t.cwd)
    case EnvMode => Some(t.envMode)
    case Outputs => Some(Joined(t.outputs))
    case TargetDir => Some(t.targetDir)
    case Toolchain => c.toolchain
    case Config => c.config
    case Lockfile => c.lockfile
  }

  function FileEntry(t: Task, c: Context, digest: string -> string, k: string): Option<string> {
    if FromFile(t, c, k) then Some(digest(c.envFiles[k])) else None
  }

  /** What the metadata of a task holds at a key. */
  function Entry(t: Task, c: Context, digest: string -> string, key: string): Option<string> {
    if Under(ENV_FILE, key) then FileEntry(t, c, digest, key[|ENV_FILE|..])
    else if Under(ENV, key) then EnvEntry(t, c, t.envKeys, key[|ENV|..])
    else if Under(DEP, key) then DepEntry(c, t.dependsOn, key[|DEP|..])
    else match LabelOf(key)
      case None => None
      case Some(l) => Fixed(t, c, l)
  }

  ghost predicate Describes(meta: map<string, string>, t: Task, c: Context, digest: string -> string) {
    forall key :: Get(meta, key) == Entry(t, c, digest, key)
  }

  predicate Plain(key: string) {
    !Under(ENV_FILE, key) && !Under(ENV, key) && !Under(DEP, key)
  }

  lemma UnderSplits(prefix: string, key: string)
    ensures Under(prefix, prefix + key) && (prefix + key)[|prefix|..] == key
    ensures Under(prefix, key) ==> key == prefix + key[|prefix|..]
  {
  }

  lemma NotUnder(prefix: string, key: string, i: nat)
    requires i < |prefix| && i < |key| && prefix[i] != key[i]
    ensures !Under(prefix, key)
  {
  }

  lemma Differ(a: string, b: string, i: nat)
    requires |a| != |b| || (i < |a| && a[i] != b[i])
    ensures a != b
  {
  }

  /** No fixed name belongs to a family, and no two are spelled alike. */
  lemma SpelledApart(l: Label)
    ensures Plain(Spelled(l))
    ensures LabelOf(Spelled(l)) == Some(l)
  {
    var key := Spelled(l);
    if l == EnvMode {
      NotUnder(ENV, key, 3);
      NotUnder(DEP, key, 0);
    } else if key[0] != 'e' && key[0] != 'd' {
      NotUnder(ENV, key, 0);
      NotUnder(ENV_FILE, key, 0);
      NotUnder(DEP, key, 0);
    }
    Differ("cmd", "cwd", 1);
  }

  lemma LabelSpells(key: string)
    ensures LabelOf(key).Some? ==> Spelled(LabelOf(key).value) == key
  {
  }

  const LABELS: seq<Label> := [Cmd, Shell, Cwd, EnvMode, Outputs, TargetDir, Toolchain, Config, Lockfile]

  function Turn(l: Label): (i: nat)
    ensures i < |LABELS| && LABELS[i] == l
  {
    match l
    case Cmd => 0
    case Shell => 1
    case Cwd => 2
    case EnvMode => 3
    case Outputs => 4
    case TargetDir => 5
    case Toolchain => 6
    case Config => 7
    case Lockfile => 8
  }

  /** The fixed entries of the first labels. */
  function FixedSoFar(t: Task, c: Context, n: nat, key: string): Option<string> {
    match LabelOf(key)
    case None => None
    case Some(l) => if Turn(l) < n then Fixed(t, c, l) else None
  }

  function Put(meta: map<string, string>, l: Label, v: Option<string>): map<string, string> {
    if v.Some? then meta[Spelled(l) := v.value] else meta
  }

  lemma PutAdds(meta: map<string, string>, t: Task, c: Context, l: Label)
    requires forall key :: Get(meta, key) == FixedSoFar(t, c, Turn(l), key)
    ensures forall key :: Get(Put(meta, l, Fixed(t, c, l)), key) == FixedSoFar(t, c, Turn(l) + 1, key)
  {
    hide Spelled, LabelOf, Fixed;
    var after := Put(meta, l, Fixed(t, c, l));
    SpelledApart(l);
    forall key ensures Get(after, key) == FixedSoFar(t, c, Turn(l) + 1, key) {
      LabelSpells(key);
      assert Get(meta, key) == FixedSoFar(t, c, Turn(l), key);
    }
  }

  lemma InTurn(i: nat)
    requires i < |LABELS|
    ensures Turn(LABELS[i]) == i
  {
  }

  method FixedEntries(t: Task, c: Context) returns (meta: map<string, string>)
    ensures forall key ::
      Get(meta, key)
      == (match LabelOf(key) case None => None case Some(l) => Fixed(t, c, l))
  {
    hide Spelled, LabelOf, Fixed, Put;
    meta := map[];
    for i := 0 to |LABELS|
      invariant forall key :: Get(meta, key) == FixedSoFar(t, c, i, key)
    {
      InTurn(i);
      PutAdds(meta, t, c, LABELS[i]);
      meta := Put(meta, LABELS[i], Fixed(t, c, LABELS[i]));
    }
  }

  lemma InsertUnder(meta: map<string, string>, prefix: string, k: string, v: string)
    ensures forall key ::
      Get(meta[prefix + k := v], key)
      == (if Under(prefix, key) && key[|prefix|..] == k then Some(v) else Get(meta, key))
  {
    UnderSplits(prefix, k);
    forall key ensures Get(meta[prefix + k := v], key)
      == (if Under(prefix, key) && key[|prefix|..] == k then Some(v) else Get(meta, key))
    {
      UnderSplits(prefix, key);
    }
  }

  method AddFiles(before: map<string, string>, t: Task, c: Context, digest: string -> string)
    returns (meta: map<string, string>)
    requires forall key :: Under(ENV_FILE, key) ==> key !in before
    ensures forall key ::
      Get(meta, key)
      == (if Under(ENV_FILE, key) then FileEntry(t, c, digest, key[|ENV_FILE|..]) else Get(before, key))
  {
    meta := before;
    var rest := c.envFiles.Keys;
    while rest != {}
      invariant rest <= c.envFiles.Keys
      invariant forall key ::
        Get(meta, key)
        == (if Under(ENV_FILE, key) && key[|ENV_FILE|..] !in rest then FileEntry(t, c, digest, key[|ENV_FILE|..])
            else Get(before, key))
    {
      var k :| k in rest;
      if k !in t.inline {
        InsertUnder(meta, ENV_FILE, k, digest(c.envFiles[k]));
        meta := meta[ENV_FILE + k := digest(c.envFiles[k])];
      }
      rest := rest - {k};
    }
  }

  method AddEnv(before: map<string, string>, t: Task, c: Context) returns (meta: map<string, string>)
    requires forall key :: Under(ENV, key) ==> key !in before
    ensures forall key ::
      Get(meta, key)
      == (if Under(ENV, key) then EnvEntry(t, c, t.envKeys, key[|ENV|..]) else Get(before, key))
  {
    meta := before;
    for i := 0 to |t.envKeys|
      invariant forall key ::
        Get(meta, key)
        == (if Under(ENV, key) then EnvEntry(t, c, t.envKeys[..i], key[|ENV|..]) else Get(before, key))
    {
      var k := t.envKeys[i];
      assert t.envKeys[..i + 1] == t.envKeys[..i] + [k];
      if FromFile(t, c, k) {
        continue;
      }
      InsertUnder(meta, ENV, k, EnvValue(t, c, k));
      meta := meta[ENV + k := EnvValue(t, c, k)];
    }
    assert t.envKeys[..|t.envKeys|] == t.envKeys;
  }

  method AddDeps(before: map<string, string>, t: Task, c: Context) returns (meta: map<string, string>)
    requires forall key :: Under(DEP, key) ==> key !in before
    ensures forall key ::
      Get(meta, key)
      == (if Under(DEP, key) then DepEntry(c, t.dependsOn, key[|DEP|..]) else Get(before, key))
  {
    meta := before;
    for i := 0 to |t.dependsOn|
      invariant forall key ::
        Get(meta, key)
        == (if Under(DEP, key) then DepEntry(c, t.dependsOn[..i], key[|DEP|..]) else Get(before, key))
    {
      var d := t.dependsOn[i];
      assert t.dependsOn[..i + 1] == t.dependsOn[..i] + [d];
      if d in c.stamps {
        InsertUnder(meta, DEP, d, c.stamps[d]);
        meta := meta[DEP + d := c.stamps[d]];
      }
    }
    assert t.dependsOn[..|t.dependsOn|] == t.dependsOn;
  }

  lemma FamiliesApart(key: string)
    ensures Under(ENV_FILE, key) ==> !Under(ENV, key) && !Under(DEP, key)
    ensures Under(ENV, key) ==> !Under(DEP, key)
    ensures LabelOf(key).Some? ==> Plain(key)
  {
    if Under(ENV_FILE, key) {
      assert key[3] == key[..9][3] == '_' && key[0] == key[..9][0] == 'e';
      NotUnder(ENV, key, 3);
      NotUnder(DEP, key, 0);
    }
    if Under(ENV, key) {
      assert key[0] == key[..4][0] == 'e';
      NotUnder(DEP, key, 0);
    }
    if LabelOf(key).Some? {
      LabelSpells(key);
      SpelledApart(LabelOf(key).value);
    }
  }

  /** A task's metadata, and with it the text of its key. */
  method Fingerprint(t: Task, c: Context, digest: string -> string, files: map<string, string>)
    returns (meta: map<string, string>, text: string)
    ensures Describes(meta, t, c, digest)
    ensures text == Text(KeyFields(files, meta))
  {
    hide Text, Fields, Under, LabelOf, Fixed, EnvEntry, DepEntry, FileEntry;
    forall key {
      FamiliesApart(key);
    }
    meta := FixedEntries(t, c);
    meta := AddFiles(meta, t, c, digest);
    meta := AddEnv(meta, t, c);
    meta := AddDeps(meta, t, c);
    text := Combine(files, meta);
  }

  lemma {:induction false} FieldsAreClean(m: map<string, string>)
    requires forall k :: k in m ==> '\0' !in k && '\0' !in m[k]
    ensures NulFree(Fields(m))
    decreases |m|
  {
    hide AtMost;
    if m != map[] {
      var k := First(m);
      FieldsAreClean(m - {k});
    }
  }

  /** No metadata is ever named like the marker. */
  lemma MarkerIsNoKey(meta: map<string, string>, t: Task, c: Context, digest: string -> string)
    requires Describes(meta, t, c, digest)
    ensures FILES !in meta
  {
    NotUnder(ENV_FILE, FILES, 0);
    NotUnder(ENV, FILES, 0);
    NotUnder(DEP, FILES, 0);
    assert FILES[0] == '-';
    if LabelOf(FILES).Some? {
      LabelSpells(FILES);
    }
    assert Get(meta, FILES) == Entry(t, c, digest, FILES);
  }

  ghost predicate NoNul(m: map<string, string>) {
    forall k :: k in m ==> '\0' !in k && '\0' !in m[k]
  }

  /** The same command in the same place, over the same files, the same settings,
      and the same workspace. */
  predicate SameFixed(t: Task, c: Context, t': Task, c': Context) {
    && t.cmd == t'.cmd && t.cwd == t'.cwd && t.envMode == t'.envMode && t.targetDir == t'.targetDir
    && t.shell.Some? == t'.shell.Some?
    && (t.shell.Some? ==> Joined(t.shell.value) == Joined(t'.shell.value))
    && Joined(t.outputs) == Joined(t'.outputs)
    && c.toolchain == c'.toolchain && c.config == c'.config && c.lockfile == c'.lockfile
  }

  /** The same variables declared and not taken from an env file, with the same
      values: the task's own, else the surrounding one, else empty. */
  ghost predicate SameEnv(t: Task, c: Context, t': Task, c': Context) {
    && (forall k :: k in t.envKeys && (k in t.inline || k !in c.envFiles)
                    <==> k in t'.envKeys && (k in t'.inline || k !in c'.envFiles))
    && forall k :: k in t.envKeys && (k in t.inline || k !in c.envFiles) ==>
         (if k in t.inline then t.inline[k] else if k in c.ambient then c.ambient[k] else "")
         == (if k in t'.inline then t'.inline[k] else if k in c'.ambient then c'.ambient[k] else "")
  }

  /** The same variables taken from env files, with values of the same digest. */
  ghost predicate SameEnvFiles(t: Task, c: Context, t': Task, c': Context, digest: string -> string) {
    && (forall k :: k in c.envFiles && k !in t.inline <==> k in c'.envFiles && k !in t'.inline)
    && forall k :: k in c.envFiles && k !in t.inline && k in c'.envFiles ==>
         digest(c.envFiles[k]) == digest(c'.envFiles[k])
  }

  /** The same upstream tasks that have a stamp, with the same stamps. */
  ghost predicate SameUpstream(t: Task, c: Context, t': Task, c': Context) {
    && (forall d :: d in t.dependsOn && d in c.stamps <==> d in t'.dependsOn && d in c'.stamps)
    && forall d :: d in t.dependsOn && d in c.stamps && d in c'.stamps ==> c.stamps[d] == c'.stamps[d]
  }

  lemma EnvEntriesMean(t: Task, c: Context, t': Task, c': Context)
    ensures (forall k :: EnvEntry(t, c, t.envKeys, k) == EnvEntry(t', c', t'.envKeys, k)) <==> SameEnv(t, c, t', c')
  {
    if forall k :: EnvEntry(t, c, t.envKeys, k) == EnvEntry(t', c', t'.envKeys, k) {
      forall k
        ensures k in t.envKeys && (k in t.inline || k !in c.envFiles)
                <==> k in t'.envKeys && (k in t'.inline || k !in c'.envFiles)
        ensures k in t.envKeys && (k in t.inline || k !in c.envFiles) ==> EnvValue(t, c, k) == EnvValue(t', c', k)
      {
        assert EnvEntry(t, c, t.envKeys, k) == EnvEntry(t', c', t'.envKeys, k);
      }
    }
  }

  lemma FileEntriesMean(t: Task, c: Context, t': Task, c': Context, digest: string -> string)
    ensures (forall k :: FileEntry(t, c, digest, k) == FileEntry(t', c', digest, k))
            <==> SameEnvFiles(t, c, t', c', digest)
  {
    if forall k :: FileEntry(t, c, digest, k) == FileEntry(t', c', digest, k) {
      forall k
        ensures k in c.envFiles && k !in t.inline <==> k in c'.envFiles && k !in t'.inline
        ensures k in c.envFiles && k !in t.inline && k in c'.envFiles ==> digest(c.envFiles[k]) == digest(c'.envFiles[k])
      {
        assert FileEntry(t, c, digest, k) == FileEntry(t', c', digest, k);
      }
    }
  }

  lemma DepEntriesMean(t: Task, c: Context, t': Task, c': Context)
    ensures (forall d :: DepEntry(c, t.dependsOn, d) == DepEntry(c', t'.dependsOn, d)) <==> SameUpstream(t, c, t', c')
  {
    if forall d :: DepEntry(c, t.dependsOn, d) == DepEntry(c', t'.dependsOn, d) {
      forall d
        ensures d in t.dependsOn && d in c.stamps <==> d in t'.dependsOn && d in c'.stamps
        ensures d in t.dependsOn && d in c.stamps && d in c'.stamps ==> c.stamps[d] == c'.stamps[d]
      {
        assert DepEntry(c, t.dependsOn, d) == DepEntry(c', t'.dependsOn, d);
      }
    }
  }

  lemma FixedMeans(t: Task, c: Context, t': Task, c': Context)
    ensures (forall l :: Fixed(t, c, l) == Fixed(t', c', l)) <==> SameFixed(t, c, t', c')
  {
    if forall l :: Fixed(t, c, l) == Fixed(t', c', l) {
      assert Fixed(t, c, Cmd) == Fixed(t', c', Cmd);
      assert Fixed(t, c, Shell) == Fixed(t', c', Shell);
      assert Fixed(t, c, Cwd) == Fixed(t', c', Cwd);
      assert Fixed(t, c, EnvMode) == Fixed(t', c', EnvMode);
      assert Fixed(t, c, Outputs) == Fixed(t', c', Outputs);
      assert Fixed(t, c, TargetDir) == Fixed(t', c', TargetDir);
      assert Fixed(t, c, Toolchain) == Fixed(t', c', Toolchain);
      assert Fixed(t, c, Config) == Fixed(t', c', Config);
      assert Fixed(t, c, Lockfile) == Fixed(t', c', Lockfile);
    }
    hide Joined;
  }

  /** Every entry the same is every family the same. */
  lemma EntriesMean(t: Task, c: Context, t': Task, c': Context, digest: string -> string)
    ensures (forall key :: Entry(t, c, digest, key) == Entry(t', c', digest, key))
            <==> (&& (forall l :: Fixed(t, c, l) == Fixed(t', c', l))
                  && (forall k :: EnvEntry(t, c, t.envKeys, k) == EnvEntry(t', c', t'.envKeys, k))
                  && (forall k :: FileEntry(t, c, digest, k) == FileEntry(t', c', digest, k))
                  && (forall d :: DepEntry(c, t.dependsOn, d) == DepEntry(c', t'.dependsOn, d)))
  {
    hide Under, LabelOf, EnvEntry, FileEntry, DepEntry, Spelled, Fixed;
    if && (forall l :: Fixed(t, c, l) == Fixed(t', c', l))
       && (forall k :: EnvEntry(t, c, t.envKeys, k) == EnvEntry(t', c', t'.envKeys, k))
       && (forall k :: FileEntry(t, c, digest, k) == FileEntry(t', c', digest, k))
       && (forall d :: DepEntry(c, t.dependsOn, d) == DepEntry(c', t'.dependsOn, d)) {
      forall key ensures Entry(t, c, digest, key) == Entry(t', c', digest, key) {
        EntryFrom(t, c, t', c', digest, key);
      }
    }
    if forall key :: Entry(t, c, digest, key) == Entry(t', c', digest, key) {
      forall l ensures Fixed(t, c, l) == Fixed(t', c', l) {
        SpelledApart(l);
        assert Entry(t, c, digest, Spelled(l)) == Entry(t', c', digest, Spelled(l));
      }
      forall k ensures EnvEntry(t, c, t.envKeys, k) == EnvEntry(t', c', t'.envKeys, k) {
        UnderSplits(ENV, k);
        FamiliesApart(ENV + k);
        assert Entry(t, c, digest, ENV + k) == Entry(t', c', digest, ENV + k);
      }
      forall k ensures FileEntry(t, c, digest, k) == FileEntry(t', c', digest, k) {
        UnderSplits(ENV_FILE, k);
        assert Entry(t, c, digest, ENV_FILE + k) == Entry(t', c', digest, ENV_FILE + k);
      }
      forall d ensures DepEntry(c, t.dependsOn, d) == DepEntry(c', t'.dependsOn, d) {
        UnderSplits(DEP, d);
        FamiliesApart(DEP + d);
        assert Entry(t, c, digest, DEP + d) == Entry(t', c', digest, DEP + d);
      }
    }
  }

  lemma EntryFrom(t: Task, c: Context, t': Task, c': Context, digest: string -> string, key: string)
    requires forall l :: Fixed(t, c, l) == Fixed(t', c', l)
    requires forall k :: EnvEntry(t, c, t.envKeys, k) == EnvEntry(t', c', t'.envKeys, k)
    requires forall k :: FileEntry(t, c, digest, k) == FileEntry(t', c', digest, k)
    requires forall d :: DepEntry(c, t.dependsOn, d) == DepEntry(c', t'.dependsOn, d)
    ensures Entry(t, c, digest, key) == Entry(t', c', digest, key)
  {
    hide LabelOf, EnvEntry, FileEntry, DepEntry, Fixed;
  }

  /** Two tasks have one key exactly if they run the same command in the same place
      over the same files, under the same environment as the key sees it, with the
      same results upstream. */
  lemma KeyMovesWithItsInputs(t: Task, c: Context, files: map<string, string>, meta: map<string, string>,
                              t': Task, c': Context, files': map<string, string>, meta': map<string, string>,
                              digest: string -> string)
    requires Describes(meta, t, c, digest) && Describes(meta', t', c', digest)
    requires NoNul(files) && NoNul(meta) && NoNul(files') && NoNul(meta')
    ensures Text(KeyFields(files, meta)) == Text(KeyFields(files', meta'))
      <==> && files == files' && SameFixed(t, c, t', c') && SameEnv(t, c, t', c')
           && SameEnvFiles(t, c, t', c', digest) && SameUpstream(t, c, t', c')
  {
    hide Text, Fields, Entry, SameFixed, SameEnv, SameEnvFiles, SameUpstream, Fixed, EnvEntry, FileEntry, DepEntry;
    EntriesMean(t, c, t', c', digest);
    FixedMeans(t, c, t', c');
    EnvEntriesMean(t, c, t', c');
    FileEntriesMean(t, c, t', c', digest);
    DepEntriesMean(t, c, t', c');
    if Text(KeyFields(files, meta)) == Text(KeyFields(files', meta')) {
      MarkerIsNoKey(meta, t, c, digest);
      MarkerIsNoKey(meta', t', c', digest);
      FieldsAreClean(meta);
      FieldsAreClean(meta');
      FieldsAreClean(files);
      FieldsAreClean(files');
      KeyDecides(files, meta, files', meta');
      forall key ensures Entry(t, c, digest, key) == Entry(t', c', digest, key) {
        assert Get(meta, key) == Entry(t, c, digest, key);
      }
    }
    if files == files' && forall key :: Entry(t, c, digest, key) == Entry(t', c', digest, key) {
      forall key ensures Get(meta, key) == Get(meta', key) {
        assert Entry(t, c, digest, key) == Entry(t', c', digest, key);
      }
      SameGets(meta, meta');
    }
  }

  /** One key, then: the same stamp of every task both depend on; the same value of
      every variable both declare and take from no file; and, of those taken from
      one, the same value where the digest tells values apart. */
  lemma EqualKeysEqualInputs(t: Task, c: Context, files: map<string, string>, meta: map<string, string>,
                             t': Task, c': Context, files': map<string, string>, meta': map<string, string>,
                             digest: string -> string)
    requires Describes(meta, t, c, digest) && Describes(meta', t', c', digest)
    requires NoNul(files) && NoNul(meta) && NoNul(files') && NoNul(meta')
    requires Text(KeyFields(files, meta)) == Text(KeyFields(files', meta'))
    ensures files == files'
    ensures t.cmd == t'.cmd && t.cwd == t'.cwd && t.envMode == t'.envMode && t.targetDir == t'.targetDir
    ensures t.shell.Some? == t'.shell.Some?
    ensures t.shell.Some? ==> Joined(t.shell.value) == Joined(t'.shell.value)
    ensures Joined(t.outputs) == Joined(t'.outputs)
    ensures c.toolchain == c'.toolchain && c.config == c'.config && c.lockfile == c'.lockfile
    ensures forall d :: d in t.dependsOn && d in t'.dependsOn ==>
      (d in c.stamps <==> d in c'.stamps) && (d in c.stamps ==> c.stamps[d] == c'.stamps[d])
    ensures forall k :: k in t.envKeys && k in t.inline ==>
      && k in t'.envKeys
      && t.inline[k] == (if k in t'.inline then t'.inline[k] else if k in c'.ambient then c'.ambient[k] else "")
    ensures forall k :: k in t.envKeys && k !in t.inline && k !in c.envFiles ==>
      && k in t'.envKeys
      && (if k in c.ambient then c.ambient[k] else "")
         == (if k in t'.inline then t'.inline[k] else if k in c'.ambient then c'.ambient[k] else "")
    ensures (forall x, y :: digest(x) == digest(y) ==> x == y) ==>
      forall k :: k in c.envFiles && k !in t.inline ==> k in c'.envFiles && c.envFiles[k] == c'.envFiles[k]
  {
    hide Text, KeyFields, Describes, NoNul, Joined;
    KeyMovesWithItsInputs(t, c, files, meta, t', c', files', meta', digest);
  }

  lemma SameGets(m: map<string, string>, n: map<string, string>)
    requires forall key :: Get(m, key) == Get(n, key)
    ensures m == n
  {
    forall key ensures key in m <==> key in n {
      assert Get(m, key) == Get(n, key);
    }
    forall key | key in m ensures m[key] == n[key] {
      assert Get(m, key) == Get(n, key);
    }
  }

  /** A declared variable that is unset and one that is empty share a key,
      though only the second reaches the child's environment. */
  lemma UnsetSharesTheKeyOfEmpty(t: Task, c: Context, k: string, digest: string -> string)
    requires k in t.envKeys && k !in c.ambient
    ensures forall key :: Entry(t, c, digest, key) == Entry(t, c.(ambient := c.ambient[k := ""]), digest, key)
  {
    var c' := c.(ambient := c.ambient[k := ""]);
    forall j ensures EnvEntry(t, c, t.envKeys, j) == EnvEntry(t, c', t.envKeys, j) {
    }
    hide EnvEntry, Under, LabelOf;
  }

  /** No entry holds the separator, and the list is not one empty entry, which
      joins like none. */
  predicate Separable(parts: seq<string>) {
    parts != [""] && forall p :: p in parts ==> UNIT[0] !in p
  }

  lemma {:induction false} TailsDecide(a: seq<string>, b: seq<string>)
    requires a != [] && b != [] && Joined(a) == Joined(b)
    requires forall p :: p in a || p in b ==> UNIT[0] !in p
    ensures a == b
  {
    assert a[0] in a && b[0] in b;
    if |a| > 1 && |b| > 1 {
      FirstPart(a[0], Joined(a[1..]), b[0], Joined(b[1..]));
      TailsDecide(a[1..], b[1..]);
      assert a == [a[0]] + a[1..] && b == [b[0]] + b[1..];
    } else if |a| > 1 {
      HoldsUnit(a);
    } else if |b| > 1 {
      HoldsUnit(b);
    }
  }

  lemma HoldsUnit(parts: seq<string>)
    requires |parts| > 1
    ensures UNIT[0] in Joined(parts)
  {
    assert Joined(parts)[|parts[0]|] == UNIT[0];
  }

  lemma FirstPart(a: string, x: string, b: string, y: string)
    requires UNIT[0] !in a && UNIT[0] !in b
    requires a + UNIT + x == b + UNIT + y
    ensures a == b && x == y
  {
    var s := a + UNIT + x;
    assert s == b + UNIT + y;
    assert s[|a|] == UNIT[0] && s[|b|] == UNIT[0];
    assert forall i :: 0 <= i < |a| ==> s[i] == a[i] && a[i] in a;
    assert forall i :: 0 <= i < |b| ==> s[i] == b[i] && b[i] in b;
    assert |a| == |b|;
    assert a == s[..|a|] == b;
    assert x == s[|a| + 1..] == y;
  }

  /** Lists that keep clear of the separator are equal exactly when they join to
      the same text. */
  lemma JoinedDecides(a: seq<string>, b: seq<string>)
    requires Separable(a) && Separable(b)
    ensures Joined(a) == Joined(b) <==> a == b
  {
    if Joined(a) == Joined(b) && a != b {
      if a != [] && b != [] {
        TailsDecide(a, b);
      } else {
        NotEmptyJoin(if a == [] then b else a);
      }
    }
  }

  lemma NotEmptyJoin(parts: seq<string>)
    requires parts != [] && parts != [""]
    ensures Joined(parts) != ""
  {
    if |parts| == 1 { assert parts == [parts[0]]; }
  }
}
