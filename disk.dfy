/** The working directory as a value, and what creating migrations does to
    it (cmd/root.go:132-137, 149-226). The class in module Scaffold performs
    these steps in place; the functions here are its specification. */
module Disk {
  import opened Types
  import opened Text
  import opened Latin1
  import opened Templates
  import opened Timestamp

  /** The directories that exist and the content of every file. */
  datatype Fs = Fs(dirs: set<Path>, files: map<Path, seq<byte>>)

  /** A fresh working directory. */
  const Empty := Fs({}, map[])

  /** `p` and every directory above it. */
  function Ancestors(p: Path): set<Path>
  {
    set k | 1 <= k <= |p| :: p[..k]
  }

  /** Some directory on the way to `p`, or `p` itself, is a file. */
  predicate BlockedByFile(files: map<Path, seq<byte>>, p: Path)
  {
    exists k :: 1 <= k <= |p| && p[..k] in files
  }

  /** `os.MkdirAll`: creates `p` and every missing directory above it;
      existing directories are fine, a file on the way is an error. */
  function MkdirAll(fs: Fs, p: Path): (Fs, Outcome)
  {
    if BlockedByFile(fs.files, p) then (fs, Fail(MkdirFailed(p)))
    else (fs.(dirs := fs.dirs + Ancestors(p)), Pass)
  }

  /** `os.MkdirAll` succeeds exactly when no file is in the way, and then
      `p` and every directory above it exist; it creates nothing but those
      and never touches a file. */
  lemma MkdirAllEffect(fs: Fs, p: Path)
    ensures var r := MkdirAll(fs, p);
      && (r.1 == Pass <==> !BlockedByFile(fs.files, p))
      && (r.1.Fail? ==> r == (fs, Fail(MkdirFailed(p))))
      && r.0.files == fs.files && fs.dirs <= r.0.dirs
      && (r.1 == Pass ==> forall k :: 1 <= k <= |p| ==> p[..k] in r.0.dirs)
      && (forall d :: d in r.0.dirs ==> d in fs.dirs || (1 <= |d| <= |p| && d == p[..|d|]))
  {
  }

  /** What `criarArquivo` writes for each category: the template with the
      host's line endings through the Latin-1 encoder, or None when the
      encoder refuses one of its characters. */
  datatype Payload = Payload(ddl: Option<seq<byte>>, dml: Option<seq<byte>>)

  /** The bytes for category `t`; the `default` branch of `criarArquivo`
      writes nothing. */
  function PayloadFor(payload: Payload, t: MigrationType): Option<seq<byte>>
  {
    match t
    case DDL => payload.ddl
    case CURRENT => payload.ddl
    case DML => payload.dml
    case Other(_) => Some([])
  }

  /** The payload on a host with or without Windows line endings. */
  function Payloads(windows: bool): Payload
  {
    Payload(Encode(Content(DDL, windows)), Encode(Content(DML, windows)))
  }

  /** Looking the category up in the payload is encoding its template. */
  lemma PayloadsEncode(windows: bool, t: MigrationType)
    ensures PayloadFor(Payloads(windows), t) == Encode(Content(t, windows))
  {
    if t.Other? {
      assert Content(t, windows) == [];
    }
  }

  /** `criarArquivo`: `os.Create` (which fails on a directory or a missing
      parent and truncates an existing file), then the template of the
      category through the Latin-1 writer. */
  function WriteTemplate(fs: Fs, p: Path, t: MigrationType, payload: Payload): (Fs, Outcome)
  {
    if p in fs.dirs || (|p| > 1 && p[..|p| - 1] !in fs.dirs) then (fs, Fail(CreateFailed(p)))
    else match PayloadFor(payload, t)
      case None => (fs.(files := fs.files[p := []]), Fail(WriteFailed(p)))
      case Some(bytes) => (fs.(files := fs.files[p := bytes]), Pass)
  }

  /** `criarArquivo` succeeds exactly when `p` is not a directory, its
      parent exists and the template has a Latin-1 encoding; then `p` holds
      the encoded template. It never changes a directory or another file. */
  lemma WriteTemplateEffect(fs: Fs, p: Path, t: MigrationType, payload: Payload)
    ensures var r := WriteTemplate(fs, p, t, payload);
      && r.0.dirs == fs.dirs && r.0.files.Keys <= fs.files.Keys + {p}
      && (forall q :: q in fs.files && q != p ==> q in r.0.files && r.0.files[q] == fs.files[q])
      && (r.1 == Pass <==> p !in fs.dirs && (|p| > 1 ==> p[..|p| - 1] in fs.dirs) && PayloadFor(payload, t).Some?)
      && (r.1 == Pass ==> p in r.0.files && r.0.files[p] == PayloadFor(payload, t).value)
  {
  }

  /** The folder of a stamped request: `Type/ts_name`, `Type/SubDir/ts_name`
      when a sub-directory is given, `ts_name` alone for CURRENT (which
      ignores the sub-directory); any other type is refused. */
  function MigrationDir(c: MigrationConfig): (r: Result<Path>)
    ensures r.Err? <==> c.kind.Other?
    ensures r.Err? ==> r.error == InvalidType(c.kind.text)
    ensures r.Ok? ==> 1 <= |r.value| <= 3 && r.value[|r.value| - 1] == c.timestamp + "_" + c.name
    ensures c.kind == CURRENT ==> r == Ok([c.timestamp + "_" + c.name])
    ensures c.kind == DDL || c.kind == DML ==>
      r.value[0] == TypeName(c.kind) && (|r.value| == 3 <==> c.subDir != "")
      && (c.subDir != "" ==> r.value[1] == c.subDir)
  {
    var dirName := c.timestamp + "_" + c.name;
    var basePath := [TypeName(c.kind)] + (if c.subDir != "" && c.kind != CURRENT then [c.subDir] else []);
    match c.kind
    case DDL => Ok(basePath + [dirName])
    case DML => Ok(basePath + [dirName])
    case CURRENT => Ok([dirName])
    case Other(text) => Err(InvalidType(text))
  }

  /** The folder of a DDL or DML request: the category, then the
      sub-directory when there is one, then the stamped name. */
  lemma TypedFolder(c: MigrationConfig)
    requires c.kind == DDL || c.kind == DML
    ensures var leaf := c.timestamp + "_" + c.name;
      MigrationDir(c) == Ok(if c.subDir == "" then [TypeName(c.kind), leaf] else [TypeName(c.kind), c.subDir, leaf])
  {
    var leaf := c.timestamp + "_" + c.name;
    if c.subDir == "" {
      assert [TypeName(c.kind)] + [] + [leaf] == [TypeName(c.kind), leaf];
    } else {
      assert [TypeName(c.kind)] + [c.subDir] + [leaf] == [TypeName(c.kind), c.subDir, leaf];
    }
  }

  /** The result `criarMigration` reports for a request, if it succeeds. */
  function ExpectedResult(c: MigrationConfig): Result<MigrationResult>
  {
    match MigrationDir(c)
    case Err(e) => Err(e)
    case Ok(dir) => Ok(MigrationResult(dir + ["up.sql"], dir + ["down.sql"]))
  }

  /** `after` differs from `before` only by new directories and by the files
      in `written`. */
  ghost predicate OnlyWrites(before: Fs, after: Fs, written: set<Path>)
  {
    && before.dirs <= after.dirs
    && after.files.Keys <= before.files.Keys + written
    && forall p :: p in before.files && p !in written ==> p in after.files && after.files[p] == before.files[p]
  }

  /** Both files of `res` hold the encoded template of category `t`. */
  ghost predicate Written(fs: Fs, res: MigrationResult, t: MigrationType, payload: Payload)
  {
    && PayloadFor(payload, t).Some?
    && res.upPath in fs.files && fs.files[res.upPath] == PayloadFor(payload, t).value
    && res.downPath in fs.files && fs.files[res.downPath] == PayloadFor(payload, t).value
  }

  /** `criarMigration`: the folder, then `up.sql`, then `down.sql`; the
      first failure ends it. */
  function CreateMigration(fs: Fs, c: MigrationConfig, payload: Payload): (r: (Fs, Result<MigrationResult>))
    ensures c.kind.Other? ==> r == (fs, Err(InvalidType(c.kind.text)))
    ensures !c.kind.Other? ==> OnlyWrites(fs, r.0, {ExpectedResult(c).value.upPath, ExpectedResult(c).value.downPath})
    ensures r.1.Ok? ==> ExpectedResult(c) == Ok(r.1.value)
    ensures r.1.Ok? ==> Written(r.0, r.1.value, c.kind, payload)
    ensures r.1.Ok? ==> Ancestors(MigrationDir(c).value) <= r.0.dirs
  {
    match MigrationDir(c)
    case Err(e) => (fs, Err(e))
    case Ok(dir) =>
      var made := MkdirAll(fs, dir);
      if made.1.Fail? then (made.0, Err(made.1.error))
      else
        var up, down := dir + ["up.sql"], dir + ["down.sql"];
        var first := WriteTemplate(made.0, up, c.kind, payload);
        if first.1.Fail? then (first.0, Err(first.1.error))
        else
          var second := WriteTemplate(first.0, down, c.kind, payload);
          if second.1.Fail? then (second.0, Err(second.1.error))
          else (second.0, Ok(MigrationResult(up, down)))
  }

  /** When nothing stands in the way (no file where a folder goes, no
      folder where a file goes) and the template has a Latin-1 encoding,
      `criarMigration` succeeds: it adds the folders and the two files and
      changes nothing else. */
  lemma CreateMigrationSucceeds(fs: Fs, c: MigrationConfig, payload: Payload)
    requires !c.kind.Other? && PayloadFor(payload, c.kind).Some?
    requires !BlockedByFile(fs.files, MigrationDir(c).value)
    requires ExpectedResult(c).value.upPath !in fs.dirs && ExpectedResult(c).value.downPath !in fs.dirs
    ensures var bytes := PayloadFor(payload, c.kind).value;
      var res := ExpectedResult(c).value;
      CreateMigration(fs, c, payload)
        == (Fs(fs.dirs + Ancestors(MigrationDir(c).value), fs.files[res.upPath := bytes][res.downPath := bytes]), Ok(res))
  {
    var dir := MigrationDir(c).value;
    var up, down := dir + ["up.sql"], dir + ["down.sql"];
    assert up[..|up| - 1] == dir && down[..|down| - 1] == dir;
    assert dir == dir[..|dir|];
    assert up !in Ancestors(dir) && down !in Ancestors(dir);
  }

  /** Each way `criarMigration` stops early: a file on the way of the
      folder fails `os.MkdirAll` and changes nothing; a folder where
      `up.sql` or `down.sql` goes fails `os.Create` after the folders were
      made (and after `up.sql` was written, for `down.sql`); a template the
      encoder refuses leaves `up.sql` empty and fails the write. */
  lemma CreateMigrationFails(fs: Fs, c: MigrationConfig, payload: Payload)
    requires !c.kind.Other?
    ensures var dir := MigrationDir(c).value;
      var res := ExpectedResult(c).value;
      var grown := fs.dirs + Ancestors(dir);
      var r := CreateMigration(fs, c, payload);
      && (BlockedByFile(fs.files, dir) ==> r == (fs, Err(MkdirFailed(dir))))
      && (!BlockedByFile(fs.files, dir) && res.upPath in fs.dirs ==>
            r == (Fs(grown, fs.files), Err(CreateFailed(res.upPath))))
      && (!BlockedByFile(fs.files, dir) && res.upPath !in fs.dirs && PayloadFor(payload, c.kind).None? ==>
            r == (Fs(grown, fs.files[res.upPath := []]), Err(WriteFailed(res.upPath))))
      && (!BlockedByFile(fs.files, dir) && res.upPath !in fs.dirs && PayloadFor(payload, c.kind).Some?
          && res.downPath in fs.dirs ==>
            r == (Fs(grown, fs.files[res.upPath := PayloadFor(payload, c.kind).value]), Err(CreateFailed(res.downPath))))
  {
    var dir := MigrationDir(c).value;
    var up, down := dir + ["up.sql"], dir + ["down.sql"];
    assert up[..|up| - 1] == dir && down[..|down| - 1] == dir;
    assert dir == dir[..|dir|];
    assert up !in Ancestors(dir) && down !in Ancestors(dir);
  }

  /** Request `k` of a run that started at `now`, with its stamp. */
  function StampedAt(cs: seq<MigrationConfig>, now: nat, dateTime: nat -> string, k: nat): MigrationConfig
    requires k < |cs|
  {
    cs[k].(timestamp := Stamp(dateTime, now + k))
  }

  /** `criarMigrations` from request `i` on, with the results `acc` of the
      requests before it: request `i` is stamped `now + i` milliseconds and
      created; the first failure ends the run without results. */
  function MaterializeFrom(fs: Fs, cs: seq<MigrationConfig>, now: nat, dateTime: nat -> string, payload: Payload,
                           i: nat, acc: seq<MigrationResult>): (Fs, Result<seq<MigrationResult>>)
    requires i <= |cs|
    decreases |cs| - i
  {
    if i == |cs| then (fs, Ok(acc))
    else
      var step := CreateMigration(fs, StampedAt(cs, now, dateTime, i), payload);
      match step.1
      case Err(e) => (step.0, Err(e))
      case Ok(res) => MaterializeFrom(step.0, cs, now, dateTime, payload, i + 1, acc + [res])
  }

  /** `criarMigrations`: every request of the list, in order. */
  function Materialize(fs: Fs, cs: seq<MigrationConfig>, now: nat, dateTime: nat -> string, payload: Payload)
    : (Fs, Result<seq<MigrationResult>>)
  {
    MaterializeFrom(fs, cs, now, dateTime, payload, 0, [])
  }

  /** Every file a list of results names. */
  function ResultPaths(rs: seq<MigrationResult>): set<Path>
  {
    if rs == [] then {} else ResultPaths(rs[..|rs| - 1]) + {rs[|rs| - 1].upPath, rs[|rs| - 1].downPath}
  }

  /** The stamps of one run strictly increase with the position of the
      request. */
  lemma RunStampsIncreasing(cs: seq<MigrationConfig>, now: nat, dateTime: nat -> string, j: nat, k: nat)
    requires ValidDateTime(dateTime) && now + |cs| <= Horizon
    requires j < k < |cs|
    ensures LexLess(StampedAt(cs, now, dateTime, j).timestamp, StampedAt(cs, now, dateTime, k).timestamp)
  {
    StampIncreasing(dateTime, now + j, now + k);
  }

  /** One turn of the loop of `criarMigrations`. */
  lemma MaterializeFromStep(fs: Fs, cs: seq<MigrationConfig>, now: nat, dateTime: nat -> string, payload: Payload,
                            i: nat, acc: seq<MigrationResult>)
    requires i < |cs|
    ensures var step := CreateMigration(fs, StampedAt(cs, now, dateTime, i), payload);
      MaterializeFrom(fs, cs, now, dateTime, payload, i, acc)
        == if step.1.Err? then (step.0, Err(step.1.error))
           else MaterializeFrom(step.0, cs, now, dateTime, payload, i + 1, acc + [step.1.value])
  {
  }

  lemma {:induction false} MaterializeFromResults(fs: Fs, cs: seq<MigrationConfig>, now: nat, dateTime: nat -> string,
                                                  payload: Payload, i: nat, acc: seq<MigrationResult>)
    requires i <= |cs| && |acc| == i
    ensures var r := MaterializeFrom(fs, cs, now, dateTime, payload, i, acc).1;
      r.Ok? ==> |r.value| == |cs| && r.value[..i] == acc
    ensures var r := MaterializeFrom(fs, cs, now, dateTime, payload, i, acc).1;
      r.Ok? ==> forall k :: i <= k < |cs| ==> ExpectedResult(StampedAt(cs, now, dateTime, k)) == Ok(r.value[k])
    decreases |cs| - i
  {
    if i == |cs| {
      assert MaterializeFrom(fs, cs, now, dateTime, payload, i, acc) == (fs, Ok(acc));
      assert acc[..i] == acc;
    } else {
      MaterializeFromStep(fs, cs, now, dateTime, payload, i, acc);
      var c := StampedAt(cs, now, dateTime, i);
      var step := CreateMigration(fs, c, payload);
      if step.1.Ok? {
        var acc' := acc + [step.1.value];
        assert ExpectedResult(c) == Ok(step.1.value);
        MaterializeFromResults(step.0, cs, now, dateTime, payload, i + 1, acc');
        var r := MaterializeFrom(step.0, cs, now, dateTime, payload, i + 1, acc').1;
        assert MaterializeFrom(fs, cs, now, dateTime, payload, i, acc).1 == r;
        if r.Ok? {
          assert r.value[..i] == r.value[..i + 1][..i];
          assert r.value[i] == r.value[..i + 1][i] == acc'[i];
          forall k | i <= k < |cs|
            ensures ExpectedResult(StampedAt(cs, now, dateTime, k)) == Ok(r.value[k])
          {
            if k == i {
              assert r.value[k] == step.1.value;
            }
          }
        }
      } else {
        assert MaterializeFrom(fs, cs, now, dateTime, payload, i, acc).1.Err?;
      }
    }
  }

  /** A run that succeeds reports one result per request, in request order:
      request `k` in the folder of its own stamp, `now + k`. */
  lemma MaterializeResults(fs: Fs, cs: seq<MigrationConfig>, now: nat, dateTime: nat -> string, payload: Payload)
    ensures var r := Materialize(fs, cs, now, dateTime, payload).1;
      r.Ok? ==> (|r.value| == |cs|
        && forall k :: 0 <= k < |cs| ==> ExpectedResult(StampedAt(cs, now, dateTime, k)) == Ok(r.value[k]))
  {
    MaterializeFromResults(fs, cs, now, dateTime, payload, 0, []);
  }

  /** The results a run of `cs` reports when every request succeeds. */
  function ExpectedRun(cs: seq<MigrationConfig>, now: nat, dateTime: nat -> string): (rs: seq<MigrationResult>)
    requires forall k :: 0 <= k < |cs| ==> !cs[k].kind.Other?
    ensures |rs| == |cs|
  {
    seq(|cs|, k requires 0 <= k < |cs| => ExpectedResult(StampedAt(cs, now, dateTime, k)).value)
  }

  /** A run that succeeds had only requests of a known category, and
      reports exactly the expected results. */
  lemma MaterializeExpected(fs: Fs, cs: seq<MigrationConfig>, now: nat, dateTime: nat -> string, payload: Payload)
    ensures var r := Materialize(fs, cs, now, dateTime, payload).1;
      r.Ok? ==> (forall k :: 0 <= k < |cs| ==> !cs[k].kind.Other?) && r.value == ExpectedRun(cs, now, dateTime)
  {
    MaterializeResults(fs, cs, now, dateTime, payload);
    var r := Materialize(fs, cs, now, dateTime, payload).1;
    if r.Ok? {
      forall k | 0 <= k < |cs| ensures !cs[k].kind.Other? {
        assert ExpectedResult(StampedAt(cs, now, dateTime, k)).Ok?;
      }
    }
  }

  /** A request of unknown type anywhere in the list makes the whole run
      fail, and a failed run reports no results. */
  lemma MaterializeRejectsInvalid(fs: Fs, cs: seq<MigrationConfig>, now: nat, dateTime: nat -> string,
                                  payload: Payload, k: nat)
    requires k < |cs| && cs[k].kind.Other?
    ensures Materialize(fs, cs, now, dateTime, payload).1.Err?
  {
    MaterializeResults(fs, cs, now, dateTime, payload);
    assert ExpectedResult(StampedAt(cs, now, dateTime, k)).Err?;
  }

  /** Strings of equal length that differ stay different whatever follows
      the underscore. */
  lemma DirNamesDiffer(a: string, b: string, x: string, y: string)
    requires |a| == |b| && a != b
    ensures a + "_" + x != b + "_" + y
  {
    assert (a + "_" + x)[..|a|] == a;
    assert (b + "_" + y)[..|b|] == b;
  }

  /** Two requests of one run never share a file: their stamps differ, so
      their folders do. */
  lemma StampedPathsDisjoint(cs: seq<MigrationConfig>, now: nat, dateTime: nat -> string, j: nat, k: nat)
    requires ValidDateTime(dateTime) && now + |cs| <= Horizon
    requires j < |cs| && k < |cs| && j != k
    requires ExpectedResult(StampedAt(cs, now, dateTime, j)).Ok?
    requires ExpectedResult(StampedAt(cs, now, dateTime, k)).Ok?
    ensures var rj := ExpectedResult(StampedAt(cs, now, dateTime, j)).value;
      var rk := ExpectedResult(StampedAt(cs, now, dateTime, k)).value;
      rj.upPath != rk.upPath && rj.upPath != rk.downPath
      && rj.downPath != rk.upPath && rj.downPath != rk.downPath
  {
    StampsDiffer(dateTime, now + j, now + k);
    FilesOfDistinctStamps(StampedAt(cs, now, dateTime, j), StampedAt(cs, now, dateTime, k));
  }

  /** Distinct instants of a run give distinct stamps of the same length. */
  lemma StampsDiffer(dateTime: nat -> string, a: nat, b: nat)
    requires ValidDateTime(dateTime) && a < Horizon && b < Horizon && a != b
    ensures |Stamp(dateTime, a)| == |Stamp(dateTime, b)| && Stamp(dateTime, a) != Stamp(dateTime, b)
  {
    StampShape(dateTime, a);
    StampShape(dateTime, b);
    StampInjective(dateTime, a, b);
  }

  /** Two requests stamped differently, with stamps of the same length,
      never share a file. */
  lemma FilesOfDistinctStamps(cj: MigrationConfig, ck: MigrationConfig)
    requires !cj.kind.Other? && !ck.kind.Other?
    requires |cj.timestamp| == |ck.timestamp| && cj.timestamp != ck.timestamp
    ensures var rj, rk := ExpectedResult(cj).value, ExpectedResult(ck).value;
      rj.upPath != rk.upPath && rj.upPath != rk.downPath
      && rj.downPath != rk.upPath && rj.downPath != rk.downPath
  {
    var dj, dk := MigrationDir(cj).value, MigrationDir(ck).value;
    DirNamesDiffer(cj.timestamp, ck.timestamp, cj.name, ck.name);
    FilesOfDistinctDirs(dj, dk, "up.sql", "up.sql");
    FilesOfDistinctDirs(dj, dk, "up.sql", "down.sql");
    FilesOfDistinctDirs(dj, dk, "down.sql", "up.sql");
    FilesOfDistinctDirs(dj, dk, "down.sql", "down.sql");
  }

  /** Files of folders whose last segments differ are different files. */
  lemma FilesOfDistinctDirs(dj: Path, dk: Path, x: string, y: string)
    requires |dj| >= 1 && |dk| >= 1 && dj[|dj| - 1] != dk[|dk| - 1]
    ensures dj + [x] != dk + [y]
  {
    if |dj| == |dk| {
      assert (dj + [x])[|dj| - 1] == dj[|dj| - 1];
      assert (dk + [y])[|dk| - 1] == dk[|dk| - 1];
    }
  }

  lemma {:induction false} MaterializeFromWritesAt(fs: Fs, cs: seq<MigrationConfig>, now: nat, dateTime: nat -> string,
                                                   payload: Payload, i: nat, acc: seq<MigrationResult>, k: nat)
    requires ValidDateTime(dateTime) && now + |cs| <= Horizon
    requires i <= |cs| && |acc| == i && k < |cs|
    requires k < i ==> ExpectedResult(StampedAt(cs, now, dateTime, k)) == Ok(acc[k]) && Written(fs, acc[k], cs[k].kind, payload)
    ensures var r := MaterializeFrom(fs, cs, now, dateTime, payload, i, acc);
      r.1.Ok? ==> |r.1.value| == |cs| && Written(r.0, r.1.value[k], cs[k].kind, payload)
    decreases |cs| - i
  {
    if i == |cs| {
      assert MaterializeFrom(fs, cs, now, dateTime, payload, i, acc) == (fs, Ok(acc));
    } else {
      MaterializeFromStep(fs, cs, now, dateTime, payload, i, acc);
      var step := CreateMigration(fs, StampedAt(cs, now, dateTime, i), payload);
      if step.1.Ok? {
        var acc' := acc + [step.1.value];
        StepKeepsWritten(fs, cs, now, dateTime, payload, i, acc, k);
        MaterializeFromWritesAt(step.0, cs, now, dateTime, payload, i + 1, acc', k);
        assert MaterializeFrom(fs, cs, now, dateTime, payload, i, acc)
          == MaterializeFrom(step.0, cs, now, dateTime, payload, i + 1, acc');
      } else {
        assert MaterializeFrom(fs, cs, now, dateTime, payload, i, acc).1.Err?;
      }
    }
  }

  /** Request `i`, when it succeeds, writes its own two files and leaves
      those of an earlier request `k` of the run as they were. */
  lemma StepKeepsWritten(fs: Fs, cs: seq<MigrationConfig>, now: nat, dateTime: nat -> string,
                         payload: Payload, i: nat, acc: seq<MigrationResult>, k: nat)
    requires ValidDateTime(dateTime) && now + |cs| <= Horizon
    requires i < |cs| && |acc| == i && k < |cs|
    requires k < i ==> ExpectedResult(StampedAt(cs, now, dateTime, k)) == Ok(acc[k]) && Written(fs, acc[k], cs[k].kind, payload)
    requires CreateMigration(fs, StampedAt(cs, now, dateTime, i), payload).1.Ok?
    ensures var step := CreateMigration(fs, StampedAt(cs, now, dateTime, i), payload);
      var acc' := acc + [step.1.value];
      k < i + 1 ==> ExpectedResult(StampedAt(cs, now, dateTime, k)) == Ok(acc'[k]) && Written(step.0, acc'[k], cs[k].kind, payload)
  {
    var c := StampedAt(cs, now, dateTime, i);
    var step := CreateMigration(fs, c, payload);
    var res := step.1.value;
    var acc' := acc + [res];
    assert ExpectedResult(c) == Ok(res);
    if k < i {
      assert acc'[k] == acc[k];
      StampedPathsDisjoint(cs, now, dateTime, k, i);
      WrittenKept(fs, step.0, acc[k], cs[k].kind, payload, {res.upPath, res.downPath});
    } else if k == i {
      assert acc'[k] == res;
      assert Written(step.0, res, c.kind, payload);
    }
  }

  /** Files outside of what a step writes keep their content. */
  lemma WrittenKept(before: Fs, after: Fs, res: MigrationResult, t: MigrationType, payload: Payload, written: set<Path>)
    requires Written(before, res, t, payload) && OnlyWrites(before, after, written)
    requires res.upPath !in written && res.downPath !in written
    ensures Written(after, res, t, payload)
  {
  }

  /** A run that succeeds leaves, for every request, an `up.sql` and a
      `down.sql` holding the same bytes: the Latin-1 encoding of the
      template of its category. Later requests never overwrite earlier
      ones. */
  lemma MaterializeWrites(fs: Fs, cs: seq<MigrationConfig>, now: nat, dateTime: nat -> string, payload: Payload)
    requires ValidDateTime(dateTime) && now + |cs| <= Horizon
    ensures var r := Materialize(fs, cs, now, dateTime, payload);
      r.1.Ok? ==> |r.1.value| == |cs| && forall k :: 0 <= k < |cs| ==> Written(r.0, r.1.value[k], cs[k].kind, payload)
  {
    MaterializeResults(fs, cs, now, dateTime, payload);
    forall k | 0 <= k < |cs|
      ensures var r := Materialize(fs, cs, now, dateTime, payload);
        r.1.Ok? ==> Written(r.0, r.1.value[k], cs[k].kind, payload)
    {
      MaterializeFromWritesAt(fs, cs, now, dateTime, payload, 0, [], k);
    }
  }

  /** In a fresh working directory, a plan of one request, or of a DDL and a
      DML request, is carried out: the run succeeds and leaves exactly the
      `up.sql` and `down.sql` of every request, as long as the templates
      have a Latin-1 encoding. */
  lemma MaterializeFresh(cs: seq<MigrationConfig>, now: nat, dateTime: nat -> string, payload: Payload)
    requires 1 <= |cs| <= 2 && forall k :: 0 <= k < |cs| ==> !cs[k].kind.Other?
    requires |cs| == 2 ==> cs[0].kind == DDL && cs[1].kind == DML
    requires forall k :: 0 <= k < |cs| ==> PayloadFor(payload, cs[k].kind).Some?
    ensures var r := Materialize(Empty, cs, now, dateTime, payload);
      r.1.Ok? && r.0.files.Keys == ResultPaths(r.1.value)
  {
    var c0 := StampedAt(cs, now, dateTime, 0);
    FirstRequest(cs, now, dateTime, payload);
    var s0 := CreateMigration(Empty, c0, payload);
    var r0 := ExpectedResult(c0).value;
    ResultPathsOne(r0);
    if |cs| == 1 {
      assert MaterializeFrom(s0.0, cs, now, dateTime, payload, 1, [r0]) == (s0.0, Ok([r0]));
    } else {
      var c1 := StampedAt(cs, now, dateTime, 1);
      var r1 := ExpectedResult(c1).value;
      SecondRequestUnobstructed(s0.0, r0, cs, now, dateTime);
      CreateMigrationSucceeds(s0.0, c1, payload);
      var s1 := CreateMigration(s0.0, c1, payload);
      assert s1.1 == Ok(r1);
      MaterializeFromStep(s0.0, cs, now, dateTime, payload, 1, [r0]);
      assert [r0] + [r1] == [r0, r1];
      assert MaterializeFrom(s1.0, cs, now, dateTime, payload, 2, [r0, r1]) == (s1.0, Ok([r0, r1]));
      ResultPathsTwo(r0, r1);
      assert s1.0.files.Keys == {r0.upPath, r0.downPath, r1.upPath, r1.downPath};
    }
  }

  /** The first request of a run in a fresh working directory succeeds and
      leaves only its two files. */
  lemma FirstRequest(cs: seq<MigrationConfig>, now: nat, dateTime: nat -> string, payload: Payload)
    requires 1 <= |cs| && !cs[0].kind.Other? && PayloadFor(payload, cs[0].kind).Some?
    ensures var c0 := StampedAt(cs, now, dateTime, 0);
      var r0 := ExpectedResult(c0).value;
      var s0 := CreateMigration(Empty, c0, payload);
      && s0.1 == Ok(r0)
      && s0.0.files.Keys == {r0.upPath, r0.downPath}
      && s0.0.dirs == Ancestors(MigrationDir(c0).value)
      && Materialize(Empty, cs, now, dateTime, payload) == MaterializeFrom(s0.0, cs, now, dateTime, payload, 1, [r0])
  {
    var c0 := StampedAt(cs, now, dateTime, 0);
    CreateMigrationSucceeds(Empty, c0, payload);
    var r0 := ExpectedResult(c0).value;
    MaterializeFromStep(Empty, cs, now, dateTime, payload, 0, []);
    assert [] + [r0] == [r0];
  }

  /** The files named by one result. */
  lemma ResultPathsOne(a: MigrationResult)
    ensures ResultPaths([a]) == {a.upPath, a.downPath}
  {
    assert [a][..0] == [];
  }

  /** The files named by two results. */
  lemma ResultPathsTwo(a: MigrationResult, b: MigrationResult)
    ensures ResultPaths([a, b]) == {a.upPath, a.downPath, b.upPath, b.downPath}
  {
    assert [a, b][..1] == [a];
    ResultPathsOne(a);
  }

  /** Every folder above `p` starts where `p` does. */
  lemma AncestorsHead(p: Path, q: Path)
    requires q in Ancestors(p)
    ensures |q| >= 1 && q[0] == p[0]
  {
  }

  /** After the DDL request, the DML request of the same run meets nothing
      in its way: everything the first one made lives under "DDL". */
  lemma SecondRequestUnobstructed(fs: Fs, r0: MigrationResult, cs: seq<MigrationConfig>, now: nat,
                                  dateTime: nat -> string)
    requires |cs| == 2 && cs[0].kind == DDL && cs[1].kind == DML
    requires ExpectedResult(StampedAt(cs, now, dateTime, 0)) == Ok(r0)
    requires fs.files.Keys == {r0.upPath, r0.downPath}
    requires fs.dirs == Ancestors(MigrationDir(StampedAt(cs, now, dateTime, 0)).value)
    ensures var c1 := StampedAt(cs, now, dateTime, 1);
      && !BlockedByFile(fs.files, MigrationDir(c1).value)
      && ExpectedResult(c1).value.upPath !in fs.dirs && ExpectedResult(c1).value.downPath !in fs.dirs
  {
    var c0, c1 := StampedAt(cs, now, dateTime, 0), StampedAt(cs, now, dateTime, 1);
    var d0, d1 := MigrationDir(c0).value, MigrationDir(c1).value;
    var r1 := ExpectedResult(c1).value;
    assert d0[0] == "DDL" && d1[0] == "DML";
    assert r0.upPath[0] == "DDL" && r0.downPath[0] == "DDL";
    assert r1.upPath[0] == "DML" && r1.downPath[0] == "DML";
    assert !BlockedByFile(fs.files, d1) by {
      forall k | 1 <= k <= |d1| ensures d1[..k] !in fs.files {
        assert d1[..k][0] == "DML";
        assert d1[..k] != r0.upPath && d1[..k] != r0.downPath;
      }
    }
    if r1.upPath in fs.dirs { AncestorsHead(d0, r1.upPath); }
    if r1.downPath in fs.dirs { AncestorsHead(d0, r1.downPath); }
  }
}
