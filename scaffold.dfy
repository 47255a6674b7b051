/** The working directory the command writes into, changed step by step as
    `criarDiretorio`, `criarArquivo`, `criarMigration` and `criarMigrations`
    do (cmd/root.go:132-226). Every method is specified by the function of
    module Disk that computes the same step on a value. */
module Scaffold {
  import opened Types
  import opened Latin1
  import opened Templates
  import Disk
  import opened Timestamp

  /** The bytes the Latin-1 writer produces for the DDL and the DML
      template, with the line ending of the host: every category finds
      bytes there, and they read back as exactly the text `criarArquivo`
      writes for it. */
  method EncodeTemplates(windows: bool) returns (payload: Disk.Payload)
    ensures payload == Disk.Payloads(windows)
    ensures forall t: MigrationType :: Disk.PayloadFor(payload, t) == Encode(Content(t, windows))
    ensures forall t: MigrationType ::
              Disk.PayloadFor(payload, t).Some? && Decode(Disk.PayloadFor(payload, t).value) == Content(t, windows)
  {
    var ddl := Encode(Content(DDL, windows));
    var dml := Encode(Content(DML, windows));
    payload := Disk.Payload(ddl, dml);
    forall t: MigrationType
      ensures Disk.PayloadFor(payload, t) == Encode(Content(t, windows))
      ensures Disk.PayloadFor(payload, t).Some? && Decode(Disk.PayloadFor(payload, t).value) == Content(t, windows)
    {
      Disk.PayloadsEncode(windows, t);
      ContentLatin1(t, windows);
      DecodeEncode(Content(t, windows));
    }
  }

  class Workspace {
    var dirs: set<Path>
    var files: map<Path, seq<byte>>

    /** The directory tree as a value. */
    function State(): Disk.Fs
      reads this
    {
      Disk.Fs(dirs, files)
    }

    constructor (fs: Disk.Fs)
      ensures State() == fs
    {
      dirs := fs.dirs;
      files := fs.files;
    }

    /** `criarDiretorio`: `os.MkdirAll` of the folder `p`. */
    method MkdirAll(p: Path) returns (o: Outcome)
      modifies this
      ensures (State(), o) == Disk.MkdirAll(old(State()), p)
    {
      if Disk.BlockedByFile(files, p) {
        return Fail(MkdirFailed(p));
      }
      dirs := dirs + Disk.Ancestors(p);
      return Pass;
    }

    /** `criarArquivo`: create (or truncate) the file `p`, then write the
        template of category `t` through the Latin-1 encoder. */
    method WriteTemplate(p: Path, t: MigrationType, payload: Disk.Payload) returns (o: Outcome)
      modifies this
      ensures (State(), o) == Disk.WriteTemplate(old(State()), p, t, payload)
    {
      if p in dirs || (|p| > 1 && p[..|p| - 1] !in dirs) {
        return Fail(CreateFailed(p));
      }
      ghost var before := files;
      files := files[p := []];
      var encoded := Disk.PayloadFor(payload, t);
      if encoded.None? {
        return Fail(WriteFailed(p));
      }
      files := files[p := encoded.value];
      assert files == before[p := encoded.value];
      return Pass;
    }

    /** `criarMigration`: the folder of a stamped request, then its
        `up.sql` and its `down.sql`. */
    method CreateMigration(c: MigrationConfig, payload: Disk.Payload) returns (r: Result<MigrationResult>)
      modifies this
      ensures (State(), r) == Disk.CreateMigration(old(State()), c, payload)
    {
      var dir := Disk.MigrationDir(c);
      if dir.Err? {
        return Err(dir.error);
      }
      var made := MkdirAll(dir.value);
      if made.Fail? {
        return Err(made.error);
      }
      var up, down := dir.value + ["up.sql"], dir.value + ["down.sql"];
      var first := WriteTemplate(up, c.kind, payload);
      if first.Fail? {
        return Err(first.error);
      }
      var second := WriteTemplate(down, c.kind, payload);
      if second.Fail? {
        return Err(second.error);
      }
      return Ok(MigrationResult(up, down));
    }

    /** `criarMigrations`: request `i` is stamped `now + i` milliseconds and
        created; the first failure ends the loop and no results are
        returned. */
    method CreateMigrations(cs: seq<MigrationConfig>, now: nat, dateTime: nat -> string, payload: Disk.Payload)
      returns (r: Result<seq<MigrationResult>>)
      modifies this
      ensures (State(), r) == Disk.Materialize(old(State()), cs, now, dateTime, payload)
    {
      var results: seq<MigrationResult> := [];
      var i := 0;
      while i < |cs|
        invariant 0 <= i <= |cs|
        invariant Disk.MaterializeFrom(State(), cs, now, dateTime, payload, i, results)
          == Disk.Materialize(old(State()), cs, now, dateTime, payload)
        decreases |cs| - i
      {
        var config := cs[i].(timestamp := Stamp(dateTime, now + i));
        var result := CreateMigration(config, payload);
        if result.Err? {
          return Err(result.error);
        }
        results := results + [result.value];
        i := i + 1;
      }
      return Ok(results);
    }
  }
}
