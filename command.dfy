/** One invocation of `migrate [nome]` (cmd/root.go:73-116): the questions
    of the interactive mode, the plan, the migrations created in the working
    directory and the report. */
module Command {
  import opened Types
  import opened Text
  import opened Latin1
  import opened Templates
  import opened Timestamp
  import opened Resolver
  import opened Disk
  import opened Output
  import opened Scaffold

  /** The working directory afterwards, what was written on standard
      output, and whether `RunE` returned an error. */
  datatype Run = Run(fs: Fs, stdout: string, status: Outcome)

  /** `RunE` on a working directory `fs`, with the clock reading `now`
      milliseconds and the host deciding the line ending. */
  function Execute(fs: Fs, args: seq<string>, flags: Flags, lines: seq<string>, now: nat,
                   dateTime: nat -> string, payload: Payload): Run
    requires |args| <= 1
  {
    var asked := if args == [] then Questions(Asked(lines)) else "";
    match Plan(args, flags, lines)
    case Err(e) => Run(fs, asked, Fail(e))
    case Ok(cs) =>
      var made := Materialize(fs, cs, now, dateTime, payload);
      match made.1
      case Err(e) => Run(made.0, asked, Fail(e))
      case Ok(rs) => Run(made.0, asked + Joined(Listing(rs)), Pass)
  }

  /** `RunE` performed on the working directory `ws`. */
  method RunE(ws: Workspace, args: seq<string>, flags: Flags, lines: seq<string>, now: nat,
              dateTime: nat -> string, windows: bool) returns (stdout: string, status: Outcome)
    requires |args| <= 1
    modifies ws
    ensures Run(ws.State(), stdout, status) == Execute(old(ws.State()), args, flags, lines, now, dateTime, Payloads(windows))
  {
    stdout := "";
    if args == [] {
      stdout := Questions(Asked(lines));
    }
    var plan := Plan(args, flags, lines);
    if plan.Err? {
      return stdout, Fail(plan.error);
    }
    var payload := EncodeTemplates(windows);
    var results := ws.CreateMigrations(plan.value, now, dateTime, payload);
    if results.Err? {
      return stdout, Fail(results.error);
    }
    var report := Print(results.value);
    stdout := stdout + report;
    status := Pass;
  }

  /** A refused plan (empty name, missing answer, nothing selected) touches
      nothing on disk and prints no report. */
  lemma ExecuteRefusedPlan(fs: Fs, args: seq<string>, flags: Flags, lines: seq<string>, now: nat,
                           dateTime: nat -> string, payload: Payload)
    requires |args| <= 1 && Plan(args, flags, lines).Err?
    ensures var r := Execute(fs, args, flags, lines, now, dateTime, payload);
      r.fs == fs && r.status == Fail(Plan(args, flags, lines).error)
      && r.stdout == (if args == [] then Questions(Asked(lines)) else "")
  {
  }

  /** Both templates have a Latin-1 encoding. */
  predicate Encodable(payload: Payload)
  {
    payload.ddl.Some? && payload.dml.Some?
  }

  /** On a given host the templates are encodable exactly when every
      character of both, with that host's line endings, has a Latin-1
      byte. */
  lemma EncodableHost(windows: bool)
    ensures Encodable(Payloads(windows))
      <==> Representable(Content(DDL, windows)) && Representable(Content(DML, windows))
  {
  }

  /** `EncodeTemplates` never fails: every character of both templates,
      with either host's line endings, has a Latin-1 byte. */
  lemma TemplatesEncodable(windows: bool)
    ensures Encodable(Payloads(windows))
  {
    ContentLatin1(DDL, windows);
    ContentLatin1(DML, windows);
    EncodableHost(windows);
  }

  /** An accepted plan: the run leaves the working directory as
      `criarMigrations` does, and passes, printing the report after the
      questions, exactly when `criarMigrations` succeeds. */
  lemma ExecuteAccepted(fs: Fs, args: seq<string>, flags: Flags, lines: seq<string>, now: nat,
                        dateTime: nat -> string, payload: Payload)
    requires |args| <= 1 && Plan(args, flags, lines).Ok?
    ensures var made := Materialize(fs, Plan(args, flags, lines).value, now, dateTime, payload);
      var r := Execute(fs, args, flags, lines, now, dateTime, payload);
      && r.fs == made.0
      && (r.status == Pass <==> made.1.Ok?)
      && (made.1.Ok? ==> r.stdout == (if args == [] then Questions(Asked(lines)) else "") + Joined(Listing(made.1.value)))
  {
  }

  /** In a fresh working directory every accepted plan is carried out: the
      run succeeds, leaves exactly the `up.sql` and `down.sql` of every
      request, and reports them in order after the questions. */
  lemma ExecuteFresh(args: seq<string>, flags: Flags, lines: seq<string>, now: nat,
                     dateTime: nat -> string, payload: Payload)
    requires |args| <= 1 && Plan(args, flags, lines).Ok? && Encodable(payload)
    ensures var cs := Plan(args, flags, lines).value;
      var r := Execute(Empty, args, flags, lines, now, dateTime, payload);
      && (forall k :: 0 <= k < |cs| ==> !cs[k].kind.Other?)
      && r.status == Pass
      && r.fs.files.Keys == ResultPaths(ExpectedRun(cs, now, dateTime))
      && r.stdout == (if args == [] then Questions(Asked(lines)) else "") + Joined(Listing(ExpectedRun(cs, now, dateTime)))
  {
    var cs := Plan(args, flags, lines).value;
    PlanShape(args, flags, lines);
    MaterializeFresh(cs, now, dateTime, payload);
    MaterializeExpected(Empty, cs, now, dateTime, payload);
    ExecuteAccepted(Empty, args, flags, lines, now, dateTime, payload);
  }

  /** What `RunE` does in a fresh working directory: every accepted plan
      is carried out, whichever the host. */
  lemma RunFresh(args: seq<string>, flags: Flags, lines: seq<string>, now: nat,
                 dateTime: nat -> string, windows: bool)
    requires |args| <= 1 && Plan(args, flags, lines).Ok?
    ensures var cs := Plan(args, flags, lines).value;
      var r := Execute(Empty, args, flags, lines, now, dateTime, Payloads(windows));
      && r.status == Pass
      && r.fs.files.Keys == ResultPaths(ExpectedRun(cs, now, dateTime))
      && r.stdout == (if args == [] then Questions(Asked(lines)) else "") + Joined(Listing(ExpectedRun(cs, now, dateTime)))
  {
    TemplatesEncodable(windows);
    ExecuteFresh(args, flags, lines, now, dateTime, Payloads(windows));
  }

  /** A run that succeeds, in any working directory, leaves in both files
      of every reported migration the Latin-1 bytes of the template of its
      category. */
  lemma ExecuteWrites(fs: Fs, args: seq<string>, flags: Flags, lines: seq<string>, now: nat,
                      dateTime: nat -> string, payload: Payload)
    requires |args| <= 1 && ValidDateTime(dateTime) && now + 2 <= Horizon
    ensures var r := Execute(fs, args, flags, lines, now, dateTime, payload);
      r.status == Pass ==>
        var cs := Plan(args, flags, lines).value;
        var rs := ExpectedRun(cs, now, dateTime);
        r.stdout == (if args == [] then Questions(Asked(lines)) else "") + Joined(Listing(rs))
        && forall k :: 0 <= k < |cs| ==> Written(r.fs, rs[k], cs[k].kind, payload)
  {
    if Plan(args, flags, lines).Err? {
      ExecuteRefusedPlan(fs, args, flags, lines, now, dateTime, payload);
    } else {
      var cs := Plan(args, flags, lines).value;
      PlanShape(args, flags, lines);
      ExecuteAccepted(fs, args, flags, lines, now, dateTime, payload);
      MaterializeExpected(fs, cs, now, dateTime, payload);
      MaterializeWrites(fs, cs, now, dateTime, payload);
    }
  }

  /** A plan of one request reports the folder stamped `now`; a plan of two
      reports the second one stamped a millisecond later. */
  lemma ExpectedRunSmall(cs: seq<MigrationConfig>, now: nat, dateTime: nat -> string)
    requires 1 <= |cs| <= 2 && forall k :: 0 <= k < |cs| ==> !cs[k].kind.Other?
    ensures ExpectedRun(cs, now, dateTime)[0] == ExpectedResult(cs[0].(timestamp := Stamp(dateTime, now))).value
    ensures |cs| == 2 ==> ExpectedRun(cs, now, dateTime)[1] == ExpectedResult(cs[1].(timestamp := Stamp(dateTime, now + 1))).value
  {
  }

  /** A plan of one request, carried out in a fresh working directory,
      leaves the two files of the folder `MigrationDir` names. */
  lemma FreshSingle(args: seq<string>, flags: Flags, lines: seq<string>, now: nat,
                    dateTime: nat -> string, payload: Payload, c: MigrationConfig, dir: Path)
    requires |args| <= 1 && Plan(args, flags, lines) == Ok([c]) && Encodable(payload)
    requires !c.kind.Other? && MigrationDir(c.(timestamp := Stamp(dateTime, now))) == Ok(dir)
    ensures var r := Execute(Empty, args, flags, lines, now, dateTime, payload);
      r.status == Pass && r.fs.files.Keys == {dir + ["up.sql"], dir + ["down.sql"]}
      && r.stdout == (if args == [] then Questions(Asked(lines)) else "")
        + Joined([Header, Bullet + Render(dir + ["up.sql"]), Bullet + Render(dir + ["down.sql"])])
  {
    var rs := ExpectedRun([c], now, dateTime);
    ExpectedRunSmall([c], now, dateTime);
    assert rs == [MigrationResult(dir + ["up.sql"], dir + ["down.sql"])];
    ResultPathsOne(rs[0]);
    ListingOne(rs[0]);
    ExecuteFresh(args, flags, lines, now, dateTime, payload);
  }

  /** A plan of a DDL and a DML request, carried out in a fresh working
      directory, leaves the files of both folders, the second stamped a
      millisecond after the first. */
  lemma FreshPair(args: seq<string>, flags: Flags, lines: seq<string>, now: nat,
                  dateTime: nat -> string, payload: Payload, c0: MigrationConfig, c1: MigrationConfig,
                  dir0: Path, dir1: Path)
    requires |args| <= 1 && Plan(args, flags, lines) == Ok([c0, c1]) && Encodable(payload)
    requires !c0.kind.Other? && MigrationDir(c0.(timestamp := Stamp(dateTime, now))) == Ok(dir0)
    requires !c1.kind.Other? && MigrationDir(c1.(timestamp := Stamp(dateTime, now + 1))) == Ok(dir1)
    ensures var r := Execute(Empty, args, flags, lines, now, dateTime, payload);
      r.status == Pass
      && r.fs.files.Keys == {dir0 + ["up.sql"], dir0 + ["down.sql"], dir1 + ["up.sql"], dir1 + ["down.sql"]}
  {
    PairPaths(c0, c1, now, dateTime, dir0, dir1);
    ExecuteFresh(args, flags, lines, now, dateTime, payload);
  }

  /** The files a DDL and a DML request are expected to leave. */
  lemma PairPaths(c0: MigrationConfig, c1: MigrationConfig, now: nat, dateTime: nat -> string,
                  dir0: Path, dir1: Path)
    requires !c0.kind.Other? && MigrationDir(c0.(timestamp := Stamp(dateTime, now))) == Ok(dir0)
    requires !c1.kind.Other? && MigrationDir(c1.(timestamp := Stamp(dateTime, now + 1))) == Ok(dir1)
    ensures ResultPaths(ExpectedRun([c0, c1], now, dateTime))
      == {dir0 + ["up.sql"], dir0 + ["down.sql"], dir1 + ["up.sql"], dir1 + ["down.sql"]}
  {
    var rs := ExpectedRun([c0, c1], now, dateTime);
    ExpectedRunSmall([c0, c1], now, dateTime);
    assert rs == [MigrationResult(dir0 + ["up.sql"], dir0 + ["down.sql"]), MigrationResult(dir1 + ["up.sql"], dir1 + ["down.sql"])];
    ResultPathsTwo(rs[0], rs[1]);
  }

  /** A file two folders deep is printed with a "/" between segments. */
  lemma RenderFile(a: string, b: string, file: string)
    ensures Render([a, b, file]) == a + "/" + b + "/" + file
  {
    assert [a, b, file][1..] == [b, file];
    assert [b, file][1..] == [file];
    assert a + "/" + (b + "/" + file) == a + "/" + b + "/" + file;
  }

  /** `migrate criar_tabela_usuarios --ddl` in an empty directory creates
      `DDL/<stamp>_criar_tabela_usuarios/{up,down}.sql` and lists them. */
  lemma ScenarioDdl(lines: seq<string>, now: nat, dateTime: nat -> string, payload: Payload)
    requires Encodable(payload)
    ensures var name := "criar_tabela_usuarios";
      var r := Execute(Empty, [name], Flags(true, false, false, ""), lines, now, dateTime, payload);
      var folder := Stamp(dateTime, now) + "_" + name;
      && r.status == Pass
      && r.fs.files.Keys == {["DDL", folder, "up.sql"], ["DDL", folder, "down.sql"]}
      && r.stdout == Joined([Header, Bullet + ("DDL" + "/" + folder + "/" + "up.sql"),
                             Bullet + ("DDL" + "/" + folder + "/" + "down.sql")])
  {
    var name, flags := "criar_tabela_usuarios", Flags(true, false, false, "");
    var c := MigrationConfig(DDL, "", name, "");
    PlanNamed(name, flags, lines);
    SingleFlag(name, "");
    var folder := Stamp(dateTime, now) + "_" + name;
    var dir := ["DDL", folder];
    TypedFolder(c.(timestamp := Stamp(dateTime, now)));
    assert dir + ["up.sql"] == ["DDL", folder, "up.sql"] && dir + ["down.sql"] == ["DDL", folder, "down.sql"];
    RenderFile("DDL", folder, "up.sql");
    RenderFile("DDL", folder, "down.sql");
    FreshSingle([name], flags, lines, now, dateTime, payload, c, dir);
  }

  /** `migrate inserir_usuario_padrao --dml` creates
      `DML/<stamp>_inserir_usuario_padrao/{up,down}.sql`. */
  lemma ScenarioDml(lines: seq<string>, now: nat, dateTime: nat -> string, payload: Payload)
    requires Encodable(payload)
    ensures var name := "inserir_usuario_padrao";
      var r := Execute(Empty, [name], Flags(false, true, false, ""), lines, now, dateTime, payload);
      var dir := ["DML", Stamp(dateTime, now) + "_" + name];
      r.status == Pass && r.fs.files.Keys == {dir + ["up.sql"], dir + ["down.sql"]}
  {
    var name, flags := "inserir_usuario_padrao", Flags(false, true, false, "");
    var c := MigrationConfig(DML, "", name, "");
    PlanNamed(name, flags, lines);
    SingleFlag(name, "");
    var dir := ["DML", Stamp(dateTime, now) + "_" + name];
    TypedFolder(c.(timestamp := Stamp(dateTime, now)));
    FreshSingle([name], flags, lines, now, dateTime, payload, c, dir);
  }

  /** `migrate setup_inicial --all` creates the DDL folder stamped `now`
      and the DML folder stamped one millisecond later. */
  lemma ScenarioAll(lines: seq<string>, now: nat, dateTime: nat -> string, payload: Payload)
    requires Encodable(payload)
    ensures var name := "setup_inicial";
      var r := Execute(Empty, [name], Flags(false, false, true, ""), lines, now, dateTime, payload);
      var ddl := ["DDL", Stamp(dateTime, now) + "_" + name];
      var dml := ["DML", Stamp(dateTime, now + 1) + "_" + name];
      && r.status == Pass
      && r.fs.files.Keys == {ddl + ["up.sql"], ddl + ["down.sql"], dml + ["up.sql"], dml + ["down.sql"]}
  {
    var name, flags := "setup_inicial", Flags(false, false, true, "");
    var c0, c1 := MigrationConfig(DDL, "", name, ""), MigrationConfig(DML, "", name, "");
    PlanNamed(name, flags, lines);
    assert DetermineConfigs(true, false, false, name, "") == [c0, c1];
    var ddl := ["DDL", Stamp(dateTime, now) + "_" + name];
    var dml := ["DML", Stamp(dateTime, now + 1) + "_" + name];
    TypedFolder(c0.(timestamp := Stamp(dateTime, now)));
    TypedFolder(c1.(timestamp := Stamp(dateTime, now + 1)));
    FreshPair([name], flags, lines, now, dateTime, payload, c0, c1, ddl, dml);
  }

  /** `migrate criar_indices --ddl --sub performance` puts the folder under
      `DDL/performance`. */
  lemma ScenarioSubDir(lines: seq<string>, now: nat, dateTime: nat -> string, payload: Payload)
    requires Encodable(payload)
    ensures var name := "criar_indices";
      var r := Execute(Empty, [name], Flags(true, false, false, "performance"), lines, now, dateTime, payload);
      var dir := ["DDL", "performance", Stamp(dateTime, now) + "_" + name];
      r.status == Pass && r.fs.files.Keys == {dir + ["up.sql"], dir + ["down.sql"]}
  {
    var name, flags := "criar_indices", Flags(true, false, false, "performance");
    var c := MigrationConfig(DDL, "", name, "performance");
    PlanNamed(name, flags, lines);
    SingleFlag(name, "performance");
    var dir := ["DDL", "performance", Stamp(dateTime, now) + "_" + name];
    TypedFolder(c.(timestamp := Stamp(dateTime, now)));
    FreshSingle([name], flags, lines, now, dateTime, payload, c, dir);
  }

  /** `migrate migracao_local` without flags creates the folder in the
      working directory itself. */
  lemma ScenarioCurrent(lines: seq<string>, now: nat, dateTime: nat -> string, payload: Payload)
    requires Encodable(payload)
    ensures var name := "migracao_local";
      var r := Execute(Empty, [name], Flags(false, false, false, ""), lines, now, dateTime, payload);
      var dir := [Stamp(dateTime, now) + "_" + name];
      r.status == Pass && r.fs.files.Keys == {dir + ["up.sql"], dir + ["down.sql"]}
  {
    var name, flags := "migracao_local", Flags(false, false, false, "");
    var c := MigrationConfig(CURRENT, "", name, "");
    PlanNamed(name, flags, lines);
    assert DetermineConfigs(false, false, false, name, "") == [];
    var dir := [Stamp(dateTime, now) + "_" + name];
    assert MigrationDir(c.(timestamp := Stamp(dateTime, now))) == Ok(dir);
    FreshSingle([name], flags, lines, now, dateTime, payload, c, dir);
  }

  /** `migrate --ddl` with nothing on standard input asks for the name,
      finds no line, fails, and creates nothing. */
  lemma ScenarioNoName(fs: Fs, flags: Flags, now: nat, dateTime: nat -> string, payload: Payload)
    ensures var r := Execute(fs, [], flags, [], now, dateTime, payload);
      r.status == Fail(InputMissing(NamePrompt)) && r.fs == fs && r.stdout == PromptText(NamePrompt)
  {
    assert Asked([]) == [NamePrompt];
    assert Questions([NamePrompt]) == Questions([]) + PromptText(NamePrompt);
  }

  /** Answers typed without surrounding blanks are taken as typed, and "s"
      is a yes. */
  lemma SessionAnswers(name: string, sub: string)
    requires TrimSpace(name) == name && TrimSpace(sub) == sub
    ensures ReadAnswers([name, sub, "s", "s"]) == Ok(Answers(name, sub, true, true))
  {
    AffirmativeAnswer();
  }

  /** Selecting DDL and DML without `--all` plans both, DDL first. */
  lemma BothSelected(name: string, sub: string)
    ensures DetermineConfigs(false, true, true, name, sub)
      == [MigrationConfig(DDL, "", name, sub), MigrationConfig(DML, "", name, sub)]
  {
    var c0, c1 := MigrationConfig(DDL, "", name, sub), MigrationConfig(DML, "", name, sub);
    assert [c0] + [c1] == [c0, c1];
  }

  /** Answering yes to both questions plans a DDL and a DML request with
      the name and sub-directory typed, whatever the flags. */
  lemma InteractivePlan(flags: Flags, name: string, sub: string)
    requires name != "" && TrimSpace(name) == name && TrimSpace(sub) == sub
    ensures Plan([], flags, [name, sub, "s", "s"])
      == Ok([MigrationConfig(DDL, "", name, sub), MigrationConfig(DML, "", name, sub)])
  {
    SessionAnswers(name, sub);
    BothSelected(name, sub);
  }

  /** An interactive session that types a name and a sub-directory without
      surrounding blanks and answers "s" twice (as "teste_interativo",
      "sub_dir", "s", "s" does) creates DDL and DML folders under the
      sub-directory, whatever the flags. */
  lemma ScenarioInteractive(name: string, sub: string, flags: Flags, now: nat,
                            dateTime: nat -> string, payload: Payload)
    requires name != "" && TrimSpace(name) == name && sub != "" && TrimSpace(sub) == sub
    requires Encodable(payload)
    ensures var r := Execute(Empty, [], flags, [name, sub, "s", "s"], now, dateTime, payload);
      var ddl := ["DDL", sub, Stamp(dateTime, now) + "_" + name];
      var dml := ["DML", sub, Stamp(dateTime, now + 1) + "_" + name];
      && r.status == Pass
      && r.fs.files.Keys == {ddl + ["up.sql"], ddl + ["down.sql"], dml + ["up.sql"], dml + ["down.sql"]}
  {
    var lines := [name, sub, "s", "s"];
    InteractivePlan(flags, name, sub);
    var c0, c1 := MigrationConfig(DDL, "", name, sub), MigrationConfig(DML, "", name, sub);
    var ddl := ["DDL", sub, Stamp(dateTime, now) + "_" + name];
    var dml := ["DML", sub, Stamp(dateTime, now + 1) + "_" + name];
    TypedFolder(c0.(timestamp := Stamp(dateTime, now)));
    TypedFolder(c1.(timestamp := Stamp(dateTime, now + 1)));
    FreshPair([], flags, lines, now, dateTime, payload, c0, c1, ddl, dml);
  }
}
