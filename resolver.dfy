/** Turning the command line and, in interactive mode, the answers read from
    standard input into the list of migrations to create (cmd/root.go:73-107,
    243-290). */
module Resolver {
  import opened Types
  import opened Text

  /** The values of `--ddl`, `--dml`, `--all` and `--sub`. */
  datatype Flags = Flags(ddl: bool, dml: bool, all: bool, sub: string)

  /** What the interactive mode collects (cmd/root.go:236-241). */
  datatype Answers = Answers(name: string, subDir: string, ddl: bool, dml: bool)

  /** A yes/no answer counts as yes only when, trimmed and lower-cased, it
      is exactly "s". */
  predicate IsYes(line: string)
  {
    Lower(TrimSpace(line)) == "s"
  }

  /** The only affirmative answers are "s" and "S", with any white space
      around them; "sim", "y" or "yes" are a no. */
  lemma IsYesExactly(line: string)
    ensures IsYes(line) <==> TrimSpace(line) == "s" || TrimSpace(line) == "S"
  {
    var t := TrimSpace(line);
    if |t| == 1 {
      assert Lower(t) == [LowerChar(t[0])];
      assert t == "s" || t == "S" <==> t[0] == 's' || t[0] == 'S';
    } else {
      assert |Lower(t)| != 1;
    }
  }

  /** The answer the interactive mode expects for yes. */
  lemma AffirmativeAnswer()
    ensures IsYes("s")
  {
    TrimSpaceUnpadded("s");
    IsYesExactly("s");
  }

  function PromptIndex(p: Prompt): nat
  {
    match p
    case NamePrompt => 0
    case SubDirPrompt => 1
    case DdlPrompt => 2
    case DmlPrompt => 3
  }

  /** The question written before each line is read. */
  function PromptText(p: Prompt): string
  {
    match p
    case NamePrompt => "Informe o nome para a migration: "
    case SubDirPrompt => "Informe o subdiret\U{F3}rio (opcional): "
    case DdlPrompt => "Deseja gerar DDL? (s/n): "
    case DmlPrompt => "Deseja gerar DML? (s/n): "
  }

  /** The questions asked, in order, when standard input holds `lines`:
      each is asked before its line is read, so a missing line is asked
      for and then reported. */
  function Asked(lines: seq<string>): (r: seq<Prompt>)
    ensures |r| == if |lines| < 4 then |lines| + 1 else 4
    ensures forall i :: 0 <= i < |r| ==> PromptIndex(r[i]) == i
    ensures ReadAnswers(lines).Err? ==> r[|r| - 1] == ReadAnswers(lines).error.prompt
  {
    var all := [NamePrompt, SubDirPrompt, DdlPrompt, DmlPrompt];
    all[..if |lines| < 4 then |lines| + 1 else 4]
  }

  /** The questions as they appear on standard output. */
  function Questions(ps: seq<Prompt>): string
    decreases |ps|
  {
    if ps == [] then "" else Questions(ps[..|ps| - 1]) + PromptText(ps[|ps| - 1])
  }

  /** `runInteractiveMode` over the lines of standard input: name,
      sub-directory, "DDL?" and "DML?", in this order; lines after the
      fourth are not read. */
  function ReadAnswers(lines: seq<string>): (r: Result<Answers>)
    ensures r.Err? <==> |lines| < 4
    ensures r.Err? ==> r.error.InputMissing? && PromptIndex(r.error.prompt) == |lines|
    ensures r.Ok? ==> r.value.name == TrimSpace(lines[0]) && r.value.subDir == TrimSpace(lines[1])
    ensures r.Ok? ==> (r.value.ddl <==> IsYes(lines[2])) && (r.value.dml <==> IsYes(lines[3]))
  {
    if |lines| == 0 then Err(InputMissing(NamePrompt))
    else if |lines| == 1 then Err(InputMissing(SubDirPrompt))
    else if |lines| == 2 then Err(InputMissing(DdlPrompt))
    else if |lines| == 3 then Err(InputMissing(DmlPrompt))
    else Ok(Answers(TrimSpace(lines[0]), TrimSpace(lines[1]), IsYes(lines[2]), IsYes(lines[3])))
  }

  /** `determinarConfiguracoes`: `--all` means DDL and DML whatever the
      other two flags say; otherwise DDL is chosen by `--ddl` and DML by
      `--dml`. DDL always comes first and every request carries the name
      and the sub-directory, not yet stamped. */
  function DetermineConfigs(useAll: bool, useDML: bool, useDDL: bool, name: string, subDir: string)
    : (r: seq<MigrationConfig>)
    ensures |r| <= 2
    ensures forall i :: 0 <= i < |r| ==> r[i] == MigrationConfig(r[i].kind, "", name, subDir)
    ensures forall i :: 0 <= i < |r| ==> r[i].kind == DDL || r[i].kind == DML
    ensures (exists i :: 0 <= i < |r| && r[i].kind == DDL) <==> useAll || useDDL
    ensures (exists i :: 0 <= i < |r| && r[i].kind == DML) <==> useAll || useDML
    ensures forall i, j :: 0 <= i < j < |r| ==> r[i].kind == DDL && r[j].kind == DML
  {
    if useAll then
      var both := [MigrationConfig(DDL, "", name, subDir), MigrationConfig(DML, "", name, subDir)];
      assert both[0].kind == DDL && both[1].kind == DML;
      both
    else
      var configs := (if useDDL then [MigrationConfig(DDL, "", name, subDir)] else [])
        + (if useDML then [MigrationConfig(DML, "", name, subDir)] else []);
      assert useDDL ==> configs[0].kind == DDL;
      assert useDML ==> configs[|configs| - 1].kind == DML;
      configs
  }

  /** With `--all` the plan is the same whatever `--ddl` and `--dml` say. */
  lemma AllFlagWins(dml1: bool, ddl1: bool, dml2: bool, ddl2: bool, name: string, subDir: string)
    ensures DetermineConfigs(true, dml1, ddl1, name, subDir) == DetermineConfigs(true, dml2, ddl2, name, subDir)
    ensures |DetermineConfigs(true, dml1, ddl1, name, subDir)| == 2
  {
  }

  /** `--ddl` alone or `--dml` alone asks for exactly one request of that
      category. */
  lemma SingleFlag(name: string, subDir: string)
    ensures DetermineConfigs(false, false, true, name, subDir) == [MigrationConfig(DDL, "", name, subDir)]
    ensures DetermineConfigs(false, true, false, name, subDir) == [MigrationConfig(DML, "", name, subDir)]
  {
    assert [] + [MigrationConfig(DML, "", name, subDir)] == [MigrationConfig(DML, "", name, subDir)];
    assert [MigrationConfig(DDL, "", name, subDir)] + [] == [MigrationConfig(DDL, "", name, subDir)];
  }

  /** The rules `RunE` adds around `determinarConfiguracoes`: an empty name
      is refused, and an empty selection becomes one CURRENT request when
      the name came from the command line but is an error in interactive
      mode. */
  function Resolve(name: string, flags: Flags, interactive: bool): (r: Result<seq<MigrationConfig>>)
    ensures name == "" ==> r == Err(EmptyName)
    ensures r.Ok? ==> 1 <= |r.value| <= 2
    ensures r.Ok? ==> forall i :: 0 <= i < |r.value| ==>
      r.value[i].name == name && r.value[i].timestamp == "" && r.value[i].subDir == flags.sub
      && !r.value[i].kind.Other?
    ensures r.Ok? && |r.value| == 2 ==> r.value[0].kind == DDL && r.value[1].kind == DML
    ensures r.Ok? && interactive ==> r.value == DetermineConfigs(flags.all, flags.dml, flags.ddl, name, flags.sub)
  {
    if name == "" then Err(EmptyName)
    else
      var configs := DetermineConfigs(flags.all, flags.dml, flags.ddl, name, flags.sub);
      if configs == [] && !interactive then Ok([MigrationConfig(CURRENT, "", name, flags.sub)])
      else if configs == [] then Err(NoTypeSelected)
      else Ok(configs)
  }

  /** The plan of one invocation: with a positional name the flags decide;
      without one the four answers replace `--sub`, `--ddl` and `--dml`, and
      `--all` is off. Cobra has already refused more than one positional
      argument. */
  function Plan(args: seq<string>, flags: Flags, lines: seq<string>): Result<seq<MigrationConfig>>
    requires |args| <= 1
  {
    if args == [] then
      match ReadAnswers(lines)
      case Err(e) => Err(e)
      case Ok(a) => Resolve(a.name, Flags(a.ddl, a.dml, false, a.subDir), true)
    else
      Resolve(args[0], flags, false)
  }

  /** An empty positional name is refused; it is not trimmed, so a name of
      blanks is accepted. */
  lemma PlanEmptyName(flags: Flags, lines: seq<string>)
    ensures Plan([""], flags, lines) == Err(EmptyName)
    ensures Plan([" "], flags, lines).Ok?
  {
  }

  /** With a positional name the flags decide, and selecting nothing means
      one CURRENT request. */
  lemma PlanNamed(name: string, flags: Flags, lines: seq<string>)
    requires name != ""
    ensures var d := DetermineConfigs(flags.all, flags.dml, flags.ddl, name, flags.sub);
      Plan([name], flags, lines) == Ok(if d == [] then [MigrationConfig(CURRENT, "", name, flags.sub)] else d)
  {
    assert [name][0] == name;
  }

  /** Without flags and with a positional name, the plan is a single
      CURRENT request, which still carries `--sub`. */
  lemma PlanDefaultsToCurrent(name: string, sub: string, lines: seq<string>)
    requires name != ""
    ensures Plan([name], Flags(false, false, false, sub), lines) == Ok([MigrationConfig(CURRENT, "", name, sub)])
  {
  }

  /** In interactive mode the flags are ignored: the answers decide, with
      the trimmed name and sub-directory. */
  lemma PlanInteractive(flags: Flags, lines: seq<string>)
    requires |lines| >= 4
    ensures var name := TrimSpace(lines[0]);
      var configs := DetermineConfigs(false, IsYes(lines[3]), IsYes(lines[2]), name, TrimSpace(lines[1]));
      Plan([], flags, lines) ==
        if name == "" then Err(EmptyName)
        else if configs == [] then Err(NoTypeSelected)
        else Ok(configs)
  {
  }

  /** An interactive session that answers no to both questions fails; it
      does not fall back to CURRENT. */
  lemma PlanInteractiveNothingSelected(flags: Flags, lines: seq<string>)
    requires |lines| >= 4 && TrimSpace(lines[0]) != ""
    requires !IsYes(lines[2]) && !IsYes(lines[3])
    ensures Plan([], flags, lines) == Err(NoTypeSelected)
  {
  }

  /** Missing input lines: the error names the first prompt left without a
      line, before anything else is decided. */
  lemma PlanShortInput(flags: Flags, lines: seq<string>)
    requires |lines| < 4
    ensures Plan([], flags, lines).Err? && Plan([], flags, lines).error.InputMissing?
    ensures PromptIndex(Plan([], flags, lines).error.prompt) == |lines|
  {
  }

  /** Whatever the path, a plan that succeeds names one or two requests of
      a known category, all with the same non-empty name and no stamp; two
      requests are a DDL one followed by a DML one. */
  lemma PlanShape(args: seq<string>, flags: Flags, lines: seq<string>)
    requires |args| <= 1
    ensures var r := Plan(args, flags, lines);
      r.Ok? ==> 1 <= |r.value| <= 2 && forall i :: 0 <= i < |r.value| ==>
        r.value[i].name != "" && r.value[i].name == r.value[0].name
        && r.value[i].timestamp == "" && !r.value[i].kind.Other?
    ensures var r := Plan(args, flags, lines);
      r.Ok? && |r.value| == 2 ==> r.value[0].kind == DDL && r.value[1].kind == DML
  {
  }
}
