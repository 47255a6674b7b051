/** The two boilerplate texts written into every migration and the
    line-ending normalisation applied to them (cmd/root.go:39-57, 139-163). */
module Templates {
  import opened Types
  import opened Text
  import opened Latin1

  /** A multi-line literal given line by line: the lines joined by "\n",
      with none after the last. */
  function Lines(ls: seq<string>): string
  {
    if |ls| == 0 then "" else if |ls| == 1 then ls[0] else ls[0] + "\n" + Lines(ls[1..])
  }

  /** The two comment lines both templates end their instructions with. */
  const Reminder: string := "N\U{E3}o esque\U{E7}a de retirar" + " todos os coment\U{E1}rios"
  const CharsetNotice: string :=
    "O arquivo est\U{E1} em " + "charset ISO-8859-1, " + "e deve seer enviado " + "nesse charset"

  /** The DML skeleton: a PL/SQL block that commits, or rolls back on error. */
  const DmlLines: seq<string> := [
    "BEGIN",
    "  -- insira aqui seus " + "scripts DML",
    "  -- " + Reminder,
    "  -- " + CharsetNotice,
    "",
    "",
    "",
    "  COMMIT;",
    "EXCEPTION WHEN " + "OTHERS THEN",
    "  DBMS_OUTPUT." + "PUT_LINE(SQLERRM);",
    "  DBMS_OUTPUT." + "PUT_LINE(SQLCODE);",
    "  ROLLBACK;",
    "END;"
  ]
  const TemplateDML: string := Lines(DmlLines)

  /** The DDL instructions: terminate with ";" and put a "/" under each command. */
  const TerminatorRule: string := "Cada script DDL deve " + "ser terminado por \";\""
  const SlashRule: string := "e abaixo de cada comando " + "inserir uma \"/\""
  const DdlLines: seq<string> := [
    "-- " + TerminatorRule + " " + SlashRule,
    "-- " + Reminder,
    "-- " + CharsetNotice
  ]
  const TemplateDDL: string := Lines(DdlLines)

  /** `processarTemplate`: every "\n" becomes the host's line ending. */
  function ProcessTemplate(template: string, windows: bool): string
  {
    ReplaceAll(template, '\n', if windows then "\r\n" else "\n")
  }

  /** Off Windows the template is written as it is. */
  lemma ProcessTemplateUnix(template: string)
    ensures ProcessTemplate(template, false) == template
  {
    ReplaceAllBySelf(template, '\n');
  }

  /** On Windows every line feed becomes part of a "\r\n" pair, and turning
      the pairs back into "\n" gives the template back. */
  lemma ProcessTemplateWindows(template: string)
    ensures CrlfOnly(ProcessTemplate(template, true))
    ensures CrlfToLf(ProcessTemplate(template, true)) == template
  {
    ReplaceAllMakesCrlf(template);
    CrlfRoundTrip(template);
  }

  /** The template `criarArquivo` picks for a category; the `default` branch
      leaves the content empty. */
  function TemplateFor(t: MigrationType): string
  {
    match t
    case DML => TemplateDML
    case DDL => TemplateDDL
    case CURRENT => TemplateDDL
    case Other(_) => ""
  }

  /** The text written to both files of a migration of category `t`. */
  function Content(t: MigrationType, windows: bool): string
  {
    ProcessTemplate(TemplateFor(t), windows)
  }

  /** DML gets the DML skeleton, DDL and CURRENT share the DDL
      instructions, and the line endings are the host's. */
  lemma ContentByCategory(t: MigrationType, windows: bool)
    requires !t.Other?
    ensures var template := if t == DML then TemplateDML else TemplateDDL;
      && (!windows ==> Content(t, windows) == template)
      && (windows ==> CrlfOnly(Content(t, windows)) && CrlfToLf(Content(t, windows)) == template)
  {
    if windows {
      ProcessTemplateWindows(TemplateFor(t));
    } else {
      ProcessTemplateUnix(TemplateFor(t));
    }
  }

  /** Lines that are encodable join into encodable text. */
  lemma {:induction false} LinesLatin1(ls: seq<string>)
    requires forall k :: 0 <= k < |ls| ==> Representable(ls[k])
    ensures Representable(Lines(ls))
  {
    if |ls| > 1 {
      LinesLatin1(ls[1..]);
      RepresentableAppend(ls[0], "\n");
      RepresentableAppend(ls[0] + "\n", Lines(ls[1..]));
    }
  }

  /** The template lines are Latin-1 text, a few lines at a time. */
  lemma ReminderLatin1()
    ensures Representable(Reminder)
  {
  }

  lemma CharsetNoticeLatin1()
    ensures Representable(CharsetNotice)
  {
  }

  lemma DmlBlockLatin1(k: nat)
    requires k < 7
    ensures Representable(DmlLines[k])
  {
    if k == 2 {
      ReminderLatin1();
      RepresentableAppend("  -- ", Reminder);
    } else if k == 3 {
      CharsetNoticeLatin1();
      RepresentableAppend("  -- ", CharsetNotice);
    }
  }

  lemma DmlCommitLatin1(k: nat)
    requires 7 <= k < 10
    ensures Representable(DmlLines[k])
  {
  }

  lemma DmlRollbackLatin1(k: nat)
    requires 10 <= k < |DmlLines|
    ensures Representable(DmlLines[k])
  {
  }

  lemma DdlRuleLatin1()
    ensures Representable(DdlLines[0])
  {
    assert Representable(TerminatorRule);
    assert Representable(SlashRule);
    RepresentableAppend("-- ", TerminatorRule);
    RepresentableAppend("-- " + TerminatorRule, " ");
    RepresentableAppend("-- " + TerminatorRule + " ", SlashRule);
  }

  lemma DdlLinesLatin1(k: nat)
    requires k < |DdlLines|
    ensures Representable(DdlLines[k])
  {
    if k == 0 {
      DdlRuleLatin1();
    } else if k == 1 {
      ReminderLatin1();
      RepresentableAppend("-- ", Reminder);
    } else {
      CharsetNoticeLatin1();
      RepresentableAppend("-- ", CharsetNotice);
    }
  }

  /** Every character of both templates has a Latin-1 byte. */
  lemma TemplatesLatin1()
    ensures Representable(TemplateDML) && Representable(TemplateDDL)
  {
    forall k | 0 <= k < |DmlLines|
      ensures Representable(DmlLines[k])
    {
      if k < 7 {
        DmlBlockLatin1(k);
      } else if k < 10 {
        DmlCommitLatin1(k);
      } else {
        DmlRollbackLatin1(k);
      }
    }
    LinesLatin1(DmlLines);
    forall k | 0 <= k < |DdlLines|
      ensures Representable(DdlLines[k])
    {
      DdlLinesLatin1(k);
    }
    LinesLatin1(DdlLines);
  }

  /** The text written into a migration's files always has a Latin-1
      encoding, whichever the category and the host. */
  lemma ContentLatin1(t: MigrationType, windows: bool)
    ensures Representable(Content(t, windows))
  {
    TemplatesLatin1();
    var template := TemplateFor(t);
    var ending := if windows then "\r\n" else "\n";
    assert Representable(template);
    assert Representable(ending);
    var r := Content(t, windows);
    forall i | 0 <= i < |r|
      ensures r[i] as int < 256
    {
      assert r[i] in template || r[i] in ending;
    }
  }
}
