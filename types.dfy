/** Entities shared by every part of the scaffolder: the migration categories,
    the request and result records, paths and the error taxonomy. */
module Types {

  /** The three categories the command creates, plus any other text a
      `MigrationType` string may hold (cmd/root.go:18-24). */
  datatype Kind = DDL | DML | CURRENT | Other(text: string)

  /** An `Other` value never spells one of the three known names, so each
      string has exactly one `MigrationType`. */
  type MigrationType = k: Kind | !k.Other? || (k.text != "DDL" && k.text != "DML" && k.text != "CURRENT")
    witness DDL

  /** The string the Go type holds: also the category's top-level folder. */
  function TypeName(t: MigrationType): string
  {
    match t
    case DDL => "DDL"
    case DML => "DML"
    case CURRENT => "CURRENT"
    case Other(text) => text
  }

  /** One unit of work; `timestamp` is "" until the run stamps it (cmd/root.go:27-32). */
  datatype MigrationConfig = MigrationConfig(kind: MigrationType, timestamp: string, name: string, subDir: string)

  /** A path as its "/"-separated segments, relative to the working directory. */
  type Path = seq<string>

  /** The two files written for one migration (cmd/root.go:34-37). */
  datatype MigrationResult = MigrationResult(upPath: Path, downPath: Path)

  /** The four interactive prompts, in the order they are asked. */
  datatype Prompt = NamePrompt | SubDirPrompt | DdlPrompt | DmlPrompt

  datatype Error =
    | InputMissing(prompt: Prompt)    // the scanner found no line for this prompt
    | EmptyName                       // "nome da migration não pode ser vazio"
    | NoTypeSelected                  // "nenhum tipo de migration foi selecionado"
    | InvalidType(text: string)       // "tipo de migration inválido"
    | MkdirFailed(dir: Path)          // os.MkdirAll failed
    | CreateFailed(file: Path)        // os.Create failed
    | WriteFailed(file: Path)         // the Latin-1 writer refused the content

  datatype Result<T> = Ok(value: T) | Err(error: Error)

  datatype Outcome = Pass | Fail(error: Error)

  datatype Option<T> = None | Some(value: T)
}
