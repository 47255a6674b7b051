# migrate — a verified model of the migration scaffolder

`migrate [nome]` creates SQL migration skeletons: for every requested
category (DDL, DML, or none at all, "CURRENT") a folder named
`<stamp>_<nome>` holding an `up.sql` and a `down.sql` with the same
boilerplate template, encoded in ISO-8859-1. The stamp is the date and time
to the second (`yyyyMMddHHmmss`) followed by the millisecond on three
digits; the i-th request of one run is stamped `i` milliseconds after the
first, so the folders of one run never collide and, while the local clock
does not step back, sort in creation order.
Without a positional name the command asks four questions on standard
input (name, sub-directory, DDL?, DML?) and the answers replace the flags.

The model follows `cmd/root.go` part by part:

| module | file | models |
|---|---|---|
| `Types` | types.dfy | the categories, `MigrationConfig`, `MigrationResult`, paths, the errors |
| `Text` | text.dfy | `strings.TrimSpace`, `strings.ToLower` (ASCII), `strings.ReplaceAll` with a one-character pattern, byte-wise string order |
| `Latin1` | latin1.dfy | the ISO-8859-1 encoder |
| `Timestamp` | timestamp.dfy | the stamp of `criarMigrations` |
| `Templates` | templates.dfy | the two templates, `processarTemplate` and the choice of template by category |
| `Resolver` | resolver.dfy | `runInteractiveMode`, `determinarConfiguracoes` and the decisions of `RunE` up to the list of requests |
| `Disk` | disk.dfy | the working directory as a value; `criarDiretorio`, `criarArquivo`, `criarMigration`, `criarMigrations` as functions on it, and what a run leaves behind |
| `Output` | output.dfy | `exibirResultados` |
| `Scaffold` | scaffold.dfy | class `Workspace`: the same steps performed in place on the directories and files, each method proved equal to its function in `Disk` |
| `Command` | command.dfy | `RunE` end to end, and the test scenarios of `cmd/root_test.go` |

The file-system steps change state in the source, so they are the methods
of class `Scaffold.Workspace` (fields `dirs: set<Path>` and
`files: map<Path, seq<byte>>`), and `criarMigrations` and
`exibirResultados` keep their loops. Every such method is specified by a
function over values (`Disk.CreateMigration`, `Disk.Materialize`,
`Output.Listing`, …), and the properties are lemmas about those functions.

The bytes written are those of `Scaffold.EncodeTemplates`, which `RunE`
computes once for the host. The lemmas about a whole run
(`Command.ExecuteFresh`, the `Scenario` lemmas) hold for any payload that has
bytes for both templates; `Command.TemplatesEncodable` proves that the
payload of `RunE` always has them, and `Command.RunFresh` states
`ExecuteFresh` for that payload.

## Model

| member | source | states |
|---|---|---|
| Text.TrimSpace | cmd/root.go:251 | `strings.TrimSpace`; its properties are stated by TrimSpaceFramed, TrimSpaceUnpadded and TrimSpaceIdempotent |
| Text.TrimLeft | cmd/root.go:251 | leading white space only is dropped, and the result does not start with white space |
| Text.TrimRight | cmd/root.go:251 | trailing white space only is dropped, and the result does not end with white space |
| Text.TrimSpaceFramed | cmd/root.go:251 | the input is the trimmed text framed by white space only, and the trimmed text starts and ends with a non-space |
| Text.TrimSpaceUnpadded | cmd/root.go:251 | a text without surrounding white space is kept as typed |
| Text.TrimSpaceIdempotent | cmd/root.go:251 | trimming twice is trimming once |
| Text.ReplaceAll | cmd/root.go:146 | every character of the result is a character of the input other than the one replaced, or one of the replacement; so the replaced character is gone unless the replacement holds it |
| Text.ReplaceAllBySelf | cmd/root.go:140-146 | with the "\n" line ending the replacement leaves the template unchanged |
| Text.ReplaceAllMakesCrlf | cmd/root.go:141-146 | with "\r\n" every line feed of the result is preceded by a carriage return |
| Text.CrlfRoundTrip | cmd/root.go:141-146 | turning the "\r\n" pairs back into "\n" gives the template back |
| Latin1.Encode | cmd/root.go:156-169 | encoding succeeds exactly when every code point is below 256, and then gives one byte per character of the same value |
| Latin1.DecodeEncode | cmd/root.go:156 | an encodable text is decoded back to itself |
| Latin1.EncodeDecode | cmd/root.go:156 | every byte sequence is the encoding of its decoding |
| Timestamp.Pad3 | cmd/root.go:215 | `%03d` of a millisecond is three digits |
| Timestamp.Pad3Value | cmd/root.go:215 | the three digits spell the millisecond |
| Timestamp.Pad3Increasing | cmd/root.go:215 | a later millisecond pads to a greater string |
| Timestamp.Stamp | cmd/root.go:214-215 | the stamp of an instant; StampShape, StampIncreasing and StampInjective state its properties |
| Timestamp.StampShape | cmd/root.go:214-215 | every stamp is 17 decimal digits |
| Timestamp.StampIncreasing | cmd/root.go:212-216 | a later instant gets a strictly greater stamp in string order |
| Timestamp.StampInjective | cmd/root.go:212-216 | distinct instants get distinct stamps |
| Templates.ProcessTemplate | cmd/root.go:139-147 | `processarTemplate`; ProcessTemplateUnix and ProcessTemplateWindows state what it does on each host |
| Templates.ProcessTemplateUnix | cmd/root.go:139-147 | off Windows the template is written as it is |
| Templates.ProcessTemplateWindows | cmd/root.go:139-147 | on Windows every line ends in "\r\n", and undoing that gives the template back |
| Templates.TemplateFor | cmd/root.go:157-164 | the template `criarArquivo` picks; ContentByCategory states the choice |
| Templates.Content | cmd/root.go:157-164 | the text written for a category; ContentByCategory and ContentLatin1 state its properties |
| Templates.ContentByCategory | cmd/root.go:157-163 | DML gets the DML template, DDL and CURRENT the DDL one, with the host's line endings |
| Templates.TemplatesLatin1 | cmd/root.go:39-57 | every character of both templates has a Latin-1 byte |
| Templates.ContentLatin1 | cmd/root.go:139-166 | the text written for any category, on either host, has a Latin-1 encoding |
| Resolver.IsYes | cmd/root.go:263 | the yes/no reading of an answer; IsYesExactly and AffirmativeAnswer state it |
| Resolver.IsYesExactly | cmd/root.go:263-269 | an answer is yes exactly when, trimmed, it is "s" or "S" |
| Resolver.AffirmativeAnswer | cmd/root.go:259-263 | "s" is a yes |
| Resolver.Questions | cmd/root.go:247-265 | the prompts written on standard output; Asked states which are written |
| Resolver.Asked | cmd/root.go:243-272 | the prompts are written in order, one per line read, and the last one written is the one a missing line is reported for |
| Resolver.ReadAnswers | cmd/root.go:243-272 | fewer than four lines is an error naming the first unanswered prompt; otherwise the name and sub-directory are trimmed and each yes/no answer is `IsYes` of its line |
| Resolver.DetermineConfigs | cmd/root.go:274-290 | at most two unstamped requests carrying the name and sub-directory; DDL is present iff `--all` or `--ddl`, DML iff `--all` or `--dml`, DDL always first |
| Resolver.AllFlagWins | cmd/root.go:277-279 | with `--all` the other two flags change nothing and there are two requests |
| Resolver.SingleFlag | cmd/root.go:280-286 | `--ddl` alone or `--dml` alone asks for one request of that category |
| Resolver.Resolve | cmd/root.go:93-107 | an empty name is refused; a result has one or two requests of a known category with the name and sub-directory; in interactive mode it is exactly `DetermineConfigs` |
| Resolver.Plan | cmd/root.go:73-107 | `RunE` up to the list of requests; PlanShape, PlanEmptyName, PlanNamed, PlanDefaultsToCurrent, PlanInteractive, PlanInteractiveNothingSelected and PlanShortInput state it |
| Resolver.PlanEmptyName | cmd/root.go:90-95 | an empty positional name is refused, a blank one is accepted |
| Resolver.PlanNamed | cmd/root.go:89-103 | with a positional name the flags decide, and no selection means one CURRENT request |
| Resolver.PlanDefaultsToCurrent | cmd/root.go:100-103 | a name without flags is one CURRENT request carrying `--sub` |
| Resolver.PlanInteractive | cmd/root.go:78-107 | without a positional name the trimmed answers replace the flags and `--all` is off; an empty name or no selection is an error |
| Resolver.PlanInteractiveNothingSelected | cmd/root.go:101-107 | answering no twice is the error NoTypeSelected, not a CURRENT request |
| Resolver.PlanShortInput | cmd/root.go:80-83 | missing input lines fail before anything is decided, naming the first unanswered prompt |
| Resolver.PlanShape | cmd/root.go:73-107 | every accepted plan has one or two unstamped requests of a known category sharing a non-empty name; two are DDL then DML |
| Disk.MkdirAll | cmd/root.go:132-137 | `criarDiretorio`; MkdirAllEffect states it |
| Disk.MkdirAllEffect | cmd/root.go:132-137 | success exactly when no file is in the way, and then the folder and every folder above it exist; only those are created and no file changes |
| Disk.WriteTemplate | cmd/root.go:149-171 | `criarArquivo`; WriteTemplateEffect states it |
| Disk.WriteTemplateEffect | cmd/root.go:149-171 | success exactly when the path is not a folder, its parent exists and the template is encodable, and then the file holds the encoded template; no folder and no other file changes |
| Disk.PayloadsEncode | cmd/root.go:156-166 | the bytes looked up for a category are the Latin-1 encoding of its content on that host |
| Disk.MigrationDir | cmd/root.go:174-189 | `Type[/SubDir]/stamp_name` for DDL and DML, `stamp_name` for CURRENT (which ignores the sub-directory), and InvalidType for any other category |
| Disk.TypedFolder | cmd/root.go:174-184 | the folder of a DDL or DML request, segment by segment |
| Disk.CreateMigration | cmd/root.go:173-206 | an unknown category changes nothing; otherwise only new directories and the two files change, and success reports the expected files, both holding the category's encoded template, under a folder that exists |
| Disk.CreateMigrationFails | cmd/root.go:173-206 | a file in the way of the folder fails with nothing changed; a folder where `up.sql` or `down.sql` goes fails after the folders (and `up.sql`) were made; a template the encoder refuses leaves `up.sql` empty and fails |
| Disk.CreateMigrationSucceeds | cmd/root.go:173-206 | when no file blocks the folder and no folder sits where a file goes, the request succeeds and adds exactly the folders and the two files |
| Disk.MaterializeFrom | cmd/root.go:212-225 | the loop of `criarMigrations` from request `i` on; MaterializeFromResults and MaterializeFromWritesAt state it |
| Disk.Materialize | cmd/root.go:208-226 | `criarMigrations`; MaterializeResults, MaterializeExpected, MaterializeRejectsInvalid, MaterializeWrites and MaterializeFresh state it |
| Disk.RunStampsIncreasing | cmd/root.go:212-216 | the stamps of one run increase strictly with the position of the request |
| Disk.MaterializeFromResults | cmd/root.go:208-226 | from request `i` on, a successful run keeps the results so far and adds request `k`'s expected result at position `k` |
| Disk.MaterializeResults | cmd/root.go:208-226 | a successful run reports one result per request, in order, request `k` in the folder of stamp `now + k` |
| Disk.MaterializeExpected | cmd/root.go:208-226 | a successful run had only known categories and reports exactly `ExpectedRun` |
| Disk.MaterializeRejectsInvalid | cmd/root.go:187-188 | a request of unknown category anywhere makes the whole run fail without results |
| Disk.StampedPathsDisjoint | cmd/root.go:212-218 | two requests of one run never share a file |
| Disk.MaterializeFromWritesAt | cmd/root.go:212-223 | after the rest of the loop succeeds, request `k`'s files hold its category's encoded template |
| Disk.StepKeepsWritten | cmd/root.go:218-222 | one more request writes its own files and leaves those of earlier requests as they were |
| Disk.MaterializeWrites | cmd/root.go:208-226 | after a successful run both files of every request hold the encoded template of its category: no later request overwrites an earlier one |
| Disk.MaterializeFresh | cmd/root.go:208-226 | in an empty directory a plan of one request, or DDL then DML, succeeds and leaves exactly the reported files |
| Output.SplitRender | cmd/root.go:231-232 | a printed path reads back as its segments when no segment holds a "/" |
| Output.Listing | cmd/root.go:228-234 | the lines of the report; ListingLines and ListingOne state them |
| Output.ListingLines | cmd/root.go:228-234 | the report is the header, then the `up.sql` and `down.sql` lines of every result in order |
| Output.ListingOne | cmd/root.go:228-234 | the report of one migration is three lines |
| Output.JoinedAppend | cmd/root.go:229-233 | two blocks of `Fprintln` lines print as one after the other |
| Output.PrintStep | cmd/root.go:230-233 | one loop turn adds the two lines of its result |
| Output.Print | cmd/root.go:228-234 | the loop prints exactly the report of the results |
| Scaffold.EncodeTemplates | cmd/root.go:156-166 | every category finds bytes in the payload, they are the Latin-1 encoding of its text on the host, and they decode back to exactly that text |
| Scaffold.Workspace.MkdirAll | cmd/root.go:132-137 | the directory tree afterwards and the outcome are those of `Disk.MkdirAll` |
| Scaffold.Workspace.WriteTemplate | cmd/root.go:149-171 | the files afterwards and the outcome are those of `Disk.WriteTemplate` |
| Scaffold.Workspace.CreateMigration | cmd/root.go:173-206 | the working directory afterwards and the result are those of `Disk.CreateMigration` |
| Scaffold.Workspace.CreateMigrations | cmd/root.go:208-226 | the loop leaves the working directory and returns the result of `Disk.Materialize` |
| Command.RunE | cmd/root.go:73-116 | the working directory, standard output and status afterwards are those of `Execute` |
| Command.Execute | cmd/root.go:73-116 | `RunE` on a value; ExecuteRefusedPlan, ExecuteAccepted, ExecuteFresh, RunFresh and ExecuteWrites state it |
| Command.ExecuteRefusedPlan | cmd/root.go:80-107 | a refused plan touches nothing on disk and prints only the questions asked |
| Command.EncodableHost | cmd/root.go:156-166 | the templates are encodable on a host exactly when both contents are Latin-1 |
| Command.TemplatesEncodable | cmd/root.go:156-166 | the payload `RunE` encodes has bytes for both templates on either host |
| Command.ExecuteAccepted | cmd/root.go:109-115 | an accepted plan passes exactly when `criarMigrations` succeeds, and then prints the report after the questions |
| Command.ExecuteFresh | cmd/root.go:73-116 | in an empty directory every accepted plan succeeds, leaves exactly the expected files and prints their report |
| Command.RunFresh | cmd/root.go:73-116 | with the payload `RunE` encodes, on either host, every accepted plan succeeds in an empty directory, leaves exactly the expected files and prints their report |
| Command.ExecuteWrites | cmd/root.go:73-116 | a successful run prints the report of the expected results, and every reported file holds its category's encoded template |
| Command.ExpectedRunSmall | cmd/root.go:212-216 | the first request is stamped `now`, the second `now + 1` |
| Command.ScenarioDdl | cmd/root_test.go:129-133 | `criar_tabela_usuarios --ddl` creates `DDL/<stamp>_criar_tabela_usuarios/{up,down}.sql` and prints them |
| Command.ScenarioDml | cmd/root_test.go:134-138 | `inserir_usuario_padrao --dml` creates `DML/<stamp>_inserir_usuario_padrao/{up,down}.sql` |
| Command.ScenarioAll | cmd/root_test.go:139-146 | `setup_inicial --all` creates the DDL folder stamped `now` and the DML one stamped `now + 1` |
| Command.ScenarioSubDir | cmd/root_test.go:147-151 | `criar_indices --ddl --sub performance` creates `DDL/performance/<stamp>_criar_indices/{up,down}.sql` |
| Command.ScenarioCurrent | cmd/root_test.go:152-156 | `migracao_local` without flags creates `<stamp>_migracao_local/{up,down}.sql` |
| Command.ScenarioNoName | cmd/root_test.go:157-161 | `--ddl` with empty input asks for the name, fails and creates nothing |
| Command.SessionAnswers | cmd/root.go:243-272 | unpadded answers are kept as typed and "s" is a yes |
| Command.BothSelected | cmd/root.go:281-286 | DDL and DML selected without `--all` give DDL then DML |
| Command.InteractivePlan | cmd/root.go:78-98 | answering yes twice plans DDL and DML with the typed name and sub-directory, whatever the flags |
| Command.ScenarioInteractive | cmd/root_test.go:189-202 | the session name, sub-directory, "s", "s" creates the DDL and DML folders under the sub-directory |

## Left out

- Cobra is not part of this model. Argument parsing, help text and the usage and error messages it prints are left out. Its `MaximumNArgs(1)` check becomes the precondition `|args| <= 1`.
- Real I/O is left out. Permissions (0755), closing files, and operating-system failures other than the structural ones are not modelled. The structural ones are a file on the way of a folder, a folder or a missing parent where a file goes, and a character with no Latin-1 byte.
- `filepath.Join` cleaning is left out. Segments are kept as given, and a name or sub-directory containing "/", ".." or nothing is not normalised. `SplitRender` requires segments without "/".
- `time.Now` is the parameter `now`, a whole number of milliseconds since the epoch. The calendar layout "20060102150405" is the parameter `dateTime`, and the stamp lemmas assume `ValidDateTime`: 14 digits per second, increasing with time, up to the year 10000 (`Horizon`). Sub-millisecond precision and time zones are left out.
- `strings.ToLower` is modelled on ASCII letters only. No other code point lowers to "s", so yes/no answers behave as in Go.
- `bufio.Scanner` is a list of lines, and a missing line is the error. Its token-size limit and read errors other than end of input are left out.
- Scaffold.Workspace.WriteTemplate does not encode the template itself. `RunE` encodes both templates once (`EncodeTemplates`) and the `Workspace` methods look the bytes up by category. Encoding is a pure function of the host, so the bytes written are the same.
- Disk.WriteTemplate: a file whose template the encoder refuses is left empty. Go's encoding writer may flush part of the text before failing.
- The stamp renders local time, and local time is not monotone: it steps back when daylight saving time ends. `ValidDateTime` assumes a layout that increases with time, so StampIncreasing and the ordering of folders hold only while the clock does not step back.
- The package-level flag variables outlive an invocation in the source: the interactive mode overwrites them. The model takes the flags and answers of one invocation only.

Behaviours of the code that a reader might not expect:
- A positional name is not trimmed. Only the exact empty string is refused; a name made of blanks is accepted.
- In interactive mode, answering no to both questions is the error "nenhum tipo de migration foi selecionado". It does not fall back to CURRENT.
- The interactive mode starts whenever there is no positional argument, whatever the flags say. Its answers replace `--sub`, `--ddl` and `--dml`, and turn `--all` off.
- The only affirmative answer is "s" (trimmed, any case); "sim" is a no.
- The templates are not pure ASCII ("Não", "esqueça", "comentários"), but every character is in Latin-1 (`TemplatesLatin1`).
- A CURRENT request carries the `--sub` value, but its folder ignores it.
