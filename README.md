# CsvMigration, modelled in Dafny

`CsvMigration` is an abstract Phinx migration that seeds one database table
from CSV files. Its `up` step runs a configuration hook, then imports the
table. The real file `{base}/phinx/db/files/{table}.csv` is always handled
first. The fake file `{base}/phinx/db/files/{table}_fake.csv` is handled next,
unless the `SKIP_FAKE` environment variable is `1`, `true` or `on`. A handled
variant whose file exists is read, its rows are turned into records, and the
records are inserted into the table in one call. A variant whose file is
missing goes to a manual-import hook instead. Its `down` step truncates the
table with `TRUNCATE "<table>" RESTART IDENTITY CASCADE;`.

Reading a file turns rows into records. Row 0 is the header. Every later row
becomes one record that maps each header name to the field at the same
position. An empty field is stored as null.

The project has five files:

- `wrappers.dfy` (module `Wrappers`): `Option`, `Result` and `Outcome`.
- `csv_records.dfy` (module `CsvRecords`): `buildToInsertArray`.
  - A record is a PHP array: ordered, each key once, with `Put` as PHP's
    `$a[$k] = $v`.
  - It holds the specification functions (`RowRecord`, `BuildToInsert`,
    `SeedRecords`) and the lemmas about them.
  - It also holds the loop method `BuildToInsertArray`, proved equal to
    `BuildToInsert`.
- `import_policy.dfy` (module `ImportPolicy`): the file paths, the skip flag
  and the truncate statement, as functions, with lemmas about them.
- `csv_migration.dfy` (module `Migration`): the class `CsvMigration`.
  - It has the PHP class's fields, plus `effects`: the ordered record of
    inserts, executed SQL and hooks that ran.
  - It also has `world`: the file system and environment it reads.
  - Every PHP method that reads the world or imports data is a Dafny method
    proved equal to a function of the world: `CheckFileIsUsable` to
    `Usability`, `GetFile` to `OpenCsv`, `SeedFromCsv` to `LoadCsv`,
    `PerformImport*Data` to `ImportVariant` and `CheckAndImportCsvData` and
    `Up` to `ImportAll`. The file name these leave behind is given by
    `VariantFileName` and `ImportFileName`.
  - The getters are reading functions. The setters, the hooks and `Down` only
    set a field or append one effect, and say exactly that.
  - The lemmas `ImportAllOrder` and `SkipFlagControlsFake` state the resolution
    policy.
- `scenarios.dfy` (module `Scenarios`): worked cases. They cover each state of
  the two files (none, only the real one, only the fake one, both, an
  unreadable real one), rollback, short rows and repeated header names. A client
  method runs `Up` and then `Down` on an object.

Exceptions are values. `checkFileIsUsable` and `getFile` throw
`FileNotFound`, `FileNotReadable` or `OpenFailed`. These travel back through
every caller as `Failure`/`Fail`, as a PHP exception unwinds the stack.
Effects that happened before the throw stay in `effects`.

Points where the code's behaviour is easy to misread:

- The code ignores the `importRealAndFake` argument of `checkAndImportCSVData`. There is no
  "import both" override: with `SKIP_FAKE` on, only the real variant is handled
  whatever the argument says.
- When only `{table}.csv` exists and fake data is not skipped, the code does
  run the fake hook `doManualImportFake` for the missing fake file
  (`Scenarios.OnlyRealFile`).
- There is no import-decision value. `checkAndImportCSVData` returns `false`
  on every path that does not throw (`Migration.ImportAll`).
- The skip flag uses PHP's loose `==`, not an exact, case-sensitive match
  (see `ImportPolicy.SkipFakeData` under Left out).
- A data row shorter than the header: PHP reads the undefined offset as null,
  and `strlen(null)` is 0, so the field is stored as null (`CsvRecords.Cell`).

The path of a table's real file is also the path of another table's fake
file: `{t}_fake.csv` is both the fake file of table `t` and the real file of
table `t_fake` (`ImportPolicy.RealFileOfFakeNamedTable`).

## Model

| member | source | states |
|---|---|---|
| `CsvRecords.Put` | src/CsvMigration.php:156 | `$temp[$value] = …` stores the value under the key. The record grows by one entry exactly when the key was not yet present. |
| `CsvRecords.Cell` | src/CsvMigration.php:156-161 | The stored field is null iff the row is too short to have it or it is empty. Otherwise it is the field's text unchanged. |
| `CsvRecords.RowRecord` | src/CsvMigration.php:154-163 | A row's record has at most one entry per header position. The last header position's field is stored under its name. |
| `CsvRecords.SeedRecords` | src/CsvMigration.php:87-90 | One record fewer than rows, with row 0 the header; a file of at most one row gives no records. |
| `CsvRecords.PutLookup` | src/CsvMigration.php:156-161 | `$temp[$value] = …` reads back as the stored value and leaves every other key unchanged. |
| `CsvRecords.PutNames` | src/CsvMigration.php:156-161 | After `$temp[$value] = …` an existing key keeps its place and a new key goes last. |
| `CsvRecords.PutTwice` | src/CsvMigration.php:156-161 | Storing the raw field and then the null-normalised field under the same key equals storing only the normalised one. |
| `CsvRecords.PutKeepsDistinct` | src/CsvMigration.php:155-162 | A record never holds a key twice. |
| `CsvRecords.FirstOccurrencesSpec` | src/CsvMigration.php:155 | The first-occurrence list of the header names holds exactly the header names, each once. A header without repeats is kept unchanged. |
| `CsvRecords.LastIndexOf` | src/CsvMigration.php:155-161 | The position returned carries the name, and no later position does. This is the position whose value wins in the record. |
| `CsvRecords.RowRecordNames` | src/CsvMigration.php:155-162 | A row's record has as keys the header names, once each, in order of first position. The key list does not depend on the row, so every record of a file has the same keys. |
| `CsvRecords.RowRecordLookup` | src/CsvMigration.php:155-162 | The value under name `x` comes from the last header position named `x`. It is the field text when non-empty and null when empty or missing. A name not in the header is not a key. |
| `CsvRecords.RowRecordDistinctHeader` | src/CsvMigration.php:155-162 | With distinct header names, record position `j` is header name `j` paired with field `j`, the field normalised to null when empty. |
| `CsvRecords.LookupAt` | src/CsvMigration.php:156-161 | In a record with distinct keys, the key at position `j` reads back position `j`'s value. |
| `CsvRecords.BuildToInsert` | src/CsvMigration.php:148-168 | There is one record fewer than there are rows (none for an empty file). Record `k` is built from row `k + 1`, so the header row is never emitted and file order is kept. |
| `CsvRecords.SeedRecordsSpec` | src/CsvMigration.php:84-90 | With row 0 as the header: one record per later row, in file order. Each record's keys are the header names in first-occurrence order. |
| `CsvRecords.StoreField` | src/CsvMigration.php:156-161 | Storing a field as read and then again after an empty field is replaced by null extends the record by that header position, exactly as the null-normalised field alone would. |
| `CsvRecords.BuildToInsertArray` | src/CsvMigration.php:148-168 | The nested `for`/`foreach` loops compute exactly `BuildToInsert(csvRows, mapping)`. The offset is fixed at 1. |
| `ImportPolicy.CsvPath` | src/CsvMigration.php:185-193 | The path is the base path, then `/phinx/db/files/`, then the table name, then `.csv` (real) or `_fake.csv` (fake). |
| `ImportPolicy.VariantsDiffer` | src/CsvMigration.php:187-191 | The real and the fake file of a table are different paths. |
| `ImportPolicy.CsvPathInjective` | src/CsvMigration.php:185-193 | For one base path and one variant, two tables with the same file are the same table. |
| `ImportPolicy.RealFileOfFakeNamedTable` | src/CsvMigration.php:208-215 | The real file of table `t_fake` is the fake file of table `t`. |
| `ImportPolicy.SkipFakeData` | src/CsvMigration.php:241-251 | The flag is on exactly when the variable is present and equals `1`, `true` or `on`. An absent variable gives off. |
| `ImportPolicy.SkipFakeDataExamples` | src/CsvMigration.php:247 | `1`, `true` and `on` skip. `0`, the empty string, `yes`, `TRUE` and absence do not. |
| `ImportPolicy.TruncateSql` | src/CsvMigration.php:175 | The statement is `TRUNCATE "`, then the table name unchanged, then `" RESTART IDENTITY CASCADE;`. |
| `ImportPolicy.TableOfTruncate` | src/CsvMigration.php:175 | A table name read out of a statement is the statement minus the fixed prefix and suffix. |
| `ImportPolicy.TruncateRoundTrip` | src/CsvMigration.php:175 | Every table name, quotes included, is read back out of its truncate statement. Different tables get different statements. |
| `ImportPolicy.TruncateParseExact` | src/CsvMigration.php:175 | A statement that yields a table name is exactly that table's `TRUNCATE "<table>" RESTART IDENTITY CASCADE;`. |
| `Migration.Usability` | src/CsvMigration.php:112-121 | A file is usable iff it exists and is readable. A missing file is reported as not found, even when it is also unreadable. |
| `Migration.OpenCsv` | src/CsvMigration.php:98-107 | Opening succeeds iff the file is usable and the open call succeeds. It decompresses iff the reported content type is exactly `application/x-gzip`, whatever the file name. A failed open throws the open error with the path. |
| `Migration.LoadCsv` | src/CsvMigration.php:79-91 | Reading a file throws exactly when `getFile` does, with its exception. Otherwise there is one record per row after row 0, record `k` built from row `k + 1` with row 0 as the header. |
| `Migration.ImportVariant` | src/CsvMigration.php:253-286 | Handling one variant has at most one effect. When it returns, it returned false after exactly one effect. When it throws, nothing was done and the variant's file exists. |
| `Migration.VariantFileName` | src/CsvMigration.php:74 | After one variant the file name is that variant's path when its file exists, and unchanged otherwise. |
| `Migration.ImportFileName` | src/CsvMigration.php:226-239 | After the import the file name is the previous one, the real path or the fake path. |
| `Migration.ImportAll` | src/CsvMigration.php:226-239 | The import never returns true. |
| `Migration.ImportAllOrder` | src/CsvMigration.php:226-286 | The import succeeds iff each handled variant's file is absent or readable and openable. On success: first one effect for the real variant (insert its records if the file exists, otherwise the real hook, never both), then the same for the fake variant unless skipped. An unreadable real file stops everything, with no effect. An unreadable fake file leaves only the real effect. |
| `Migration.SkipFlagControlsFake` | src/CsvMigration.php:232-236 | With the flag on, nothing is done about the fake variant. With it off and both files readable or absent, the fake variant's effect comes second. |
| `Migration.CsvMigration.constructor` | src/CsvMigration.php:14-48 | The defaults: delimiter `,`, offset 0, `SKIP_FAKE`, base path four levels above the installation directory, no table name, nothing done yet. |
| `Migration.CsvMigration.SetFileBasePath` | src/CsvMigration.php:43-46 | Sets the base path and nothing else. |
| `Migration.CsvMigration.SetTableName` | src/CsvMigration.php:61-64 | Sets the table name and nothing else. |
| `Migration.CsvMigration.ConfigureMigration` | src/CsvMigration.php:66-70 | The configuration hook runs and changes nothing else. |
| `Migration.CsvMigration.InsertCsv` | src/CsvMigration.php:72-77 | Records the file name. Then either throws the read error with no insert, or inserts all the file's records into the table in one call. |
| `Migration.CsvMigration.SeedFromCsv` | src/CsvMigration.php:79-91 | Reads every row in a loop and returns exactly `LoadCsv` of the current file. |
| `Migration.CsvMigration.GetFile` | src/CsvMigration.php:98-107 | Returns exactly `OpenCsv` of the current file. |
| `Migration.CsvMigration.CheckFileIsUsable` | src/CsvMigration.php:112-121 | Returns exactly `Usability` of the current file: existence is checked first, then readability. |
| `Migration.CsvMigration.IsGzipped` | src/CsvMigration.php:129-138 | True iff the reported content type is exactly `application/x-gzip`. A failed lookup gives false. |
| `Migration.CsvMigration.TruncateCascade` | src/CsvMigration.php:173-177 | Executes exactly one statement, the cascading truncate of the given table. |
| `Migration.CsvMigration.InsertCsvFromFile` | src/CsvMigration.php:182-197 | Builds the variant's path. A missing file is a no-op, not an error. An existing file is read and inserted, or its read error is thrown. The file name becomes the path exactly when the file exists, even if reading then throws. |
| `Migration.CsvMigration.CheckCsvFile` | src/CsvMigration.php:204-220 | True iff `{base}/phinx/db/files/{table}.csv` (real) or `…_fake.csv` (fake) exists. This is the path `InsertCsvFromFile` reads. |
| `Migration.CsvMigration.DoManualImportReal` | src/CsvMigration.php:265-268 | The real hook runs and changes nothing else. |
| `Migration.CsvMigration.DoManualImportFake` | src/CsvMigration.php:270-273 | The fake hook runs and changes nothing else. |
| `Migration.CsvMigration.PerformImportRealData` | src/CsvMigration.php:253-263 | Inserts the real file when it exists, otherwise runs the real hook. Returns false unless reading throws. The file name follows `VariantFileName`. |
| `Migration.CsvMigration.PerformImportFakeData` | src/CsvMigration.php:275-286 | Inserts the fake file when it exists, otherwise runs the fake hook. Returns false unless reading throws. The file name follows `VariantFileName`. |
| `Migration.CsvMigration.GetSkipFakeDataFlag` | src/CsvMigration.php:241-251 | Returns `SkipFakeData` of the environment variable named by `SKIP_VAR_NAME`. |
| `Migration.CsvMigration.CheckAndImportCsvData` | src/CsvMigration.php:226-239 | Returns and does exactly what `ImportAll` gives for the configured base path, the table and the skip flag. `importRealAndFake` plays no part. The file name follows `ImportFileName`. |
| `Migration.CsvMigration.Up` | src/CsvMigration.php:288-293 | Runs the configuration hook, then the import of the configured table. Succeeds iff the import does not throw. The file name follows `ImportFileName`. |
| `Migration.CsvMigration.Down` | src/CsvMigration.php:295-298 | Executes exactly the cascading truncate of the configured table, whatever was imported. |
| `Scenarios.UsersPaths` | src/CsvMigration.php:185-193 | Under base path `/app`, table `users` has the files `/app/phinx/db/files/users.csv` and `/app/phinx/db/files/users_fake.csv`. |
| `Scenarios.UserRecords` | src/CsvMigration.php:148-168 | Three header columns and two data rows give two records. An empty e-mail field becomes null. |
| `Scenarios.UsersRealVariant` | src/CsvMigration.php:253-263 | With `users.csv` present, the real variant inserts its two records. |
| `Scenarios.OnlyRealFile` | src/CsvMigration.php:226-239 | Only `users.csv` exists and fake data is not skipped. Its two records are inserted, then the fake hook runs. |
| `Scenarios.OnlyFakeFile` | src/CsvMigration.php:226-239 | Only `users_fake.csv` exists and fake data is not skipped. The real hook runs, then the fake file's two records are inserted. |
| `Scenarios.NoFiles` | src/CsvMigration.php:253-286 | Neither file exists and `SKIP_FAKE` is unset. Both hooks run, real first, and nothing is inserted. |
| `Scenarios.BothFiles` | src/CsvMigration.php:226-239 | Both files exist. The real records are inserted, then the fake ones unless fake data is skipped. |
| `Scenarios.UnreadableRealFile` | src/CsvMigration.php:118-120 | An existing but unreadable real file throws not-readable before anything is done. |
| `Scenarios.ShortRow` | src/CsvMigration.php:156-161 | A row one field short gives null for the last column. |
| `Scenarios.RepeatedHeaderName` | src/CsvMigration.php:155-161 | A repeated header name keeps its first place and takes the value of its last column. |
| `Scenarios.UsersTruncate` | src/CsvMigration.php:175 | Rolling back `users` executes `TRUNCATE "users" RESTART IDENTITY CASCADE;`. |
| `Scenarios.UsersWithFakeSkipped` | src/CsvMigration.php:232-236 | With `SKIP_FAKE=on`, the table only gets its real records. |

## Left out

- `ImportPolicy.SkipFakeData`: states an exact string match. PHP's loose `==` also treats numeric strings equal to 1 (`01`, `1.0`, `1e0`, ` 1`) as `'1'`. The model does not capture those values, because PHP's numeric-string grammar is not modelled.
- Opening, reading and closing files is left out: `fopen`, `gzopen`, `fclose`, `fgetcsv` tokenising, the delimiter's effect, and `auto_detect_line_endings`. A file's rows are the input `World.contents`, already decompressed and split. The `csvDelimiter` field is kept but not read.
- A blank line, which `fgetcsv` returns as a row holding one null field: rows are sequences of strings, so it is modelled as one empty field. Both give null in the record.
- MIME detection by `finfo_file` is the input `World.mimeTypes`. `file_exists`, `is_readable` and a failing open call are the inputs `World.existing`, `World.readable` and `World.unopenable`. The world does not change during a run.
- `getenv` is the input `World.env`. An absent name stands for PHP's `false`.
- Phinx calls (`table(...)->insert(...)->save()`, `execute`) and the migration framework calling `up`/`down` are only recorded as `Effect`s. Database errors from them are not modelled.
- PHP turns a header name like `"1"` into the integer key `1`. This does not change which names are equal, so keys are kept as strings. A header cell read as null would become key `""`; that is not modelled, since header cells are strings.
- The PHP warnings on a short row and on `$data[0]` of an empty file are not modelled. An empty file gives no records.
- The getters `getFileBasePath` and `getTableName` are plain reading functions with no contract.
