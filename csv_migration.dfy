/**
 * CsvMigration: a migration base class that seeds one table from CSV files.
 *
 * `up` runs the configuration hook and then imports the table's data: the
 * real file `{table}.csv` is always handled first, the fake file
 * `{table}_fake.csv` only when the SKIP_FAKE environment value does not
 * switch it off. A handled variant is read and inserted when its file
 * exists, and otherwise handed to a manual-import hook. `down` truncates
 * the table.
 *
 * The file system and the environment are the inputs of a `World`; what the
 * migration does to the database and which hooks run is recorded in order
 * on the object as a sequence of `Effect`s. Exceptions are returned as
 * `Failure`/`Fail` values and propagate the way PHP exceptions do.
 */
module Migration {
  import opened Wrappers
  import opened CsvRecords
  import opened ImportPolicy

  /** The file system and the environment the migration runs against. */
  datatype World = World(
    existing: set<string>,                      // paths for which file_exists holds
    readable: set<string>,                      // paths for which is_readable holds
    mimeTypes: map<string, string>,             // what finfo_file reports; a missing path means it failed
    unopenable: set<string>,                    // paths for which fopen or gzopen returns false
    contents: map<string, seq<seq<string>>>,    // the rows fgetcsv yields, after any decompression
    env: map<string, string>)                   // the process environment read by getenv

  /** The exceptions thrown while getting hold of a CSV file. */
  datatype FileError =
    | FileNotFound(path: string)
    | FileNotReadable(path: string)
    | OpenFailed(path: string)

  /** What the migration does that can be observed from outside. */
  datatype Effect =
    | Configured                                // the configureMigration hook ran
    | Inserted(table: string, records: seq<Record>)   // table($t)->insert($records)->save()
    | ManualReal(table: string)                 // the doManualImportReal hook ran
    | ManualFake(table: string)                 // the doManualImportFake hook ran
    | Executed(sql: string)                     // execute($sql)

  /** An opened CSV file, read through gzopen when `compressed`, through fopen otherwise. */
  datatype Handle = Handle(path: string, compressed: bool)

  /** The effects of a run, in order, and what it returned or threw. */
  datatype Run = Run(effects: seq<Effect>, result: Result<bool, FileError>)

  const GzipMime := "application/x-gzip"

  /** The rows of a file; a file the world says nothing about is empty. */
  function Rows(w: World, path: string): seq<seq<string>>
  {
    if path in w.contents then w.contents[path] else []
  }

  /** getenv: None where PHP's getenv returns false. */
  function EnvValue(w: World, name: string): Option<string>
  {
    if name in w.env then Some(w.env[name]) else None
  }

  /** checkFileIsUsable: a missing file is reported as missing even when it would also be unreadable. */
  function Usability(w: World, path: string): (o: Outcome<FileError>)
    ensures o == Pass <==> path in w.existing && path in w.readable
    ensures path !in w.existing ==> o == Fail(FileNotFound(path))
    ensures path in w.existing && path !in w.readable ==> o == Fail(FileNotReadable(path))
  {
    if path !in w.existing then Fail(FileNotFound(path))
    else if path !in w.readable then Fail(FileNotReadable(path))
    else Pass
  }

  /** getFile: check the file is usable, then open it, decompressing exactly when its
      content type (not its name) is the gzip type. */
  function OpenCsv(w: World, path: string): (r: Result<Handle, FileError>)
    ensures r.Success? <==> Usability(w, path) == Pass && path !in w.unopenable
    ensures r.Success? ==> r.value.path == path
    ensures r.Success? ==> (r.value.compressed <==> path in w.mimeTypes && w.mimeTypes[path] == GzipMime)
    ensures Usability(w, path) == Pass && path in w.unopenable ==> r == Failure(OpenFailed(path))
  {
    match Usability(w, path)
    case Fail(e) => Failure(e)
    case Pass =>
      var gz := path in w.mimeTypes && w.mimeTypes[path] == GzipMime;
      if path in w.unopenable then Failure(OpenFailed(path)) else Success(Handle(path, gz))
  }

  /** seedFromCSV: the records of the file, or the exception getFile throws. It throws
      exactly when getFile does, and the records are those `SeedRecordsSpec` describes. */
  function LoadCsv(w: World, path: string): (r: Result<seq<Record>, FileError>)
    ensures r.Success? <==> OpenCsv(w, path).Success?
    ensures r.Failure? ==> r.error == OpenCsv(w, path).error
    ensures r.Success? ==> |r.value| == if Rows(w, path) == [] then 0 else |Rows(w, path)| - 1
    ensures r.Success? ==> forall k :: 0 <= k < |r.value| ==> r.value[k] == RowRecord(Rows(w, path)[0], Rows(w, path)[k + 1])
  {
    match OpenCsv(w, path)
    case Failure(e) => Failure(e)
    case Success(h) => Success(SeedRecords(Rows(w, h.path)))
  }

  /** performImportRealData / performImportFakeData for one variant: at most one effect;
      a run that returns has returned false after exactly one effect, and a run that throws
      has done nothing and was about a file that exists. */
  function ImportVariant(w: World, base: string, table: string, isReal: bool): (run: Run)
    ensures |run.effects| <= 1
    ensures run.result.Success? ==> run.result.value == false && |run.effects| == 1
    ensures run.result.Failure? ==> run.effects == [] && CsvPath(base, table, isReal) in w.existing
  {
    var path := CsvPath(base, table, isReal);
    if path !in w.existing then
      Run([if isReal then ManualReal(table) else ManualFake(table)], Success(false))
    else
      match LoadCsv(w, path)
      case Failure(e) => Run([], Failure(e))
      case Success(records) => Run([Inserted(table, records)], Success(false))
  }

  /** The file name the object holds after one variant: insertCsv records the variant's
      path whenever its file exists, before reading it; a missing file leaves it as it was. */
  function VariantFileName(w: World, base: string, table: string, isReal: bool, prev: string): (name: string)
    ensures name == prev || name == CsvPath(base, table, isReal)
    ensures CsvPath(base, table, isReal) in w.existing ==> name == CsvPath(base, table, isReal)
    ensures CsvPath(base, table, isReal) !in w.existing ==> name == prev
  {
    var path := CsvPath(base, table, isReal);
    if path in w.existing then path else prev
  }

  /** The file name the object holds after checkAndImportCSVData: the last existing file it
      visited, the fake one only when the real variant did not throw and fake data is not skipped. */
  function ImportFileName(w: World, base: string, table: string, skip: bool, prev: string): (name: string)
    ensures name in {prev, CsvPath(base, table, true), CsvPath(base, table, false)}
  {
    var afterReal := VariantFileName(w, base, table, true, prev);
    if ImportVariant(w, base, table, true).result.Failure? || skip then afterReal
    else VariantFileName(w, base, table, false, afterReal)
  }

  /** checkAndImportCSVData: the real variant, then the fake one unless skipped. */
  function ImportAll(w: World, base: string, table: string, skip: bool): (run: Run)
    ensures run.result.Success? ==> run.result.value == false
  {
    var realRun := ImportVariant(w, base, table, true);
    if realRun.result.Failure? || skip then realRun
    else
      var fakeRun := ImportVariant(w, base, table, false);
      Run(realRun.effects + fakeRun.effects, fakeRun.result)
  }

  /** What handling one variant does when it does not throw: insert the file's records
      when the file exists, run the variant's hook when it does not, never both. */
  function Handled(w: World, base: string, table: string, isReal: bool): Effect
  {
    var path := CsvPath(base, table, isReal);
    if path in w.existing then Inserted(table, SeedRecords(Rows(w, path)))
    else if isReal then ManualReal(table) else ManualFake(table)
  }

  /** A variant's file can be read when it is missing (the hook handles it) or usable and openable. */
  predicate Loadable(w: World, base: string, table: string, isReal: bool)
  {
    var path := CsvPath(base, table, isReal);
    path !in w.existing || (path in w.readable && path !in w.unopenable)
  }

  /** The resolution order: the real variant first, exactly one effect for it; then,
      when fake data is not skipped, exactly one for the fake variant; the import
      never returns true. A file that exists but cannot be read stops the import
      there, with no effect for that variant and none after it. */
  lemma ImportAllOrder(w: World, base: string, table: string, skip: bool)
    ensures var run := ImportAll(w, base, table, skip);
      && (Loadable(w, base, table, true) && (skip || Loadable(w, base, table, false)) <==> run.result == Success(false))
      && (run.result.Success? ==>
            run.effects == [Handled(w, base, table, true)] + (if skip then [] else [Handled(w, base, table, false)]))
      && (!Loadable(w, base, table, true) ==> run.effects == [])
      && (Loadable(w, base, table, true) && !skip && !Loadable(w, base, table, false) ==>
            run.effects == [Handled(w, base, table, true)])
  {
  }

  /** With the skip flag on, nothing is done about the fake variant: at most the real
      variant's one effect, and never the fake hook; with it off, and both files readable
      or absent, the fake variant is handled second. */
  lemma SkipFlagControlsFake(w: World, base: string, table: string, envValue: Option<string>)
    ensures var run := ImportAll(w, base, table, SkipFakeData(envValue));
      SkipFakeData(envValue) ==> |run.effects| <= 1 && ManualFake(table) !in run.effects
    ensures var run := ImportAll(w, base, table, SkipFakeData(envValue));
      Loadable(w, base, table, true) && Loadable(w, base, table, false) ==>
        (|run.effects| == 2 && run.effects[1] == Handled(w, base, table, false) <==> !SkipFakeData(envValue))
  {
    ImportAllOrder(w, base, table, SkipFakeData(envValue));
  }

  class CsvMigration {
    var csvDelimiter: char          // handed to fgetcsv, whose tokenising is not modelled
    var offSetRows: int             // declared but never read
    var fileName: string
    var skipVarName: string
    var fileBasePath: string
    var tableName: string
    var effects: seq<Effect>
    const world: World

    /** The defaults of the class; an unset file name or table name is PHP's null,
        which concatenates and formats as the empty string. */
    constructor (installDir: string, world: World)
      ensures this.world == world
      ensures csvDelimiter == ',' && offSetRows == 0 && fileName == "" && skipVarName == "SKIP_FAKE"
      ensures fileBasePath == installDir + "/../../../.." && tableName == "" && effects == []
    {
      this.world := world;
      csvDelimiter := ',';
      offSetRows := 0;
      fileName := "";
      skipVarName := "SKIP_FAKE";
      fileBasePath := installDir + "/../../../..";
      tableName := "";
      effects := [];
    }

    function GetFileBasePath(): string
      reads this
    {
      fileBasePath
    }

    method SetFileBasePath(path: string)
      modifies this`fileBasePath
      ensures fileBasePath == path
    {
      fileBasePath := path;
    }

    function GetTableName(): string
      reads this
    {
      tableName
    }

    method SetTableName(name: string)
      modifies this`tableName
      ensures tableName == name
    {
      tableName := name;
    }

    /** The extension point run first by `up`; it does nothing by default. */
    method ConfigureMigration()
      modifies this`effects
      ensures effects == old(effects) + [Configured]
    {
      effects := effects + [Configured];
    }

    /** insertCsv: read the file and insert all its records into the table in one call. */
    method InsertCsv(table: string, filename: string) returns (o: Outcome<FileError>)
      modifies this`fileName, this`effects
      ensures fileName == filename
      ensures LoadCsv(world, filename).Failure? ==>
        o == Fail(LoadCsv(world, filename).error) && effects == old(effects)
      ensures LoadCsv(world, filename).Success? ==>
        o == Pass && effects == old(effects) + [Inserted(table, LoadCsv(world, filename).value)]
    {
      fileName := filename;
      var toInsert := SeedFromCsv();
      match toInsert {
        case Failure(e) =>
          o := Fail(e);
        case Success(records) =>
          effects := effects + [Inserted(table, records)];
          o := Pass;
      }
    }

    /** seedFromCSV: read every row of the file, take row 0 as the header and build the records. */
    method SeedFromCsv() returns (r: Result<seq<Record>, FileError>)
      ensures r == LoadCsv(world, fileName)
    {
      var handleOrError := GetFile();
      if handleOrError.Failure? {
        return Failure(handleOrError.error);
      }
      var handle := handleOrError.value;
      var rows := Rows(world, handle.path);
      var data: seq<seq<string>> := [];
      var n := 0;
      while n < |rows|
        invariant 0 <= n <= |rows|
        invariant data == rows[..n]
      {
        data := data + [rows[n]];
        n := n + 1;
      }
      assert rows[..|rows|] == rows;
      // `$data[0]` of an empty file is undefined; no record is built from it then
      var mapping := if data == [] then [] else data[0];
      var records := BuildToInsertArray(data, mapping);
      r := Success(records);
    }

    /** getFile: the usability checks, then gzopen or fopen by content type. */
    method GetFile() returns (r: Result<Handle, FileError>)
      ensures r == OpenCsv(world, fileName)
    {
      var usable := CheckFileIsUsable();
      if usable.Fail? {
        return Failure(usable.error);
      }
      var gz := IsGzipped();
      if fileName in world.unopenable {
        r := Failure(OpenFailed(fileName));
      } else {
        r := Success(Handle(fileName, gz));
      }
    }

    /** checkFileIsUsable: existence is checked before readability. */
    method CheckFileIsUsable() returns (o: Outcome<FileError>)
      ensures o == Usability(world, fileName)
    {
      if fileName !in world.existing {
        return Fail(FileNotFound(fileName));
      }
      if fileName !in world.readable {
        return Fail(FileNotReadable(fileName));
      }
      o := Pass;
    }

    /** isGzipped: the content type reported for the file is exactly the gzip type. */
    method IsGzipped() returns (gzipped: bool)
      ensures gzipped <==> fileName in world.mimeTypes && world.mimeTypes[fileName] == GzipMime
    {
      // a failed finfo_file gives false, which never compares equal to the gzip type
      var mimeType := if fileName in world.mimeTypes then world.mimeTypes[fileName] else "";
      gzipped := mimeType == GzipMime;
    }

    /** truncateCascade: empty the table, reset its identity counters and cascade to dependants. */
    method TruncateCascade(table: string)
      modifies this`effects
      ensures effects == old(effects) + [Executed(TruncateSql(table))]
    {
      var truncateSql := TruncateSql(table);
      effects := effects + [Executed(truncateSql)];
    }

    /** insertCsvFromFile: insert the variant's file when it exists, do nothing when it does not. */
    method InsertCsvFromFile(table: string, isRealData: bool) returns (o: Outcome<FileError>)
      modifies this`fileName, this`effects
      ensures var path := CsvPath(fileBasePath, table, isRealData);
        && (path !in world.existing ==> o == Pass && effects == old(effects))
        && (path in world.existing && LoadCsv(world, path).Failure? ==>
              o == Fail(LoadCsv(world, path).error) && effects == old(effects))
        && (path in world.existing && LoadCsv(world, path).Success? ==>
              o == Pass && effects == old(effects) + [Inserted(table, LoadCsv(world, path).value)])
    ensures fileName == VariantFileName(world, fileBasePath, table, isRealData, old(fileName))
    {
      var fileDir := fileBasePath + FilesDir;
      var name := if isRealData then table + RealSuffix else table + FakeSuffix;
      var fileNameFull := fileDir + name;
      assert fileNameFull == CsvPath(fileBasePath, table, isRealData);
      o := Pass;
      if fileNameFull in world.existing {
        o := InsertCsv(table, fileNameFull);
      }
    }

    /** checkCsvFile: whether the variant's file exists, at the same path insertCsvFromFile reads. */
    method CheckCsvFile(table: string, checkRealData: bool) returns (fileExists: bool)
      ensures fileExists <==> CsvPath(fileBasePath, table, checkRealData) in world.existing
    {
      var fileDir := fileBasePath + FilesDir;
      var name := if checkRealData then table + RealSuffix else table + FakeSuffix;
      var fileNameFull := fileDir + name;
      assert fileNameFull == CsvPath(fileBasePath, table, checkRealData);
      fileExists := fileNameFull in world.existing;
    }

    /** doManualImportReal: the extension point for a table without a real CSV file. */
    method DoManualImportReal(table: string)
      modifies this`effects
      ensures effects == old(effects) + [ManualReal(table)]
    {
      effects := effects + [ManualReal(table)];
    }

    /** doManualImportFake: the extension point for a table without a fake CSV file. */
    method DoManualImportFake(table: string)
      modifies this`effects
      ensures effects == old(effects) + [ManualFake(table)]
    {
      effects := effects + [ManualFake(table)];
    }

    /** performImportRealData: the real file when it exists, the real hook otherwise; returns false. */
    method PerformImportRealData(table: string) returns (r: Result<bool, FileError>)
      modifies this`fileName, this`effects
      ensures r == ImportVariant(world, fileBasePath, table, true).result
      ensures effects == old(effects) + ImportVariant(world, fileBasePath, table, true).effects
      ensures fileName == VariantFileName(world, fileBasePath, table, true, old(fileName))
    {
      var isRealCsvData := CheckCsvFile(table, true);
      if isRealCsvData {
        var o := InsertCsvFromFile(table, true);
        if o.Fail? {
          return Failure(o.error);
        }
      } else {
        DoManualImportReal(table);
      }
      r := Success(false);
    }

    /** performImportFakeData: the fake file when it exists, the fake hook otherwise; returns false. */
    method PerformImportFakeData(table: string) returns (r: Result<bool, FileError>)
      modifies this`fileName, this`effects
      ensures r == ImportVariant(world, fileBasePath, table, false).result
      ensures effects == old(effects) + ImportVariant(world, fileBasePath, table, false).effects
      ensures fileName == VariantFileName(world, fileBasePath, table, false, old(fileName))
    {
      var isFakeCsvData := CheckCsvFile(table, false);
      if isFakeCsvData {
        var o := InsertCsvFromFile(table, false);
        if o.Fail? {
          return Failure(o.error);
        }
      } else {
        DoManualImportFake(table);
      }
      r := Success(false);
    }

    /** getSkipFakeDataFlag: read the variable named by skipVarName. */
    method GetSkipFakeDataFlag() returns (skipFlag: bool)
      ensures skipFlag == SkipFakeData(EnvValue(world, skipVarName))
    {
      skipFlag := false;
      if skipVarName in world.env {
        var value := world.env[skipVarName];
        skipFlag := value == "1" || value == "true" || value == "on";
      }
    }

    /** checkAndImportCSVData: real data first, then fake data unless the environment skips it.
        The importRealAndFake argument is accepted and ignored. */
    method CheckAndImportCsvData(table: string, importRealAndFake: bool) returns (r: Result<bool, FileError>)
      modifies this`fileName, this`effects
      ensures var run := ImportAll(world, fileBasePath, table, SkipFakeData(EnvValue(world, skipVarName)));
        r == run.result && effects == old(effects) + run.effects
      ensures fileName == ImportFileName(world, fileBasePath, table, SkipFakeData(EnvValue(world, skipVarName)), old(fileName))
    {
      var dataImported := false;
      var realResult := PerformImportRealData(table);
      if realResult.Failure? {
        return realResult;
      }
      dataImported := realResult.value;
      var skipFakeData := GetSkipFakeDataFlag();
      if !skipFakeData {
        var fakeResult := PerformImportFakeData(table);
        if fakeResult.Failure? {
          return fakeResult;
        }
        dataImported := fakeResult.value || dataImported;
      }
      r := Success(dataImported);
    }

    /** up: the configuration hook, then the import for the configured table. */
    method Up() returns (o: Outcome<FileError>)
      modifies this`fileName, this`effects
      ensures var run := ImportAll(world, fileBasePath, tableName, SkipFakeData(EnvValue(world, skipVarName)));
        && effects == old(effects) + [Configured] + run.effects
        && (o == Pass <==> run.result.Success?)
      ensures fileName == ImportFileName(world, fileBasePath, tableName, SkipFakeData(EnvValue(world, skipVarName)), old(fileName))
    {
      ConfigureMigration();
      var isImportedData := CheckAndImportCsvData(GetTableName(), false);
      o := if isImportedData.Failure? then Fail(isImportedData.error) else Pass;
    }

    /** down: truncate the configured table, whatever was imported. */
    method Down()
      modifies this`effects
      ensures effects == old(effects) + [Executed(TruncateSql(tableName))]
    {
      TruncateCascade(GetTableName());
    }
  }
}
