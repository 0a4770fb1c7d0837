/**
 * The pure pieces of CsvMigration: where the CSV files of a table are looked
 * for, how the SKIP_FAKE environment value is read, and the SQL text of the
 * cascading truncate issued on rollback.
 */
module ImportPolicy {
  import opened Wrappers

  /** The directory, below the base path, that holds the CSV files. */
  const FilesDir := "/phinx/db/files/"
  const RealSuffix := ".csv"
  const FakeSuffix := "_fake.csv"

  /** `{base}/phinx/db/files/{table}.csv` for real data, `{table}_fake.csv` for fake data. */
  function CsvPath(base: string, table: string, isReal: bool): (path: string)
    ensures |path| == |base| + |FilesDir| + |table| + if isReal then 4 else 9
    ensures path[..|base|] == base
    ensures path[|base|..|base| + |FilesDir|] == FilesDir
    ensures path[|base| + |FilesDir|..|base| + |FilesDir| + |table|] == table
    ensures path[|base| + |FilesDir| + |table|..] == if isReal then ".csv" else "_fake.csv"
  {
    var path := base + FilesDir + table + (if isReal then RealSuffix else FakeSuffix);
    assert path == base + (FilesDir + (table + (if isReal then RealSuffix else FakeSuffix)));
    path
  }

  /** The real and the fake file of one table are different files. */
  lemma VariantsDiffer(base: string, table: string)
    ensures CsvPath(base, table, true) != CsvPath(base, table, false)
  {
  }

  /** Within one base path and one variant, different tables have different files. */
  lemma CsvPathInjective(base: string, t1: string, t2: string, isReal: bool)
    requires CsvPath(base, t1, isReal) == CsvPath(base, t2, isReal)
    ensures t1 == t2
  {
  }

  /** The real file of table `{t}_fake` is the fake file of table `t`. */
  lemma RealFileOfFakeNamedTable(base: string, table: string)
    ensures CsvPath(base, table + "_fake", true) == CsvPath(base, table, false)
  {
  }

  /** The environment values that switch fake data off. */
  const SkipValues: set<string> := {"1", "true", "on"}

  /** getSkipFakeDataFlag: an absent variable (getenv gives false) leaves fake data on. */
  function SkipFakeData(envValue: Option<string>): (skip: bool)
    ensures skip <==> envValue.Some? && envValue.value in SkipValues
  {
    match envValue
    case None => false
    case Some(v) => v == "1" || v == "true" || v == "on"
  }

  /** Boundary values: "1", "true", "on" skip; "0", "", "yes", "TRUE" and absence do not. */
  lemma SkipFakeDataExamples()
    ensures SkipFakeData(Some("1")) && SkipFakeData(Some("true")) && SkipFakeData(Some("on"))
    ensures !SkipFakeData(Some("0")) && !SkipFakeData(Some("")) && !SkipFakeData(Some("yes"))
    ensures !SkipFakeData(Some("TRUE")) && !SkipFakeData(None)
  {
  }

  const TruncatePrefix := "TRUNCATE \""
  const TruncateSuffix := "\" RESTART IDENTITY CASCADE;"

  /** `sprintf('TRUNCATE "%s" RESTART IDENTITY CASCADE;', $tableName)`. */
  function TruncateSql(table: string): (sql: string)
    ensures |sql| == |TruncatePrefix| + |table| + |TruncateSuffix|
    ensures sql[..|TruncatePrefix|] == TruncatePrefix
    ensures sql[|TruncatePrefix|..|TruncatePrefix| + |table|] == table
    ensures sql[|TruncatePrefix| + |table|..] == TruncateSuffix
  {
    TruncatePrefix + table + TruncateSuffix
  }

  /** Reads the table name back out of a truncate statement. */
  function TableOfTruncate(sql: string): (table: Option<string>)
    ensures table.Some? ==> |table.value| + |TruncatePrefix| + |TruncateSuffix| == |sql|
  {
    if |sql| >= |TruncatePrefix| + |TruncateSuffix|
      && sql[..|TruncatePrefix|] == TruncatePrefix
      && sql[|sql| - |TruncateSuffix|..] == TruncateSuffix
    then Some(sql[|TruncatePrefix|..|sql| - |TruncateSuffix|])
    else None
  }

  /** Every table name, quotes included, comes back out of its truncate statement,
      so different tables never get the same statement. */
  lemma TruncateRoundTrip(table: string)
    ensures TableOfTruncate(TruncateSql(table)) == Some(table)
  {
  }

  /** The only statements a table name can be read out of are truncate statements of that table. */
  lemma TruncateParseExact(sql: string, table: string)
    requires TableOfTruncate(sql) == Some(table)
    ensures sql == TruncateSql(table)
  {
  }
}
