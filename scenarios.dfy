/**
 * Worked cases of the migration: the import of a table with no file, only one
 * of its two files, both, or an unreadable one; the rollback, short rows and
 * repeated header names.
 */
module Scenarios {
  import opened Wrappers
  import opened CsvRecords
  import opened ImportPolicy
  import opened Migration

  const UsersReal := "/app/phinx/db/files/users.csv"
  const UsersFake := "/app/phinx/db/files/users_fake.csv"

  const Header := ["id", "name", "email"]
  const UserRows := [Header, ["1", "Ann", ""], ["2", "Bob", "bob@example.org"]]
  const AnnRecord := [Entry("id", Text("1")), Entry("name", Text("Ann")), Entry("email", Null)]
  const BobRecord := [Entry("id", Text("2")), Entry("name", Text("Bob")), Entry("email", Text("bob@example.org"))]

  /** The two files of table `users` under base path `/app`. */
  lemma UsersPaths()
    ensures CsvPath("/app", "users", true) == UsersReal
    ensures CsvPath("/app", "users", false) == UsersFake
  {
    var dir := "/app" + FilesDir + "users";
    assert dir == "/app/phinx/db/files/users";
    assert dir + RealSuffix == UsersReal;
    assert dir + FakeSuffix == UsersFake;
  }

  const UsersOnlyReal := World({UsersReal}, {UsersReal}, map[], {}, map[UsersReal := UserRows], map[])

  /** Three header columns and two data rows give two records; Ann's empty e-mail is null. */
  lemma UserRecords()
    ensures SeedRecords(UserRows) == [AnnRecord, BobRecord]
  {
    RowRecordDistinctHeader(Header, UserRows[1]);
    RowRecordDistinctHeader(Header, UserRows[2]);
    assert |RowRecord(Header, UserRows[1])| == |Names(RowRecord(Header, UserRows[1]))| == 3;
    assert |RowRecord(Header, UserRows[2])| == |Names(RowRecord(Header, UserRows[2]))| == 3;
    assert RowRecord(Header, UserRows[1]) == AnnRecord;
    assert RowRecord(Header, UserRows[2]) == BobRecord;
  }

  /** The real variant of `users` inserts the two records of users.csv. */
  lemma UsersRealVariant(w: World)
    requires w.existing == w.readable == {UsersReal} && w.unopenable == {} && w.contents == map[UsersReal := UserRows]
    ensures ImportVariant(w, "/app", "users", true) == Run([Inserted("users", [AnnRecord, BobRecord])], Success(false))
  {
    UsersPaths();
    UserRecords();
  }

  /** Only the real file exists: two records go into the table from it, and, as fake
      data is not skipped, the fake hook runs for the missing fake file. */
  lemma OnlyRealFile()
    ensures ImportAll(UsersOnlyReal, "/app", "users", false)
      == Run([Inserted("users", [AnnRecord, BobRecord]), ManualFake("users")], Success(false))
  {
    UsersRealVariant(UsersOnlyReal);
    UsersPaths();
    assert UsersFake != UsersReal;
  }

  const UsersOnlyFake := World({UsersFake}, {UsersFake}, map[], {}, map[UsersFake := UserRows], map[])

  /** Only the fake file exists and fake data is not skipped: the real hook runs for the
      missing real file, then the two records of the fake file are inserted. */
  lemma OnlyFakeFile()
    ensures ImportAll(UsersOnlyFake, "/app", "users", false)
      == Run([ManualReal("users"), Inserted("users", [AnnRecord, BobRecord])], Success(false))
  {
    UsersPaths();
    UserRecords();
    assert UsersFake != UsersReal;
  }

  /** Neither file exists: both hooks run, real first, and nothing is inserted. */
  lemma NoFiles(base: string, table: string, env: map<string, string>)
    requires "SKIP_FAKE" !in env
    ensures ImportAll(World({}, {}, map[], {}, map[], env), base, table, SkipFakeData(EnvValue(World({}, {}, map[], {}, map[], env), "SKIP_FAKE")))
      == Run([ManualReal(table), ManualFake(table)], Success(false))
  {
  }

  /** Both files exist and are usable: real records are inserted, then fake records, unless
      SKIP_FAKE is on, in which case only the real ones. */
  lemma BothFiles(w: World, base: string, table: string, skip: bool)
    requires CsvPath(base, table, true) in w.existing && CsvPath(base, table, true) in w.readable
    requires CsvPath(base, table, false) in w.existing && CsvPath(base, table, false) in w.readable
    requires CsvPath(base, table, true) !in w.unopenable && CsvPath(base, table, false) !in w.unopenable
    ensures ImportAll(w, base, table, skip).result == Success(false)
    ensures ImportAll(w, base, table, skip).effects ==
      [Inserted(table, SeedRecords(Rows(w, CsvPath(base, table, true))))]
      + if skip then [] else [Inserted(table, SeedRecords(Rows(w, CsvPath(base, table, false))))]
  {
    ImportAllOrder(w, base, table, skip);
  }

  /** An unreadable real file stops the import before anything is done, fake file or not. */
  lemma UnreadableRealFile(w: World, base: string, table: string, skip: bool)
    requires CsvPath(base, table, true) in w.existing && CsvPath(base, table, true) !in w.readable
    ensures ImportAll(w, base, table, skip) == Run([], Failure(FileNotReadable(CsvPath(base, table, true))))
  {
  }

  /** A row one field short of the header gives null for the last column. */
  lemma ShortRow()
    ensures RowRecord(["a", "b", "c"], ["x", "y"]) == [Entry("a", Text("x")), Entry("b", Text("y")), Entry("c", Null)]
  {
    var mapping, row := ["a", "b", "c"], ["x", "y"];
    RowRecordDistinctHeader(mapping, row);
    assert |RowRecord(mapping, row)| == |Names(RowRecord(mapping, row))| == 3;
  }

  /** A repeated header name keeps its first place and takes the value of its last column. */
  lemma RepeatedHeaderName()
    ensures RowRecord(["id", "name", "id"], ["1", "Ann", "7"]) == [Entry("id", Text("7")), Entry("name", Text("Ann"))]
  {
    var row := ["1", "Ann", "7"];
    assert ["id", "name", "id"][..2] == ["id", "name"] && ["id", "name"][..1] == ["id"] && ["id"][..0] == [];
    assert Cell(row, 0) == Text("1") && Cell(row, 1) == Text("Ann") && Cell(row, 2) == Text("7");
    assert RowRecord(["id"], row) == Put([], "id", Text("1")) == [Entry("id", Text("1"))];
    assert RowRecord(["id", "name"], row) == Put([Entry("id", Text("1"))], "name", Text("Ann"));
    assert Put([Entry("id", Text("1"))], "name", Text("Ann")) == [Entry("id", Text("1")), Entry("name", Text("Ann"))];
  }

  /** With SKIP_FAKE set to "on", the same table only gets its real records. */
  lemma UsersWithFakeSkipped(w: World)
    requires w.existing == w.readable == {UsersReal} && w.unopenable == {} && w.contents == map[UsersReal := UserRows]
    requires w.env == map["SKIP_FAKE" := "on"]
    ensures ImportAll(w, "/app", "users", SkipFakeData(EnvValue(w, "SKIP_FAKE")))
      == Run([Inserted("users", [AnnRecord, BobRecord])], Success(false))
  {
    UsersRealVariant(w);
    assert EnvValue(w, "SKIP_FAKE") == Some("on");
  }

  /** The rollback statement of `users`. */
  lemma UsersTruncate()
    ensures TruncateSql("users") == "TRUNCATE \"users\" RESTART IDENTITY CASCADE;"
  {
  }

  /** A client of the class: `up` for a table with only its real file, then `down`. */
  method UpThenDown()
  {
    var w := World({UsersReal}, {UsersReal}, map[], {}, map[UsersReal := UserRows], map["SKIP_FAKE" := "on"]);
    var migration := new CsvMigration("/vendor/x/y/src", w);
    migration.SetFileBasePath("/app");
    migration.SetTableName("users");
    UsersWithFakeSkipped(w);
    var o := migration.Up();
    assert o == Pass;
    assert migration.effects == [Configured, Inserted("users", [AnnRecord, BobRecord])];
    migration.Down();
    assert migration.effects == [Configured, Inserted("users", [AnnRecord, BobRecord]), Executed(TruncateSql("users"))];
  }
}
