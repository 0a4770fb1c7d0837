/**
 * The row-to-record transform of CsvMigration::buildToInsertArray.
 *
 * The parsed CSV file is a sequence of rows of fields. Row 0 is the header;
 * every later row becomes one record that maps each header name to that
 * row's field at the same position, with an empty field stored as null.
 * A record is a PHP array: ordered, each key once, in the order in which
 * keys were first assigned.
 */
module CsvRecords {
  import opened Wrappers

  /** A value that goes into the table: a string, or null. */
  datatype Value = Null | Text(text: string)

  /** One key/value pair of a record. */
  datatype Entry = Entry(name: string, value: Value)

  /** A PHP array keyed by column name, in key order. */
  type Record = seq<Entry>

  /** The keys of a record, in order. */
  function Names(r: Record): seq<string>
  {
    seq(|r|, i requires 0 <= i < |r| => r[i].name)
  }

  /** `$r[$k]` when the key is present; None when it is not. */
  function Lookup(r: Record, k: string): Option<Value>
  {
    if r == [] then None
    else if r[0].name == k then Some(r[0].value)
    else Lookup(r[1..], k)
  }

  /** `$r[$k] = $v`: an existing key keeps its place and takes the new value; a new key goes last. */
  function Put(r: Record, k: string, v: Value): (p: Record)
    ensures Lookup(p, k) == Some(v)
    ensures |p| == if Lookup(r, k).Some? then |r| else |r| + 1
  {
    if r == [] then [Entry(k, v)]
    else if r[0].name == k then [Entry(k, v)] + r[1..]
    else [r[0]] + Put(r[1..], k, v)
  }

  predicate Distinct(s: seq<string>)
  {
    forall i, j :: 0 <= i < j < |s| ==> s[i] != s[j]
  }

  /** Reads key `k` back as the value just stored and leaves every other key as it was. */
  lemma {:induction false} PutLookup(r: Record, k: string, v: Value)
    ensures Lookup(Put(r, k, v), k) == Some(v)
    ensures forall k' :: k' != k ==> Lookup(Put(r, k, v), k') == Lookup(r, k')
  {
    if r != [] && r[0].name != k {
      PutLookup(r[1..], k, v);
    }
  }

  /** An existing key keeps its place; a new key goes last. */
  lemma {:induction false} PutNames(r: Record, k: string, v: Value)
    ensures Names(Put(r, k, v)) == if k in Names(r) then Names(r) else Names(r) + [k]
  {
    if r == [] {
    } else if r[0].name == k {
      assert Names(r)[0] == k;
      assert Names(Put(r, k, v)) == Names(r);
    } else {
      PutNames(r[1..], k, v);
      assert Names(r) == [r[0].name] + Names(r[1..]);
      assert Names(Put(r, k, v)) == [r[0].name] + Names(Put(r[1..], k, v));
    }
  }

  /** A second assignment to the same key overrides the first and nothing else. */
  lemma {:induction false} PutTwice(r: Record, k: string, v1: Value, v2: Value)
    ensures Put(Put(r, k, v1), k, v2) == Put(r, k, v2)
  {
    if r != [] && r[0].name != k {
      PutTwice(r[1..], k, v1, v2);
    }
  }

  /** Putting into a record whose keys are distinct keeps them distinct. */
  lemma PutKeepsDistinct(r: Record, k: string, v: Value)
    requires Distinct(Names(r))
    ensures Distinct(Names(Put(r, k, v)))
  {
    PutNames(r, k, v);
  }

  /** What the loop stores for header position `key`: the row's field, where an empty
      field, and a field the row is too short to have, become null. */
  function Cell(row: seq<string>, key: nat): (v: Value)
    ensures v == Null <==> key >= |row| || row[key] == ""
    ensures v.Text? ==> key < |row| && v.text == row[key]
  {
    if key < |row| && |row[key]| > 0 then Text(row[key]) else Null
  }

  /** The record built from one data row: header position 0 first, a later position
      with a repeated name overwriting the earlier one. */
  function RowRecord(mapping: seq<string>, row: seq<string>): (rec: Record)
    ensures |rec| <= |mapping|
    ensures mapping != [] ==> Lookup(rec, mapping[|mapping| - 1]) == Some(Cell(row, |mapping| - 1))
    decreases |mapping|
  {
    if mapping == [] then []
    else
      var n := |mapping| - 1;
      Put(RowRecord(mapping[..n], row), mapping[n], Cell(row, n))
  }

  /** The header names without repeats, each kept at its first position. */
  function FirstOccurrences(s: seq<string>): seq<string>
    decreases |s|
  {
    if s == [] then []
    else
      var n := |s| - 1;
      if s[n] in s[..n] then FirstOccurrences(s[..n]) else FirstOccurrences(s[..n]) + [s[n]]
  }

  /** The last header position that carries name `x`. */
  function LastIndexOf(s: seq<string>, x: string): (i: nat)
    requires x in s
    ensures i < |s| && s[i] == x
    ensures forall j :: i < j < |s| ==> s[j] != x
    decreases |s|
  {
    var n := |s| - 1;
    if s[n] == x then n else LastIndexOf(s[..n], x)
  }

  /** The names kept are exactly the header names, once each; a header without repeats is kept as it is. */
  lemma {:induction false} FirstOccurrencesSpec(s: seq<string>)
    ensures forall x :: x in FirstOccurrences(s) <==> x in s
    ensures Distinct(FirstOccurrences(s))
    ensures Distinct(s) ==> FirstOccurrences(s) == s
  {
    if s != [] {
      var n := |s| - 1;
      FirstOccurrencesSpec(s[..n]);
      assert s == s[..n] + [s[n]];
      if Distinct(s) {
        assert Distinct(s[..n]);
        assert s[n] !in s[..n];
      }
    }
  }

  /** The keys of a row's record are the header names once each, in the order of their first
      position, whatever the row holds. */
  lemma {:induction false} RowRecordNames(mapping: seq<string>, row: seq<string>)
    ensures Names(RowRecord(mapping, row)) == FirstOccurrences(mapping)
    decreases |mapping|
  {
    if mapping != [] {
      var n := |mapping| - 1;
      var prev := RowRecord(mapping[..n], row);
      RowRecordNames(mapping[..n], row);
      FirstOccurrencesSpec(mapping[..n]);
      PutNames(prev, mapping[n], Cell(row, n));
    }
  }

  /** The value under name `x` comes from the LAST header position named `x`: that row's
      field when it is non-empty, null when it is empty or missing; a name that is not in
      the header is not a key. */
  lemma {:induction false} RowRecordLookup(mapping: seq<string>, row: seq<string>, x: string)
    ensures Lookup(RowRecord(mapping, row), x) ==
      if x !in mapping then None
      else
        var j := LastIndexOf(mapping, x);
        if j < |row| && row[j] != "" then Some(Text(row[j])) else Some(Null)
    decreases |mapping|
  {
    if mapping != [] {
      var n := |mapping| - 1;
      var prev := RowRecord(mapping[..n], row);
      RowRecordLookup(mapping[..n], row, x);
      PutLookup(prev, mapping[n], Cell(row, n));
      assert mapping == mapping[..n] + [mapping[n]];
    }
  }

  /** With a header without repeated names, the record lists every header position in
      order, paired with that position's (null-normalised) field. */
  lemma RowRecordDistinctHeader(mapping: seq<string>, row: seq<string>)
    requires Distinct(mapping)
    ensures Names(RowRecord(mapping, row)) == mapping
    ensures forall j :: 0 <= j < |mapping| ==> RowRecord(mapping, row)[j] == Entry(mapping[j], Cell(row, j))
  {
    RowRecordNames(mapping, row);
    FirstOccurrencesSpec(mapping);
    var r := RowRecord(mapping, row);
    forall j | 0 <= j < |mapping|
      ensures r[j] == Entry(mapping[j], Cell(row, j))
    {
      assert r[j].name == mapping[j];
      RowRecordLookup(mapping, row, mapping[j]);
      assert LastIndexOf(mapping, mapping[j]) == j;
      LookupAt(r, j);
    }
  }

  /** In a record with distinct keys, looking up the key at position `j` finds position `j`. */
  lemma {:induction false} LookupAt(r: Record, j: nat)
    requires j < |r| && Distinct(Names(r))
    ensures Lookup(r, r[j].name) == Some(r[j].value)
  {
    if j > 0 {
      assert Names(r)[0] != Names(r)[j];
      assert Distinct(Names(r[1..])) by {
        forall a, b | 0 <= a < b < |r| - 1 ensures Names(r[1..])[a] != Names(r[1..])[b] {
          assert Names(r)[a + 1] != Names(r)[b + 1];
        }
      }
      LookupAt(r[1..], j - 1);
    }
  }

  /** The records built from rows 1 up to the last, in file order. */
  function BuildToInsert(csvRows: seq<seq<string>>, mapping: seq<string>): (records: seq<Record>)
    ensures |records| == if |csvRows| == 0 then 0 else |csvRows| - 1
    ensures forall k :: 0 <= k < |records| ==> records[k] == RowRecord(mapping, csvRows[k + 1])
    decreases |csvRows|
  {
    if |csvRows| <= 1 then []
    else
      var n := |csvRows| - 1;
      BuildToInsert(csvRows[..n], mapping) + [RowRecord(mapping, csvRows[n])]
  }

  /** What seedFromCSV hands on: the first row is the header, and an empty file gives no records. */
  function SeedRecords(csvRows: seq<seq<string>>): (records: seq<Record>)
    ensures |records| == if csvRows == [] then 0 else |csvRows| - 1
    ensures |csvRows| <= 1 ==> records == []
  {
    if csvRows == [] then [] else BuildToInsert(csvRows, csvRows[0])
  }

  /** One record per data row, in file order, never one for the header; every record has the
      header names as keys in the same order, and each value is its row's field or null. */
  lemma SeedRecordsSpec(csvRows: seq<seq<string>>)
    ensures |SeedRecords(csvRows)| == if csvRows == [] then 0 else |csvRows| - 1
    ensures forall k :: 0 <= k < |SeedRecords(csvRows)| ==>
      && SeedRecords(csvRows)[k] == RowRecord(csvRows[0], csvRows[k + 1])
      && Names(SeedRecords(csvRows)[k]) == FirstOccurrences(csvRows[0])
  {
    forall k | 0 <= k < |SeedRecords(csvRows)|
      ensures Names(SeedRecords(csvRows)[k]) == FirstOccurrences(csvRows[0])
    {
      RowRecordNames(csvRows[0], csvRows[k + 1]);
    }
  }

  /** One step of the inner loop of buildToInsertArray: storing header position `key`'s field
      as read, then again normalised to null, extends the record by that position. */
  lemma StoreField(mapping: seq<string>, row: seq<string>, key: nat, raw: Value)
    requires key < |mapping|
    requires raw == if key < |row| then Text(row[key]) else Null
    ensures var normalised := if raw == Null || |raw.text| == 0 then Null else raw;
      Put(Put(RowRecord(mapping[..key], row), mapping[key], raw), mapping[key], normalised)
        == RowRecord(mapping[..key + 1], row)
  {
    var normalised := if raw == Null || |raw.text| == 0 then Null else raw;
    PutTwice(RowRecord(mapping[..key], row), mapping[key], raw, normalised);
    assert mapping[..key + 1][..key] == mapping[..key];
  }

  /** buildToInsertArray: the outer loop runs over rows 1 up to the last (the offset is fixed
      at 1), the inner loop over the header positions, storing each field first as read and
      then again after an empty field has been replaced by null. */
  method BuildToInsertArray(csvRows: seq<seq<string>>, mapping: seq<string>) returns (toBuild: seq<Record>)
    ensures toBuild == BuildToInsert(csvRows, mapping)
  {
    toBuild := [];
    var offset := 1;
    var i := offset;
    while i < |csvRows|
      invariant 1 <= i
      invariant |csvRows| == 0 ==> toBuild == []
      invariant |csvRows| > 0 ==> i <= |csvRows| && toBuild == BuildToInsert(csvRows[..i], mapping)
    {
      var row := csvRows[i];
      var temp: Record := [];
      var key := 0;
      while key < |mapping|
        invariant 0 <= key <= |mapping|
        invariant temp == RowRecord(mapping[..key], row)
      {
        var value := mapping[key];
        // an offset past the end of a short row reads as null
        var field := if key < |row| then Text(row[key]) else Null;
        StoreField(mapping, row, key, field);
        temp := Put(temp, value, field);
        if field == Null || |field.text| == 0 {
          field := Null;
        }
        temp := Put(temp, value, field);
        key := key + 1;
      }
      assert mapping[..|mapping|] == mapping;
      assert csvRows[..i + 1][..i] == csvRows[..i];
      toBuild := toBuild + [temp];
      i := i + 1;
    }
    assert csvRows[..|csvRows|] == csvRows;
  }
}
