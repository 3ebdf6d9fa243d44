/** The per-department CSV builder of build_dept_csv.py: the rows of the
    store/features/sales join are grouped by `(store_id, dept_id)`, and each
    group is written, without its key, to a file named `S-D` in the output
    directory. The SQL query is not modelled: its rows, already rendered as
    text cells, are the input. */
module DeptCsv {
  import opened Wrappers
  import opened Text
  import opened Records
  import Registry
  import DeptFeatures

  // ---------------------------------------------------------------------------
  // file names

  /** `os.path.join(a, b)` on POSIX paths. */
  function PathJoin(a: string, b: string): string
  {
    if |b| > 0 && b[0] == '/' then b
    else if |a| == 0 || a[|a| - 1] == '/' then a + b
    else a + "/" + b
  }

  /** `"%d-%d" % (store_id, dept_id)`. */
  function StoreDeptName(storeId: int, deptId: int): string
  {
    IntToString(storeId) + "-" + IntToString(deptId)
  }

  /** `CsvBuilder.filename(store_id, dept_id)`: a path ending in the key's name. */
  function FileName(outputDir: string, storeId: int, deptId: int): (path: string)
    ensures var name := StoreDeptName(storeId, deptId);
      |name| <= |path| && path[|path| - |name|..] == name
  {
    PathJoin(outputDir, StoreDeptName(storeId, deptId))
  }

  /** The file lands directly in the output directory: its path is the
      directory, a `/` unless the directory is empty or ends in one, and the
      name, which holds no `/`, so listing the directory yields the name. */
  lemma FileNameInDirectory(outputDir: string, storeId: int, deptId: int)
    ensures var name := StoreDeptName(storeId, deptId);
      && '/' !in name
      && FileName(outputDir, storeId, deptId) ==
         (if |outputDir| == 0 || outputDir[|outputDir| - 1] == '/' then outputDir else outputDir + "/") + name
  {
    var name := StoreDeptName(storeId, deptId);
    var a, b := IntToString(storeId), IntToString(deptId);
    assert forall c :: c in name ==> c == '-' || c in a || c in b;
    assert name[0] == '-' || IsDigit(name[0]);
  }

  /** A non-negative decimal holds neither `-` nor `.`. */
  lemma NatTextLacksSeparators(n: nat)
    ensures '-' !in IntToString(n) && '.' !in IntToString(n) && '/' !in IntToString(n)
  {
  }

  /** The name of a key holds no `.`; a `-` only as separator or sign. */
  lemma StoreDeptNameChars(storeId: int, deptId: int)
    ensures '.' !in StoreDeptName(storeId, deptId)
  {
    var a, b := IntToString(storeId), IntToString(deptId);
    assert forall c :: c in StoreDeptName(storeId, deptId) ==> c == '-' || c in a || c in b;
  }

  /** `train_model` keeps `.num` names and reads their part before the
      first `.`: for a key's name that is the name itself. */
  lemma NumSuffix(name: string)
    requires '.' !in name
    ensures !Registry.EndsWith(name, ".num")
    ensures Registry.EndsWith(name + ".num", ".num")
    ensures Split(name + ".num", '.')[0] == name
  {
    var suffixed := name + ".num";
    assert suffixed[|suffixed| - 4..] == ".num";
    assert suffixed == name + ['.'] + "num";
    SplitAtFirst(name, '.', "num");
    if |name| >= 4 {
      assert name[|name| - 4] != '.';
      assert name[|name| - 4..][0] != ".num"[0];
    }
  }

  /** The `.num` file `extract_dept_features` writes beside the CSV for
      key `(s, d)` parses back to `(s, d)` under `train_model`'s rule exactly
      when both ids are non-negative (a `-` sign adds a part); the CSV
      itself never ends in `.num`, so `train_model` skips it. */
  lemma ModelFileNameRoundTrip(storeId: int, deptId: int)
    ensures !Registry.EndsWith(StoreDeptName(storeId, deptId), ".num")
    ensures Registry.EndsWith(StoreDeptName(storeId, deptId) + ".num", ".num")
    ensures Registry.ParseModelFilename(StoreDeptName(storeId, deptId) + ".num") ==
      if storeId >= 0 && deptId >= 0 then Success((storeId, deptId)) else Failure(ValueError)
  {
    var name := StoreDeptName(storeId, deptId);
    StoreDeptNameChars(storeId, deptId);
    NumSuffix(name);
    var a, b := IntToString(storeId), IntToString(deptId);
    var parts := Split(name, '-');
    if storeId >= 0 && deptId >= 0 {
      NatTextLacksSeparators(storeId);
      NatTextLacksSeparators(deptId);
      SplitAtFirst(a, '-', b);
      SplitWithoutSeparator(b, '-');
      assert parts == [a, b];
      ParseIntOfIntToString(storeId);
      ParseIntOfIntToString(deptId);
    } else {
      SplitLeadingSign(name, a, b, storeId, deptId);
    }
  }

  /** A negative id's sign is one more `-` in the name: three or more parts. */
  lemma SplitLeadingSign(name: string, a: string, b: string, storeId: int, deptId: int)
    requires a == IntToString(storeId) && b == IntToString(deptId) && name == a + "-" + b
    requires storeId < 0 || deptId < 0
    ensures |Split(name, '-')| >= 3
  {
    if storeId < 0 {
      var digits := NatToString(-storeId);
      NatTextLacksSeparators(-storeId);
      assert name == [] + ['-'] + (digits + "-" + b);
      SplitAtFirst([], '-', digits + "-" + b);
      SplitAtFirst(digits, '-', b);
    } else {
      NatTextLacksSeparators(storeId);
      var digits := NatToString(-deptId);
      assert name == a + ['-'] + ([] + ['-'] + digits);
      SplitAtFirst(a, '-', [] + ['-'] + digits);
      SplitAtFirst([], '-', digits);
    }
  }

  // ---------------------------------------------------------------------------
  // grouping rows by key

  type Row = seq<string>

  /** `row[:2]`. */
  function KeyOf(row: Row): Row
  {
    if |row| < 2 then row else row[..2]
  }

  /** `row[2:]`. */
  function TailOf(row: Row): Row
  {
    if |row| < 2 then [] else row[2..]
  }

  /** The `defaultdict(list)` that `join_tables` fills, as a value: each
      row's tail appended to the list of its key. Every list is non-empty. */
  function Group(rows: seq<Row>): (groups: map<Row, seq<Row>>)
    ensures forall key :: key in groups ==> |groups[key]| > 0
    decreases |rows|
  {
    if |rows| == 0 then map[]
    else
      var data := Group(rows[..|rows| - 1]);
      var row := rows[|rows| - 1];
      var key := KeyOf(row);
      data[key := (if key in data then data[key] else []) + [TailOf(row)]]
  }

  /** The tails of the rows with key `key`, in row order. */
  function TailsWithKey(rows: seq<Row>, key: Row): seq<Row>
    decreases |rows|
  {
    if |rows| == 0 then []
    else
      var prev := TailsWithKey(rows[..|rows| - 1], key);
      var row := rows[|rows| - 1];
      if KeyOf(row) == key then prev + [TailOf(row)] else prev
  }

  /** The distinct keys in the order they first occur. */
  function FirstSeenKeys(rows: seq<Row>): seq<Row>
    decreases |rows|
  {
    if |rows| == 0 then []
    else
      var prev := FirstSeenKeys(rows[..|rows| - 1]);
      var key := KeyOf(rows[|rows| - 1]);
      if key in prev then prev else prev + [key]
  }

  /** No key is listed twice. */
  predicate Distinct(keys: seq<Row>)
  {
    forall i, j :: 0 <= i < j < |keys| ==> keys[i] != keys[j]
  }

  /** The total size of the groups of the listed keys. */
  function Total(groups: map<Row, seq<Row>>, keys: seq<Row>): nat
    requires forall j :: 0 <= j < |keys| ==> keys[j] in groups
    decreases |keys|
  {
    if |keys| == 0 then 0
    else Total(groups, keys[..|keys| - 1]) + |groups[keys[|keys| - 1]]|
  }

  /** `join_tables`'s loop over the cursor. */
  method JoinTables(rows: seq<Row>) returns (data: map<Row, seq<Row>>)
    ensures data == Group(rows)
  {
    data := map[];
    var i := 0;
    while i < |rows|
      invariant 0 <= i <= |rows|
      invariant data == Group(rows[..i])
    {
      assert rows[..i + 1][..i] == rows[..i];
      var key := KeyOf(rows[i]);
      var line := TailOf(rows[i]);
      var group := if key in data then data[key] else [];
      data := data[key := group + [line]];
      i := i + 1;
    }
    assert rows[..i] == rows;
  }

  /** Exactly the keys of the rows get a group, and each group holds the
      tails of that key's rows in arrival order. */
  lemma {:induction false} GroupIsFilter(rows: seq<Row>)
    ensures Group(rows).Keys == set i | 0 <= i < |rows| :: KeyOf(rows[i])
    ensures forall key :: key in Group(rows) ==> Group(rows)[key] == TailsWithKey(rows, key)
    decreases |rows|
  {
    if |rows| > 0 {
      var init := rows[..|rows| - 1];
      GroupIsFilter(init);
      assert forall i :: 0 <= i < |init| ==> init[i] == rows[i];
      var last := KeyOf(rows[|rows| - 1]);
      assert (set i | 0 <= i < |rows| :: KeyOf(rows[i])) == (set i | 0 <= i < |init| :: KeyOf(init[i])) + {last};
      forall key | key in Group(init) && key != last
        ensures TailsWithKey(init, key) == TailsWithKey(rows, key)
      {
      }
      if last !in Group(init) {
        TailsWithoutKey(init, last);
      }
    }
  }

  /** A key none of the rows has collects nothing. */
  lemma {:induction false} TailsWithoutKey(rows: seq<Row>, key: Row)
    requires key !in Group(rows)
    ensures TailsWithKey(rows, key) == []
    decreases |rows|
  {
    if |rows| > 0 {
      TailsWithoutKey(rows[..|rows| - 1], key);
    }
  }

  /** The first-seen keys are distinct and are exactly the group keys. */
  lemma {:induction false} FirstSeenKeysAreGroups(rows: seq<Row>)
    ensures Distinct(FirstSeenKeys(rows))
    ensures forall key :: key in FirstSeenKeys(rows) <==> key in Group(rows)
    decreases |rows|
  {
    if |rows| > 0 {
      FirstSeenKeysAreGroups(rows[..|rows| - 1]);
    }
  }

  /** No row is lost or duplicated: the group sizes add up to the number of
      rows. */
  lemma {:induction false} GroupTotal(rows: seq<Row>)
    ensures forall j :: 0 <= j < |FirstSeenKeys(rows)| ==> FirstSeenKeys(rows)[j] in Group(rows)
    ensures Total(Group(rows), FirstSeenKeys(rows)) == |rows|
    decreases |rows|
  {
    FirstSeenKeysAreGroups(rows);
    if |rows| > 0 {
      var init := rows[..|rows| - 1];
      GroupTotal(init);
      FirstSeenKeysAreGroups(init);
      var data, keys := Group(init), FirstSeenKeys(init);
      var key := KeyOf(rows[|rows| - 1]);
      var group := (if key in data then data[key] else []) + [TailOf(rows[|rows| - 1])];
      if key in keys {
        TotalUpdate(data, keys, key, group);
      } else {
        TotalUpdateAbsent(data, keys, key, group);
        assert (keys + [key])[..|keys|] == keys;
      }
    }
  }

  /** Changing the group of a key not listed does not change the total. */
  lemma {:induction false} TotalUpdateAbsent(groups: map<Row, seq<Row>>, keys: seq<Row>, key: Row, group: seq<Row>)
    requires forall j :: 0 <= j < |keys| ==> keys[j] in groups
    requires key !in keys
    ensures Total(groups[key := group], keys) == Total(groups, keys)
    decreases |keys|
  {
    if |keys| > 0 {
      TotalUpdateAbsent(groups, keys[..|keys| - 1], key, group);
    }
  }

  /** Changing the group of a key listed once changes the total by the
      difference in size. */
  lemma {:induction false} TotalUpdate(groups: map<Row, seq<Row>>, keys: seq<Row>, key: Row, group: seq<Row>)
    requires forall j :: 0 <= j < |keys| ==> keys[j] in groups
    requires Distinct(keys) && key in keys
    ensures Total(groups[key := group], keys) + |groups[key]| == Total(groups, keys) + |group|
    decreases |keys|
  {
    var init := keys[..|keys| - 1];
    if keys[|keys| - 1] == key {
      assert key !in init;
      TotalUpdateAbsent(groups, init, key, group);
    } else {
      assert key in init;
      TotalUpdate(groups, init, key, group);
    }
  }

  /** Rows of `w >= 2` cells leave tails of `w - 2` cells: 15 for the
      17-column test join and 16 for the 18-column train join, the field
      counts the per-department extractor accepts. */
  lemma {:induction false} GroupTailWidths(rows: seq<Row>, test: bool)
    requires forall i :: 0 <= i < |rows| ==> |rows[i]| == if test then 17 else 18
    ensures forall key, j :: key in Group(rows) && 0 <= j < |Group(rows)[key]| ==>
      |Group(rows)[key][j]| == DeptFeatures.FieldCount(!test)
    decreases |rows|
  {
    if |rows| > 0 {
      GroupTailWidths(rows[..|rows| - 1], test);
    }
  }

  // ---------------------------------------------------------------------------
  // writing a group and reading it back

  /** `csv.writer(...).writerows(lines)` for cells without commas: one
      comma-joined line per tail. */
  function CsvLines(tails: seq<Row>): (lines: seq<string>)
    ensures |lines| == |tails|
  {
    seq(|tails|, i requires 0 <= i < |tails| => Join(tails[i], ","))
  }

  /** A group file written by `build` reads back, under the per-department
      extractor's `read_records`, as the same rows with the right schema. */
  lemma GroupFileReadsBack(tails: seq<Row>, train: bool)
    requires |tails| > 0
    requires forall i :: 0 <= i < |tails| ==> |tails[i]| == DeptFeatures.FieldCount(train)
    requires forall i, j :: 0 <= i < |tails| && 0 <= j < |tails[i]| ==> ',' !in tails[i][j]
    ensures Read(CsvLines(tails), DeptFeatures.TEST_FIELD_COUNT) == Success((tails, train))
  {
    var lines := CsvLines(tails);
    var n := DeptFeatures.FieldCount(train);
    forall i | 0 <= i < |tails|
      ensures Split(lines[i], ',') == tails[i] && lines[i] != ""
    {
      SplitJoin(tails[i], ',');
    }
    assert FirstLineFieldCount(lines) == n;
    DictRecordsSucceeds(lines, n);
    DictRecordsRows(lines, n);
    var records := DictRecords(lines, n).value;
    assert forall i :: 0 <= i < |tails| ==> records[i] == tails[i][..n] == tails[i];
    assert records == tails;
    assert ResolveSchema(n, DeptFeatures.TEST_FIELD_COUNT) == Success(train);
  }
}
