/** Reading a per-file CSV extract into records, as both feature extractors'
    `read_records` do: the field count of the first line decides between the
    test schema and the train schema (test schema plus the target), then
    `csv.DictReader` names the fields of every line by position. */
module Records {
  import opened Wrappers
  import opened Text

  /** The fields `csv.reader` yields for one line (no quoting in these files):
      an empty line yields no fields. */
  function CsvFields(line: string): seq<string>
  {
    if line == "" then [] else Split(line, ',')
  }

  /** Every record names at least `n` fields. */
  predicate HasFields(records: seq<seq<string>>, n: nat)
  {
    forall i :: 0 <= i < |records| ==> n <= |records[i]|
  }

  /** `len(filehandle.readline().split(","))`: an empty file reads as one empty field. */
  function FirstLineFieldCount(lines: seq<string>): nat
  {
    |Split(if |lines| == 0 then "" else lines[0], ',')|
  }

  /** The schema check of `read_records`: `testCount` fields is a test file,
      one more is a train file, anything else raises `ValueError`. */
  function ResolveSchema(numFields: nat, testCount: nat): (r: Result<bool>)
    ensures r.Success? <==> numFields == testCount || numFields == testCount + 1
    ensures r.Success? ==> (r.value <==> numFields == testCount + 1)
    ensures r.Failure? ==> r.error == ValueError
  {
    if numFields == testCount then Success(false)
    else if numFields == testCount + 1 then Success(true)
    else Failure(ValueError)
  }

  /** The records `csv.DictReader` yields with `n` field names: blank lines
      are skipped, extra fields are not among the named ones, and a line with
      fewer than `n` fields is refused (see the README on this deviation). */
  function DictRecords(lines: seq<string>, n: nat): (r: Result<seq<seq<string>>>)
    ensures r.Success? ==> |r.value| <= |lines|
    decreases |lines|
  {
    if |lines| == 0 then Success([])
    else
      var prev :- DictRecords(lines[..|lines| - 1], n);
      var fields := CsvFields(lines[|lines| - 1]);
      if |fields| == 0 then Success(prev)
      else if |fields| < n then Failure(ValueError)
      else Success(prev + [fields[..n]])
  }

  /** `read_records`: the records and whether the file is a train file; at
      most one record per line. */
  function Read(lines: seq<string>, testCount: nat): (r: Result<(seq<seq<string>>, bool)>)
    ensures r.Success? ==> |r.value.0| <= |lines|
  {
    var train :- ResolveSchema(FirstLineFieldCount(lines), testCount);
    var records :- DictRecords(lines, if train then testCount + 1 else testCount);
    Success((records, train))
  }

  /** `read_records` as the loop the source runs: check the first line, then
      append one record per non-blank line. */
  method ReadRecords(lines: seq<string>, testCount: nat) returns (r: Result<(seq<seq<string>>, bool)>)
    ensures r == Read(lines, testCount)
  {
    var numFields := FirstLineFieldCount(lines);
    var train: bool;
    if numFields == testCount {
      train := false;
    } else if numFields == testCount + 1 {
      train := true;
    } else {
      return Failure(ValueError);
    }
    var n := if train then testCount + 1 else testCount;
    var records: seq<seq<string>> := [];
    var i := 0;
    while i < |lines|
      invariant 0 <= i <= |lines|
      invariant DictRecords(lines[..i], n) == Success(records)
    {
      assert lines[..i + 1][..i] == lines[..i];
      var fields := CsvFields(lines[i]);
      if |fields| > 0 {
        if |fields| < n {
          assert DictRecords(lines[..i + 1], n).Failure?;
          DictRecordsFailurePersists(lines, n, i + 1);
          return Failure(ValueError);
        }
        records := records + [fields[..n]];
      }
      i := i + 1;
    }
    assert lines[..i] == lines;
    r := Success((records, train));
  }

  /** Once a prefix of the file fails, the whole file fails. */
  lemma {:induction false} DictRecordsFailurePersists(lines: seq<string>, n: nat, k: nat)
    requires k <= |lines|
    requires DictRecords(lines[..k], n).Failure?
    ensures DictRecords(lines, n) == Failure(ValueError)
    decreases |lines| - k
  {
    if k == |lines| {
      assert lines[..k] == lines;
      DictRecordsErrorIsValueError(lines, n);
    } else {
      assert lines[..k + 1][..k] == lines[..k];
      DictRecordsFailurePersists(lines, n, k + 1);
    }
  }

  lemma {:induction false} DictRecordsErrorIsValueError(lines: seq<string>, n: nat)
    ensures DictRecords(lines, n).Failure? ==> DictRecords(lines, n).error == ValueError
    decreases |lines|
  {
    if |lines| > 0 {
      DictRecordsErrorIsValueError(lines[..|lines| - 1], n);
    }
  }

  /** The records read exactly when no line is short: every line is blank
      or has at least `n` fields. */
  lemma {:induction false} DictRecordsSucceeds(lines: seq<string>, n: nat)
    ensures DictRecords(lines, n).Success? <==>
      forall k :: 0 <= k < |lines| ==> |CsvFields(lines[k])| == 0 || n <= |CsvFields(lines[k])|
    decreases |lines|
  {
    if |lines| > 0 {
      var init := lines[..|lines| - 1];
      DictRecordsSucceeds(init, n);
      assert forall k :: 0 <= k < |init| ==> init[k] == lines[k];
    }
  }

  /** Every record has exactly the schema's field count, and a file without
      blank lines gives one record per line, in line order, holding that
      line's leading fields. */
  lemma {:induction false} DictRecordsRows(lines: seq<string>, n: nat)
    requires DictRecords(lines, n).Success?
    ensures forall k :: 0 <= k < |DictRecords(lines, n).value| ==> |DictRecords(lines, n).value[k]| == n
    ensures (forall k :: 0 <= k < |lines| ==> lines[k] != "") ==>
      && |DictRecords(lines, n).value| == |lines|
      && forall k :: 0 <= k < |lines| ==>
           n <= |Split(lines[k], ',')| && DictRecords(lines, n).value[k] == Split(lines[k], ',')[..n]
    decreases |lines|
  {
    if |lines| > 0 {
      var init := lines[..|lines| - 1];
      var last := CsvFields(lines[|lines| - 1]);
      assert DictRecords(init, n).Success?;
      var prev := DictRecords(init, n).value;
      DictRecordsRows(init, n);
      if |last| == 0 {
        assert DictRecords(lines, n).value == prev;
      } else {
        assert DictRecords(lines, n).value == prev + [last[..n]];
        if forall k :: 0 <= k < |lines| ==> lines[k] != "" {
          assert forall k :: 0 <= k < |init| ==> init[k] == lines[k] != "";
        }
      }
    }
  }

  /** A successful read yields records of exactly the schema's field count. */
  lemma ReadHasFields(lines: seq<string>, testCount: nat)
    requires Read(lines, testCount).Success?
    ensures var n := if Read(lines, testCount).value.1 then testCount + 1 else testCount;
      HasFields(Read(lines, testCount).value.0, n)
  {
    var train := ResolveSchema(FirstLineFieldCount(lines), testCount).value;
    DictRecordsRows(lines, if train then testCount + 1 else testCount);
  }

  /** `read_records` only ever raises `ValueError`. */
  lemma ReadErrorIsValueError(lines: seq<string>, testCount: nat)
    ensures Read(lines, testCount).Failure? ==> Read(lines, testCount).error == ValueError
  {
    var r := ResolveSchema(FirstLineFieldCount(lines), testCount);
    if r.Success? {
      DictRecordsErrorIsValueError(lines, if r.value then testCount + 1 else testCount);
    }
  }

  /** The schema is decided by the first line alone, before any record is
      read: a bad field count raises even when every record would read. */
  lemma ReadChecksSchemaFirst(lines: seq<string>, testCount: nat)
    ensures Read(lines, testCount).Success? ==>
      var train := Read(lines, testCount).value.1;
      && (train <==> FirstLineFieldCount(lines) == testCount + 1)
      && (!train ==> FirstLineFieldCount(lines) == testCount)
    ensures FirstLineFieldCount(lines) != testCount && FirstLineFieldCount(lines) != testCount + 1 ==>
      Read(lines, testCount) == Failure(ValueError)
  {
  }
}
