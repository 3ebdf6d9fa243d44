/** The table builders of build_db.py: each raw CSV file is loaded row by
    row, and where its header has a `Date` field, the `Y-M-D` text in that
    column is replaced in place by three integer fields. The SQLite table
    is modelled as the list of rows handed to the insert statement. */
module BuildDb {
  import opened Wrappers
  import opened Text
  import opened Lists
  import Registry

  /** A record field: the text `csv.reader` yields, or an `int` the date
      expansion puts in its place. */
  datatype Field = Text(text: string) | Number(value: int)

  /** Every field is still text, as `csv.reader` yields it. */
  predicate AllText(fields: seq<Field>)
  {
    forall i :: 0 <= i < |fields| ==> fields[i].Text?
  }

  /** A record as `csv.reader` yields it. */
  function TextFields(cells: seq<string>): (fields: seq<Field>)
    ensures |fields| == |cells| && AllText(fields)
  {
    seq(|cells|, i requires 0 <= i < |cells| => Text(cells[i]))
  }

  // ---------------------------------------------------------------------------
  // the Date column

  /** `header.index("Date")`, `None` where it raises `ValueError`. */
  function IndexOfDate(header: seq<string>): (k: Option<nat>)
    ensures k.Some? ==> k.value < |header| && header[k.value] == "Date" && "Date" !in header[..k.value]
    ensures k.None? <==> "Date" !in header
    decreases |header|
  {
    if |header| == 0 then None
    else if header[0] == "Date" then Some(0)
    else
      match IndexOfDate(header[1..])
      case None => None
      case Some(k) =>
        assert header[..k + 1] == [header[0]] + header[1..][..k];
        Some(k + 1)
  }

  /** The first `Date` field is the one found. */
  lemma {:induction false} IndexOfFirstDate(header: seq<string>, k: nat)
    requires k < |header| && header[k] == "Date" && "Date" !in header[..k]
    ensures IndexOfDate(header) == Some(k)
    decreases k
  {
    if k > 0 {
      assert header[0] == header[..k][0];
      assert header[1..][..k - 1] == header[1..k];
      assert forall x :: x in header[1..k] ==> x in header[..k];
      IndexOfFirstDate(header[1..], k - 1);
    }
  }

  /** The date index `insert_data` finds in the header line, which
      `readline` returns with its line terminator. */
  function HeaderDateIndex(headerLine: string): Option<nat>
  {
    IndexOfDate(Split(headerLine, ','))
  }

  /** A header line read back with its line terminator `end`: its
      comma-separated fields, the last one still carrying `end`. */
  lemma SplitHeaderLine(fields: seq<string>, end: string)
    requires |fields| > 0
    requires forall i :: 0 <= i < |fields| ==> ',' !in fields[i]
    requires ',' !in end
    ensures Split(Join(fields, ",") + end, ',') == fields[..|fields| - 1] + [fields[|fields| - 1] + end]
  {
    var init, last := fields[..|fields| - 1], fields[|fields| - 1];
    var withEnd := init + [last + end];
    assert fields == init + [last];
    if |init| > 0 {
      JoinAppend(init, last, ",");
      JoinAppend(init, last + end, ",");
    }
    assert Join(fields, ",") + end == Join(withEnd, ",");
    assert forall i :: 0 <= i < |withEnd| ==> ',' !in withEnd[i];
    SplitJoin(withEnd, ',');
  }

  /** Header fields around `Date` that hold no comma leave no comma in any
      field. */
  lemma CommaFreeAround(before: seq<string>, after: seq<string>)
    requires forall i :: 0 <= i < |before| ==> ',' !in before[i]
    requires forall i :: 0 <= i < |after| ==> ',' !in after[i]
    ensures forall i :: 0 <= i < |before + ["Date"] + after| ==> ',' !in (before + ["Date"] + after)[i]
  {
    var head := before + ["Date"];
    var fields := head + after;
    forall i | 0 <= i < |fields|
      ensures ',' !in fields[i]
    {
      if i < |before| {
        assert fields[i] == before[i];
      } else if i == |before| {
        assert fields[i] == "Date";
      } else {
        assert fields[i] == after[i - |head|];
      }
    }
  }

  /** A `Date` field followed by further fields is found at its position,
      whatever the line terminator `end`. */
  lemma HeaderDateFound(before: seq<string>, after: seq<string>, end: string)
    requires "Date" !in before && |after| > 0
    requires forall i :: 0 <= i < |before| ==> ',' !in before[i]
    requires forall i :: 0 <= i < |after| ==> ',' !in after[i]
    requires ',' !in end
    ensures HeaderDateIndex(Join(before + ["Date"] + after, ",") + end) == Some(|before|)
  {
    var fields := before + ["Date"] + after;
    CommaFreeAround(before, after);
    SplitHeaderLine(fields, end);
    var read := fields[..|fields| - 1] + [fields[|fields| - 1] + end];
    assert read[..|before|] == before;
    assert read[|before|] == "Date";
    IndexOfFirstDate(read, |before|);
  }

  /** A `Date` field at the end of the header keeps the line terminator
      `end` (`"\n"` or `"\r\n"`) and is not found. */
  lemma HeaderDateLast(before: seq<string>, end: string)
    requires "Date" !in before
    requires forall i :: 0 <= i < |before| ==> ',' !in before[i]
    requires end != "" && ',' !in end
    ensures HeaderDateIndex(Join(before + ["Date"], ",") + end) == None
  {
    CommaFreeAround(before, []);
    var fields := before + ["Date"];
    assert fields == before + ["Date"] + [];
    SplitHeaderLine(fields, end);
    var read := before + ["Date" + end];
    assert fields[..|fields| - 1] == before;
    forall i | 0 <= i < |read|
      ensures read[i] != "Date"
    {
      if i < |before| {
        assert read[i] == before[i];
      } else {
        assert |read[i]| == |"Date"| + |end|;
      }
    }
  }

  // ---------------------------------------------------------------------------
  // expanding a date

  /** `parse_date(date_str)`: `int` of every `-`-separated part; any part
      that is not an integer literal raises `ValueError`. */
  function ParseDate(dateText: string): (r: Result<seq<int>>)
    ensures r.Success? ==> |r.value| == |Split(dateText, '-')|
  {
    ParseInts(Split(dateText, '-'))
  }

  /** `map(int, parts)`. */
  function ParseInts(parts: seq<string>): (r: Result<seq<int>>)
    ensures r.Success? ==> |r.value| == |parts|
    ensures r.Failure? ==> r.error == ValueError
    decreases |parts|
  {
    if |parts| == 0 then Success([])
    else
      var prev :- ParseInts(parts[..|parts| - 1]);
      match ParseInt(parts[|parts| - 1])
      case None => Failure(ValueError)
      case Some(n) => Success(prev + [n])
  }

  /** Parsing one more literal appends its value. */
  lemma ParseIntsAppend(parts: seq<string>, values: seq<int>, last: string, n: int)
    requires ParseInts(parts) == Success(values) && ParseInt(last) == Some(n)
    ensures ParseInts(parts + [last]) == Success(values + [n])
  {
    var longer := parts + [last];
    assert longer[..|longer| - 1] == parts;
    assert longer[|longer| - 1] == last;
  }

  /** Three integer literals parse to their three values. */
  lemma ParseThreeInts(parts: seq<string>, year: int, month: int, day: int)
    requires |parts| == 3
    requires ParseInt(parts[0]) == Some(year) && ParseInt(parts[1]) == Some(month) && ParseInt(parts[2]) == Some(day)
    ensures ParseInts(parts) == Success([year, month, day])
  {
    ParseIntsAppend([], [], parts[0], year);
    assert [] + [parts[0]] == [parts[0]] && [] + [year] == [year];
    ParseIntsAppend([parts[0]], [year], parts[1], month);
    assert [parts[0]] + [parts[1]] == [parts[0], parts[1]] && [year] + [month] == [year, month];
    ParseIntsAppend([parts[0], parts[1]], [year, month], parts[2], day);
    assert [parts[0], parts[1]] + [parts[2]] == parts && [year, month] + [day] == [year, month, day];
  }

  /** A date written as `Y-MM-DD` (the form of the raw files, and of the
      date part of a submission id) parses back to its year, month and day. */
  lemma ParseDateOfDateText(year: nat, month: nat, day: nat)
    ensures ParseDate(Registry.DateText(year, month, day)) == Success([year, month, day])
  {
    Registry.DecodeDateText(year, month, day);
    var parts := Split(Registry.DateText(year, month, day), '-');
    ParseThreeInts(parts, year, month, day);
  }

  /** `process_record`'s change to the record's fields, before it is
      inserted: with a non-zero date index `k` (index 0 is false, so it
      counts as no index) the text at `k` is replaced by the year and the
      month and day are inserted after it. Indexing past the end raises
      `IndexError`; a date without exactly three integer parts raises
      `ValueError`. */
  function ExpandDate(fields: seq<Field>, dateIndex: Option<nat>): (r: Result<seq<Field>>)
    requires AllText(fields)
    ensures r.Failure? ==> r.error == IndexError || r.error == ValueError
    ensures r.Success? ==> |r.value| == if dateIndex.None? || dateIndex.value == 0 then |fields| else |fields| + 2
  {
    if dateIndex.None? || dateIndex.value == 0 then Success(fields)
    else
      var k := dateIndex.value;
      if k >= |fields| then Failure(IndexError)
      else
        var parts :- ParseDate(fields[k].text);
        if |parts| != 3 then Failure(ValueError)
        else Success(Insert(Insert(fields[k := Number(parts[0])], k + 1, Number(parts[1])), k + 2, Number(parts[2])))
  }

  /** Without a date index, or with the `Date` column first, the record
      passes through unchanged. */
  lemma ExpandDateWithoutIndex(fields: seq<Field>, dateIndex: Option<nat>)
    requires AllText(fields)
    requires dateIndex.None? || dateIndex == Some(0)
    ensures ExpandDate(fields, dateIndex) == Success(fields)
  {
  }

  /** With date index `k > 0`, the expansion succeeds exactly when `k` is
      inside the record and its text is three integers joined by `-`; then
      the record grows by two, the fields before `k` are unchanged, year,
      month and day sit at `k`, `k + 1` and `k + 2`, and the fields after
      `k` are shifted right by two. */
  lemma ExpandDateShape(fields: seq<Field>, k: nat)
    requires AllText(fields) && k > 0
    ensures ExpandDate(fields, Some(k)).Success? <==>
      k < |fields| && ParseDate(fields[k].text).Success? && |Split(fields[k].text, '-')| == 3
    ensures ExpandDate(fields, Some(k)).Failure? ==>
      ExpandDate(fields, Some(k)).error == if k >= |fields| then IndexError else ValueError
    ensures ExpandDate(fields, Some(k)).Success? ==>
      var r := ExpandDate(fields, Some(k)).value;
      var date := ParseDate(fields[k].text).value;
      && |r| == |fields| + 2
      && (forall i :: 0 <= i < k ==> r[i] == fields[i])
      && r[k] == Number(date[0]) && r[k + 1] == Number(date[1]) && r[k + 2] == Number(date[2])
      && (forall i :: k < i < |fields| ==> r[i + 2] == fields[i])
  {
    ExpandDateOutcome(fields, k);
    if ExpandDate(fields, Some(k)).Success? {
      ExpandDatePlaces(fields, k);
    }
  }

  lemma ExpandDateOutcome(fields: seq<Field>, k: nat)
    requires AllText(fields) && k > 0
    ensures ExpandDate(fields, Some(k)).Success? <==>
      k < |fields| && ParseDate(fields[k].text).Success? && |Split(fields[k].text, '-')| == 3
    ensures ExpandDate(fields, Some(k)).Failure? ==>
      ExpandDate(fields, Some(k)).error == if k >= |fields| then IndexError else ValueError
  {
    if k < |fields| && ParseDate(fields[k].text).Failure? {
      assert ParseInts(Split(fields[k].text, '-')).error == ValueError;
    }
  }

  lemma ExpandDatePlaces(fields: seq<Field>, k: nat)
    requires AllText(fields) && k > 0
    requires k < |fields| && ParseDate(fields[k].text).Success? && |ParseDate(fields[k].text).value| == 3
    ensures ExpandDate(fields, Some(k)).Success?
    ensures var r := ExpandDate(fields, Some(k)).value;
      var date := ParseDate(fields[k].text).value;
      && |r| == |fields| + 2
      && (forall i :: 0 <= i < k ==> r[i] == fields[i])
      && r[k] == Number(date[0]) && r[k + 1] == Number(date[1]) && r[k + 2] == Number(date[2])
      && (forall i :: k < i < |fields| ==> r[i + 2] == fields[i])
  {
    var date := ParseDate(fields[k].text).value;
    var first := fields[k := Number(date[0])];
    var second := Insert(first, k + 1, Number(date[1]));
    InsertPlaces(first, k + 1, Number(date[1]));
    InsertPlaces(second, k + 2, Number(date[2]));
  }

  // ---------------------------------------------------------------------------
  // the builder objects

  /** A record list that `process_record` changes in place. */
  class Record {
    var fields: seq<Field>

    constructor (cells: seq<string>)
      ensures fields == TextFields(cells)
    {
      fields := TextFields(cells);
    }
  }

  /** The rows the builder inserts, in order, as a value: each record
      expanded and inserted; the first error stops the load. The rows kept
      are those handed to INSERT before the error; since the exception skips
      the commit, none of them is committed, and the commit is not part of
      this model. */
  function InsertAll(inserted: seq<seq<Field>>, rows: seq<seq<string>>, dateIndex: Option<nat>): (r: (seq<seq<Field>>, Outcome))
    ensures inserted <= r.0 && |r.0| <= |inserted| + |rows|
    decreases |rows|
  {
    if |rows| == 0 then (inserted, Done)
    else
      var prev := InsertAll(inserted, rows[..|rows| - 1], dateIndex);
      if prev.1.Raised? then prev
      else
        match ExpandDate(TextFields(rows[|rows| - 1]), dateIndex)
        case Failure(e) => (prev.0, Raised(e))
        case Success(fields) => (prev.0 + [fields], Done)
  }

  /** A load that completes inserts one row per record, in order, each the
      expansion of its record. */
  lemma InsertAllRows(inserted: seq<seq<Field>>, rows: seq<seq<string>>, dateIndex: Option<nat>)
    ensures InsertAll(inserted, rows, dateIndex).1.Done? ==>
      var table := InsertAll(inserted, rows, dateIndex).0;
      && |table| == |inserted| + |rows|
      && table[..|inserted|] == inserted
      && forall i :: 0 <= i < |rows| ==> ExpandDate(TextFields(rows[i]), dateIndex) == Success(table[|inserted| + i])
  {
    InsertAllGrows(inserted, rows, dateIndex);
    InsertAllInOrder(inserted, rows, dateIndex);
  }

  lemma {:induction false} InsertAllGrows(inserted: seq<seq<Field>>, rows: seq<seq<string>>, dateIndex: Option<nat>)
    ensures InsertAll(inserted, rows, dateIndex).1.Done? ==>
      var table := InsertAll(inserted, rows, dateIndex).0;
      |table| == |inserted| + |rows| && table[..|inserted|] == inserted
    decreases |rows|
  {
    if |rows| > 0 && InsertAll(inserted, rows, dateIndex).1.Done? {
      var init := rows[..|rows| - 1];
      InsertAllGrows(inserted, init, dateIndex);
      var prev := InsertAll(inserted, init, dateIndex);
      assert prev.1.Done?;
      var table := InsertAll(inserted, rows, dateIndex).0;
      assert table[..|prev.0|] == prev.0;
      assert table[..|inserted|] == prev.0[..|inserted|];
    }
  }

  lemma {:induction false} InsertAllInOrder(inserted: seq<seq<Field>>, rows: seq<seq<string>>, dateIndex: Option<nat>)
    ensures InsertAll(inserted, rows, dateIndex).1.Done? ==>
      var table := InsertAll(inserted, rows, dateIndex).0;
      && |table| == |inserted| + |rows|
      && forall i :: 0 <= i < |rows| ==> ExpandDate(TextFields(rows[i]), dateIndex) == Success(table[|inserted| + i])
    decreases |rows|
  {
    InsertAllGrows(inserted, rows, dateIndex);
    if |rows| > 0 && InsertAll(inserted, rows, dateIndex).1.Done? {
      var init := rows[..|rows| - 1];
      InsertAllInOrder(inserted, init, dateIndex);
      var prev := InsertAll(inserted, init, dateIndex);
      var last := ExpandDate(TextFields(rows[|rows| - 1]), dateIndex);
      assert prev.1.Done? && last.Success?;
      var table := prev.0 + [last.value];
      assert InsertAll(inserted, rows, dateIndex).0 == table;
      forall i | 0 <= i < |init|
        ensures ExpandDate(TextFields(rows[i]), dateIndex) == Success(table[|inserted| + i])
      {
        assert init[i] == rows[i] && table[|inserted| + i] == prev.0[|inserted| + i];
      }
    }
  }

  /** `TableBuilder`: the date index found in the header and the rows
      inserted so far. */
  class TableBuilder {
    var dateIndex: Option<nat>
    /** The rows handed to `_process_record`'s `INSERT`, in order. */
    var inserted: seq<seq<Field>>

    /** `__init__`: no date index yet, nothing inserted. */
    constructor ()
      ensures dateIndex == None && inserted == []
    {
      dateIndex := None;
      inserted := [];
    }

    /** `process_record(record)`: the date expanded in place, then the
        record inserted. An error leaves both untouched. */
    method ProcessRecord(record: Record) returns (r: Outcome)
      requires AllText(record.fields)
      modifies this, record
      ensures dateIndex == old(dateIndex)
      ensures match ExpandDate(old(record.fields), dateIndex)
        case Failure(e) => r == Raised(e) && record.fields == old(record.fields) && inserted == old(inserted)
        case Success(fields) => r == Done && record.fields == fields && inserted == old(inserted) + [fields]
    {
      if dateIndex.Some? && dateIndex.value != 0 {
        var k := dateIndex.value;
        if k >= |record.fields| {
          return Raised(IndexError);
        }
        var date := ParseDate(record.fields[k].text);
        if date.Failure? {
          return Raised(date.error);
        }
        if |date.value| != 3 {
          return Raised(ValueError);
        }
        var year, month, day := date.value[0], date.value[1], date.value[2];
        record.fields := record.fields[k := Number(year)];
        record.fields := Insert(record.fields, k + 1, Number(month));
        record.fields := Insert(record.fields, k + 2, Number(day));
      }
      inserted := inserted + [record.fields];
      r := Done;
    }

    /** `insert_data`: the date index looked up in the header line, then
        every record after it processed in order. */
    method InsertData(headerLine: string, rows: seq<seq<string>>) returns (r: Outcome)
      modifies this
      ensures dateIndex == HeaderDateIndex(headerLine)
      ensures (inserted, r) == InsertAll(old(inserted), rows, dateIndex)
    {
      var header := Split(headerLine, ',');
      dateIndex := IndexOfDate(header);
      ghost var start := inserted;
      var i := 0;
      while i < |rows|
        invariant 0 <= i <= |rows|
        invariant dateIndex == HeaderDateIndex(headerLine)
        invariant InsertAll(start, rows[..i], dateIndex) == (inserted, Done)
      {
        assert rows[..i + 1][..i] == rows[..i];
        var record := new Record(rows[i]);
        var outcome := ProcessRecord(record);
        if outcome.Raised? {
          InsertAllStops(start, rows, dateIndex, i + 1);
          return outcome;
        }
        i := i + 1;
      }
      assert rows[..i] == rows;
      r := Done;
    }
  }

  /** Once a prefix of the records raises, the load ends there. */
  lemma {:induction false} InsertAllStops(inserted: seq<seq<Field>>, rows: seq<seq<string>>, dateIndex: Option<nat>, k: nat)
    requires k <= |rows|
    requires InsertAll(inserted, rows[..k], dateIndex).1.Raised?
    ensures InsertAll(inserted, rows, dateIndex) == InsertAll(inserted, rows[..k], dateIndex)
    decreases |rows| - k
  {
    if k == |rows| {
      assert rows[..k] == rows;
    } else {
      assert rows[..k + 1][..k] == rows[..k];
      InsertAllStops(inserted, rows, dateIndex, k + 1);
    }
  }
}
