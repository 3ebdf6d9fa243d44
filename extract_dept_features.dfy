/** The per-department feature extractor of extract_dept_features.py: every
    file of a directory (one per store and department) in the 15-field test
    layout or the 16-field train layout becomes a numeric matrix. One
    extractor object serves the whole directory, so its carry-forward state
    passes from each file to the next. */
module DeptFeatures {
  import opened Wrappers
  import opened Records
  import opened Transformers
  import opened Matrices
  import opened Columns
  import opened Text

  // Field positions of `TEST_FEATURES`; `TRAIN_FEATURES` appends `weekly_sales`.
  const TYPE: nat := 0
  const SIZE: nat := 1
  const YEAR: nat := 2
  const MONTH: nat := 3
  const DAY: nat := 4
  const TEMPERATURE: nat := 5
  const FUEL_PRICE: nat := 6
  const MARKDOWN1: nat := 7
  const MARKDOWN2: nat := 8
  const MARKDOWN3: nat := 9
  const MARKDOWN4: nat := 10
  const MARKDOWN5: nat := 11
  const CPI: nat := 12
  const UNEMPLOYMENT: nat := 13
  const IS_HOLIDAY: nat := 14
  const WEEKLY_SALES: nat := 15

  /** `len(TEST_FEATURES)`. */
  const TEST_FIELD_COUNT: nat := 15

  /** `len(TRAIN_FEATURES)` or `len(TEST_FEATURES)`. */
  function FieldCount(train: bool): nat
  {
    if train then TEST_FIELD_COUNT + 1 else TEST_FIELD_COUNT
  }

  // ---------------------------------------------------------------------------
  // one file as a value

  /** The ten stateless columns of `feature_vectors`, in order. Months and
      days go through the plain number transformer here. */
  const LEADING: seq<(nat, ColumnKind)> := [
    (YEAR, NumberKind(MinMax)), (MONTH, NumberKind(MinMax)), (DAY, NumberKind(MinMax)),
    (TEMPERATURE, NumberKind(MinMax)), (FUEL_PRICE, NumberKind(MinMax)),
    (MARKDOWN1, MarkdownKind), (MARKDOWN2, MarkdownKind), (MARKDOWN3, MarkdownKind),
    (MARKDOWN4, MarkdownKind), (MARKDOWN5, MarkdownKind)]

  /** The outputs of the ten stateless transforms, in `feature_vectors` order. */
  function LeadingResults(records: seq<seq<string>>, normalize: bool): (r: seq<Result<seq<real>>>)
    requires HasFields(records, TEST_FIELD_COUNT)
    ensures |r| == 10
  {
    FieldResults(records, normalize, LEADING)
  }

  /** The first five stateless columns are the date and weather fields,
      the last five the markdown fields, in order. */
  lemma LeadingFields()
    ensures forall j :: 0 <= j < 5 ==> LEADING[j] == (j + YEAR, NumberKind(MinMax))
    ensures forall j :: 5 <= j < 10 ==> LEADING[j] == (j + 2, MarkdownKind)
  {
    assert LEADING[..5] == [(2, NumberKind(MinMax)), (3, NumberKind(MinMax)), (4, NumberKind(MinMax)),
      (5, NumberKind(MinMax)), (6, NumberKind(MinMax))];
    assert LEADING[5..] == [(7, MarkdownKind), (8, MarkdownKind), (9, MarkdownKind), (10, MarkdownKind), (11, MarkdownKind)];
  }

  /** The target column of a train file: it goes through `num_transformer`,
      so it is normalized along with everything else when the flag is set. */
  function TargetResult(records: seq<seq<string>>, train: bool, normalize: bool): Result<Option<seq<real>>>
    requires HasFields(records, FieldCount(train))
  {
    if train then
      var target :- NumberField(records, normalize, MinMax, WEEKLY_SALES);
      Success(Some(target))
    else Success(None)
  }

  /** `np.column_stack(feature_vectors)` once every transform has succeeded. */
  function Assemble(records: seq<seq<string>>, leading: seq<seq<real>>, cpis: seq<real>,
                    unemployment: seq<real>, isHoliday: seq<real>, target: Option<seq<real>>): Matrix
    requires |leading| == 10 && forall j :: 0 <= j < 10 ==> |leading[j]| == |records|
    requires |cpis| == |records| && |unemployment| == |records| && |isHoliday| == |records|
    requires target.Some? ==> |target.value| == |records|
  {
    var columns := leading + [cpis, unemployment, isHoliday] + (match target case None => [] case Some(t) => [t]);
    assert forall j :: 0 <= j < |columns| ==> |columns[j]| == |records|;
    ColumnStack(columns, |records|)
  }

  /** `extract_features` on the records of one file as a value: the matrix
      (or the error it raises) and the fill value the shared
      `NonZeroNumTransformer` is left with, starting from `fill`. */
  function Extract(records: seq<seq<string>>, train: bool, normalize: bool, fill: real): (r: (Result<Matrix>, real))
    requires HasFields(records, FieldCount(train))
    ensures r.0.Failure? ==> r.0.error == ValueError
    ensures r.0.Success? ==> |r.0.value.rows| == |records|
  {
    var results := LeadingResults(records, normalize);
    if !AllSucceed(results, 0, 10) then (Failure(ValueError), fill)
    else
      var cpi := CarryForward(ColumnOf(records, CPI), fill);
      match Finish(normalize, MinMax, cpi.0)
      case Failure(e) => (Failure(e), cpi.1)
      case Success(cpis) =>
        var unemployment := CarryForward(ColumnOf(records, UNEMPLOYMENT), cpi.1);
        match Finish(normalize, MinMax, unemployment.0)
        case Failure(e) => (Failure(e), unemployment.1)
        case Success(unemp) =>
          match BooleanTransform(normalize, ColumnOf(records, IS_HOLIDAY))
          case Failure(e) => (Failure(e), unemployment.1)
          case Success(isHoliday) =>
            match TargetResult(records, train, normalize)
            case Failure(e) => (Failure(e), unemployment.1)
            case Success(target) =>
              ExtractLengths(records, train, normalize, fill);
              (Success(Assemble(records, Values(results, 0, 10), cpis, unemp, isHoliday, target)), unemployment.1)
  }

  /** Every successful transform of a file has one entry per record. */
  lemma ExtractLengths(records: seq<seq<string>>, train: bool, normalize: bool, fill: real)
    requires HasFields(records, FieldCount(train))
    ensures var results := LeadingResults(records, normalize);
      forall j :: 0 <= j < 10 && results[j].Success? ==> |results[j].value| == |records|
    ensures var cpi := CarryForward(ColumnOf(records, CPI), fill);
      && (Finish(normalize, MinMax, cpi.0).Success? ==> |Finish(normalize, MinMax, cpi.0).value| == |records|)
      && var unemployment := Finish(normalize, MinMax, CarryForward(ColumnOf(records, UNEMPLOYMENT), cpi.1).0);
         unemployment.Success? ==> |unemployment.value| == |records|
    ensures var isHoliday := BooleanTransform(normalize, ColumnOf(records, IS_HOLIDAY));
      isHoliday.Success? ==> |isHoliday.value| == |records|
    ensures var target := TargetResult(records, train, normalize);
      target.Success? && target.value.Some? ==> |target.value.value| == |records|
  {
    FieldResultsLength(records, normalize, LEADING);
    CarriedLength(normalize, ColumnOf(records, CPI), fill);
    CarriedLength(normalize, ColumnOf(records, UNEMPLOYMENT), CarryForward(ColumnOf(records, CPI), fill).1);
    BooleanTransformLength(normalize, ColumnOf(records, IS_HOLIDAY));
    if train {
      NumberFieldLength(records, normalize, MinMax, WEEKLY_SALES);
    }
  }

  /** `extract_features(filename)`: read the file, then extract; at most one
      row per line. */
  function ExtractFile(lines: seq<string>, normalize: bool, fill: real): (r: (Result<Matrix>, real))
    ensures r.0.Failure? ==> r.0.error == ValueError
    ensures r.0.Success? ==> |r.0.value.rows| <= |lines|
  {
    ReadErrorIsValueError(lines, TEST_FIELD_COUNT);
    match Read(lines, TEST_FIELD_COUNT)
    case Failure(e) => (Failure(e), fill)
    case Success(read) =>
      ReadHasFields(lines, TEST_FIELD_COUNT);
      Extract(read.0, read.1, normalize, fill)
  }

  /** Where a directory run stands: the matrices written so far (one `.num`
      file each, in listing order), the error that stopped the loop if any,
      and the shared extractor's fill value. */
  datatype Run = Run(written: seq<Matrix>, error: Option<Error>, fill: real)

  /** What extracting one file does from the fill value it starts with: the
      matrix or the error, and the fill value it leaves behind. */
  type FileExtraction = (seq<string>, real) -> (Result<Matrix>, real)

  /** `extractor.extract_features` for an extractor built with `normalize`. */
  function Extractor(normalize: bool): FileExtraction
  {
    (lines, fill) => ExtractFile(lines, normalize, fill)
  }

  /** One pass of the loop of `main`: a stopped run stays as it is; otherwise
      the file is extracted from the run's fill value and its matrix written,
      or its error stops the run. */
  function Step(prev: Run, lines: seq<string>, extract: FileExtraction): Run
  {
    if prev.error.Some? then prev
    else
      var current := extract(lines, prev.fill);
      match current.0
      case Failure(e) => Run(prev.written, Some(e), current.1)
      case Success(m) => Run(prev.written + [m], None, current.1)
  }

  /** The loop of `main` as a value: every file in turn through one extractor,
      each starting from the fill value the previous one left. Each matrix is
      written before the next file is read, so an error keeps what was
      written before it and stops the loop. */
  function RunFiles(files: seq<seq<string>>, extract: FileExtraction, fill: real): Run
    decreases |files|
  {
    if |files| == 0 then Run([], None, fill)
    else Step(RunFiles(files[..|files| - 1], extract, fill), files[|files| - 1], extract)
  }

  /** A run stops only on an error its extraction raises. */
  lemma {:induction false} RunFilesErrorKind(files: seq<seq<string>>, extract: FileExtraction, fill: real, e: Error)
    requires forall lines, f :: extract(lines, f).0.Failure? ==> extract(lines, f).0.error == e
    ensures RunFiles(files, extract, fill).error.Some? ==> RunFiles(files, extract, fill).error.value == e
    decreases |files|
  {
    if |files| > 0 {
      RunFilesErrorKind(files[..|files| - 1], extract, fill, e);
    }
  }

  /** `main`'s loop with the extractor of this file. The only error that
      stops it is `ValueError`. */
  function ExtractAll(files: seq<seq<string>>, normalize: bool, fill: real): (r: Run)
    ensures r.error.Some? ==> r.error.value == ValueError
  {
    RunFilesErrorKind(files, Extractor(normalize), fill, ValueError);
    RunFiles(files, Extractor(normalize), fill)
  }

  // ---------------------------------------------------------------------------
  // properties of one file

  /** The CPI column's transform, starting from fill value `fill`. */
  function CpiResult(records: seq<seq<string>>, normalize: bool, fill: real): Result<seq<real>>
    requires HasFields(records, TEST_FIELD_COUNT)
  {
    Finish(normalize, MinMax, CarryForward(ColumnOf(records, CPI), fill).0)
  }

  /** The unemployment column's transform: it starts from the fill value the
      CPI column left behind. */
  function UnemploymentResult(records: seq<seq<string>>, normalize: bool, fill: real): Result<seq<real>>
    requires HasFields(records, TEST_FIELD_COUNT)
  {
    Finish(normalize, MinMax,
      CarryForward(ColumnOf(records, UNEMPLOYMENT), CarryForward(ColumnOf(records, CPI), fill).1).0)
  }

  /** The stacked matrix has one row per record and 13 columns, 14 for a
      train file: the ten stateless columns in source order, then CPI,
      unemployment, `is_holiday` and, in a train file, the target. */
  lemma AssembleLayout(records: seq<seq<string>>, leading: seq<seq<real>>, cpis: seq<real>,
                       unemployment: seq<real>, isHoliday: seq<real>, target: Option<seq<real>>)
    requires |leading| == 10 && forall j :: 0 <= j < 10 ==> |leading[j]| == |records|
    requires |cpis| == |records| && |unemployment| == |records| && |isHoliday| == |records|
    requires target.Some? ==> |target.value| == |records|
    ensures var m := Assemble(records, leading, cpis, unemployment, isHoliday, target);
      && m.Shaped()
      && |m.rows| == |records|
      && m.width == 13 + (if target.Some? then 1 else 0)
      && (forall j :: 0 <= j < 10 ==> ColumnOf(m.rows, j) == leading[j])
      && ColumnOf(m.rows, 10) == cpis
      && ColumnOf(m.rows, 11) == unemployment
      && ColumnOf(m.rows, 12) == isHoliday
      && (target.Some? ==> ColumnOf(m.rows, 13) == target.value)
  {
    var columns := leading + [cpis, unemployment, isHoliday] + (match target case None => [] case Some(t) => [t]);
    assert forall j :: 0 <= j < |columns| ==> |columns[j]| == |records|;
    ColumnStackColumns(columns, |records|);
  }

  /** A successful extraction stacks every transform's output in source
      order (the store's `type` and `size` are never among them) and leaves
      the carry-forward state where the CPI column followed by the
      unemployment column leaves it. */
  lemma ExtractLayout(records: seq<seq<string>>, train: bool, normalize: bool, fill: real)
    requires HasFields(records, FieldCount(train))
    requires Extract(records, train, normalize, fill).0.Success?
    ensures var results := LeadingResults(records, normalize);
      && AllSucceed(results, 0, 10)
      && CpiResult(records, normalize, fill).Success?
      && UnemploymentResult(records, normalize, fill).Success?
      && BooleanTransform(normalize, ColumnOf(records, IS_HOLIDAY)).Success?
      && (train ==> NumberField(records, normalize, MinMax, WEEKLY_SALES).Success?)
    ensures Extract(records, train, normalize, fill).1 ==
      CarryForward(ColumnOf(records, CPI) + ColumnOf(records, UNEMPLOYMENT), fill).1
    ensures var m := Extract(records, train, normalize, fill).0.value;
      var results := LeadingResults(records, normalize);
      && m.Shaped()
      && |m.rows| == |records|
      && m.width == 13 + (if train then 1 else 0)
      && (forall j :: 0 <= j < 10 ==> results[j].Success? && ColumnOf(m.rows, j) == results[j].value)
      && ColumnOf(m.rows, 10) == CpiResult(records, normalize, fill).value
      && ColumnOf(m.rows, 11) == UnemploymentResult(records, normalize, fill).value
      && ColumnOf(m.rows, 12) == BooleanTransform(normalize, ColumnOf(records, IS_HOLIDAY)).value
      && (train ==> ColumnOf(m.rows, 13) == NumberField(records, normalize, MinMax, WEEKLY_SALES).value)
  {
    CarryForwardAppend(ColumnOf(records, CPI), ColumnOf(records, UNEMPLOYMENT), fill);
    ExtractLengths(records, train, normalize, fill);
    var results := LeadingResults(records, normalize);
    AssembleLayout(records, Values(results, 0, 10), CpiResult(records, normalize, fill).value,
      UnemploymentResult(records, normalize, fill).value,
      BooleanTransform(normalize, ColumnOf(records, IS_HOLIDAY)).value,
      TargetResult(records, train, normalize).value);
  }

  /** The store's `type` and `size` fields are read but never used: records
      that agree on every other field extract identically. */
  lemma ExtractIgnoresTypeAndSize(records: seq<seq<string>>, others: seq<seq<string>>,
                                  train: bool, normalize: bool, fill: real)
    requires HasFields(records, FieldCount(train)) && HasFields(others, FieldCount(train))
    requires |records| == |others|
    requires forall i, k :: 0 <= i < |records| && YEAR <= k < FieldCount(train) ==> records[i][k] == others[i][k]
    ensures Extract(records, train, normalize, fill) == Extract(others, train, normalize, fill)
  {
    forall k | YEAR <= k < FieldCount(train)
      ensures ColumnOf(records, k) == ColumnOf(others, k)
    {
    }
    assert LeadingResults(records, normalize) == LeadingResults(others, normalize);
  }

  /** Every markdown cell is `NA` or a number. */
  predicate MarkdownsParse(records: seq<seq<string>>)
    requires HasFields(records, TEST_FIELD_COUNT)
  {
    forall i, k :: 0 <= i < |records| && MARKDOWN1 <= k <= MARKDOWN5 ==> MarkdownValue(records[i][k]).Some?
  }

  /** Without normalization the extraction fails exactly when a markdown cell
      is neither `NA` nor a number or an `is_holiday` cell is neither `TRUE`
      nor `FALSE`, and then with `ValueError`. */
  lemma ExtractUnnormalizedOutcome(records: seq<seq<string>>, train: bool, fill: real)
    requires HasFields(records, FieldCount(train))
    ensures Extract(records, train, false, fill).0.Success? <==>
      && MarkdownsParse(records)
      && forall i :: 0 <= i < |records| ==> BooleanValue(records[i][IS_HOLIDAY]).Some?
    ensures Extract(records, train, false, fill).0.Failure? ==> Extract(records, train, false, fill).0.error == ValueError
  {
    UnnormalizedLeading(records);
    if MarkdownsParse(records) && !(forall i :: 0 <= i < |records| ==> BooleanValue(records[i][IS_HOLIDAY]).Some?) {
      var i :| 0 <= i < |records| && BooleanValue(records[i][IS_HOLIDAY]).None?;
      assert ColumnOf(records, IS_HOLIDAY)[i] == records[i][IS_HOLIDAY];
    }
  }

  /** Without normalization the ten leading columns succeed exactly when
      every markdown cell parses. */
  lemma UnnormalizedLeading(records: seq<seq<string>>)
    requires HasFields(records, TEST_FIELD_COUNT)
    ensures AllSucceed(LeadingResults(records, false), 0, 10) <==> MarkdownsParse(records)
  {
    var results := LeadingResults(records, false);
    LeadingFields();
    forall j | 0 <= j < 10
      ensures results[j].Success? <==> j < 5 || forall i :: 0 <= i < |records| ==> MarkdownValue(records[i][j + 2]).Some?
    {
      if j < 5 {
        assert results[j] == NumberField(records, false, MinMax, j + YEAR);
      } else {
        assert results[j] == MarkdownTransform(false, ColumnOf(records, j + 2));
        assert forall i :: 0 <= i < |records| ==> ColumnOf(records, j + 2)[i] == records[i][j + 2];
      }
    }
    if !MarkdownsParse(records) {
      var i, k :| 0 <= i < |records| && MARKDOWN1 <= k <= MARKDOWN5 && MarkdownValue(records[i][k]).None?;
      assert !results[k - 2].Success?;
    }
  }

  /** With normalization on, a file without records raises `ValueError` at
      the first column and leaves the carry-forward state alone. */
  lemma ExtractEmptyNormalized(train: bool, fill: real)
    ensures Extract([], train, true, fill) == (Failure(ValueError), fill)
  {
    var results := LeadingResults([], true);
    assert results[0] == NumberField([], true, MinMax, YEAR);
    assert !AllSucceed(results, 0, 10);
  }

  /** Without normalization row `i` of a train file ends with record `i`'s
      weekly sales, parsed (0 where it does not parse). */
  lemma ExtractRowTarget(records: seq<seq<string>>, fill: real, i: nat)
    requires HasFields(records, FieldCount(true))
    requires Extract(records, true, false, fill).0.Success?
    requires i < |records|
    ensures var m := Extract(records, true, false, fill).0.value;
      && |m.rows| == |records| && |m.rows[i]| == m.width == 14
      && m.rows[i][13] == ParseOr(records[i][WEEKLY_SALES], 0.0)
  {
    var m := Extract(records, true, false, fill).0.value;
    ExtractLayout(records, true, false, fill);
    assert ColumnOf(m.rows, 13)[i] == m.rows[i][13];
  }

  /** Unlike the full-table extractor, the target of a train file goes
      through the normalizing number transformer: with normalization on,
      every weekly-sales entry lies in [0, 1]. */
  lemma ExtractTargetNormalized(records: seq<seq<string>>, fill: real, i: nat)
    requires HasFields(records, FieldCount(true))
    requires Extract(records, true, true, fill).0.Success?
    requires i < |records|
    ensures var m := Extract(records, true, true, fill).0.value;
      && |m.rows| == |records| && |m.rows[i]| == m.width == 14
      && 0.0 <= m.rows[i][13] <= 1.0
  {
    var m := Extract(records, true, true, fill).0.value;
    ExtractLayout(records, true, true, fill);
    NormalizeColumnInUnitInterval(NumberColumn(ColumnOf(records, WEEKLY_SALES), 0.0));
    assert ColumnOf(m.rows, 13)[i] == m.rows[i][13];
  }

  /** Without normalization, while no CPI cell of the file has parsed yet,
      the CPI entry of a row is the fill value the extractor came in with:
      the last number an earlier column or an earlier file parsed. */
  lemma ExtractRowCpiCarriedIn(records: seq<seq<string>>, train: bool, fill: real, i: nat)
    requires HasFields(records, FieldCount(train))
    requires Extract(records, train, false, fill).0.Success?
    requires i < |records|
    requires forall k :: 0 <= k <= i ==> ParseNum(records[k][CPI]).None?
    ensures var m := Extract(records, train, false, fill).0.value;
      && |m.rows| == |records| && |m.rows[i]| == m.width >= 13
      && m.rows[i][10] == fill
  {
    var m := Extract(records, train, false, fill).0.value;
    ExtractLayout(records, train, false, fill);
    var col := ColumnOf(records, CPI);
    assert forall k :: 0 <= k <= i ==> col[k] == records[k][CPI];
    CarryForwardUnparsedPrefix(col, fill, i);
    assert ColumnOf(m.rows, 10)[i] == m.rows[i][10];
  }

  // ---------------------------------------------------------------------------
  // properties of a directory run

  /** The run writes one matrix per file in listing order until the first
      failure: file `k` is extracted starting from the fill value the files
      before it left, and an error names the file after the last one
      written. */
  lemma ExtractAllWritten(files: seq<seq<string>>, normalize: bool, fill: real)
    ensures var run := ExtractAll(files, normalize, fill);
      && |run.written| <= |files|
      && (run.error.None? <==> |run.written| == |files|)
      && (forall k :: 0 <= k < |run.written| ==>
            ExtractFile(files[k], normalize, ExtractAll(files[..k], normalize, fill).fill).0 == Success(run.written[k]))
      && (run.error.Some? ==>
            var w := |run.written|;
            ExtractFile(files[w], normalize, ExtractAll(files[..w], normalize, fill).fill) == (Failure(run.error.value), run.fill))
  {
    RunFilesStopsAt(files, Extractor(normalize), fill);
    RunFilesInOrder(files, Extractor(normalize), fill);
  }

  /** A run writes at most one matrix per file, finishes exactly when it
      wrote them all, and otherwise stops at the first file whose extraction
      failed, keeping that file's error and fill value. */
  lemma {:induction false} RunFilesStopsAt(files: seq<seq<string>>, extract: FileExtraction, fill: real)
    ensures var run := RunFiles(files, extract, fill);
      && |run.written| <= |files|
      && (run.error.None? <==> |run.written| == |files|)
      && (run.error.Some? ==>
            var w := |run.written|;
            extract(files[w], RunFiles(files[..w], extract, fill).fill) == (Failure(run.error.value), run.fill))
    decreases |files|
  {
    if |files| > 0 {
      var init := files[..|files| - 1];
      var prev := RunFiles(init, extract, fill);
      var run := RunFiles(files, extract, fill);
      assert run == Step(prev, files[|files| - 1], extract);
      RunFilesStopsAt(init, extract, fill);
      if prev.error.Some? {
        var w := |run.written|;
        assert files[w] == init[w] && files[..w] == init[..w];
      } else if extract(files[|files| - 1], prev.fill).0.Failure? {
        assert files[..|run.written|] == init;
      }
    }
  }

  /** Matrix `k` of a run is the extraction of file `k` from the fill value
      the files before it left. */
  lemma {:induction false} RunFilesInOrder(files: seq<seq<string>>, extract: FileExtraction, fill: real)
    ensures var run := RunFiles(files, extract, fill);
      && |run.written| <= |files|
      && (forall k :: 0 <= k < |run.written| ==>
            extract(files[k], RunFiles(files[..k], extract, fill).fill).0 == Success(run.written[k]))
    decreases |files|
  {
    RunFilesStopsAt(files, extract, fill);
    if |files| > 0 {
      var init := files[..|files| - 1];
      var prev := RunFiles(init, extract, fill);
      var run := RunFiles(files, extract, fill);
      assert run == Step(prev, files[|files| - 1], extract);
      RunFilesInOrder(init, extract, fill);
      RunFilesStopsAt(init, extract, fill);
      forall k | 0 <= k < |run.written|
        ensures extract(files[k], RunFiles(files[..k], extract, fill).fill).0 == Success(run.written[k])
      {
        if k < |prev.written| {
          assert files[k] == init[k] && files[..k] == init[..k];
          assert run.written[k] == prev.written[k];
        } else {
          assert prev.error.None? && k == |init| && files[..k] == init;
        }
      }
    }
  }

  /** Files after a failure are never read: the run of a longer listing
      stops where the shorter one did. */
  lemma {:induction false} RunFilesStops(files: seq<seq<string>>, more: seq<seq<string>>, extract: FileExtraction, fill: real)
    requires RunFiles(files, extract, fill).error.Some?
    ensures RunFiles(files + more, extract, fill) == RunFiles(files, extract, fill)
    decreases |more|
  {
    if |more| > 0 {
      var init := more[..|more| - 1];
      RunFilesStops(files, init, extract, fill);
      assert (files + more)[..|files + more| - 1] == files + init;
    } else {
      assert files + more == files;
    }
  }

  // ---------------------------------------------------------------------------
  // the extractor object

  /** `NumericalFeatureExtractor` of extract_dept_features.py: the four
      transformers it owns, of which only the carry-forward one has state. */
  class NumericalFeatureExtractor {
    /** The `normalize` flag every transformer was built with. */
    ghost const normalize: bool
    const markdownTransformer: MarkdownTransformer
    const numTransformer: NumberTransformer
    const nonzeronumTransformer: NonZeroNumTransformer
    const booleanEncoder: BooleanEncoder

    /** The transformers are configured as `__init__` configures them. */
    ghost predicate Valid()
    {
      && markdownTransformer.normalize == normalize
      && numTransformer.normalize == normalize && numTransformer.rule == MinMax && numTransformer.fillVal == 0.0
      && nonzeronumTransformer.normalize == normalize
      && booleanEncoder.normalize == normalize
    }

    /** `__init__`. */
    constructor (normalize: bool)
      ensures Valid() && this.normalize == normalize
      ensures fresh(nonzeronumTransformer) && nonzeronumTransformer.fillVal == 0.0
    {
      this.normalize := normalize;
      markdownTransformer := new MarkdownTransformer(normalize);
      numTransformer := new NumberTransformer(0.0, normalize, MinMax);
      nonzeronumTransformer := new NonZeroNumTransformer(0.0, normalize);
      booleanEncoder := new BooleanEncoder(normalize);
    }

    /** `self.num_transformer.transform(get_column(k))` for a date or
        weather field `k`. */
    method NumberTransform(records: seq<seq<string>>, k: nat) returns (r: Result<seq<real>>)
      requires Valid() && HasFields(records, TEST_FIELD_COUNT) && YEAR <= k <= FUEL_PRICE
      ensures r == LeadingResults(records, normalize)[k - YEAR]
    {
      LeadingFields();
      r := numTransformer.Transform(ColumnOf(records, k));
    }

    /** `self.markdown_transformer.transform(get_column(k))` for a markdown
        field `k`. */
    method MarkdownTransform(records: seq<seq<string>>, k: nat) returns (r: Result<seq<real>>)
      requires Valid() && HasFields(records, TEST_FIELD_COUNT) && MARKDOWN1 <= k <= MARKDOWN5
      ensures r == LeadingResults(records, normalize)[k - 2]
    {
      LeadingFields();
      r := markdownTransformer.Transform(ColumnOf(records, k));
    }

    /** `years`, `months`, `days`, `temps` and `fuel_prices`, in source order. */
    method DateAndWeatherTransforms(records: seq<seq<string>>) returns (r: Result<seq<seq<real>>>)
      requires Valid() && HasFields(records, TEST_FIELD_COUNT)
      ensures var results := LeadingResults(records, normalize);
        && (r.Success? <==> AllSucceed(results, 0, 5))
        && (r.Failure? ==> r.error == ValueError)
        && (r.Success? ==> r.value == Values(results, 0, 5))
    {
      ghost var results := LeadingResults(records, normalize);
      var years := NumberTransform(records, YEAR);
      if years.Failure? { return Failure(ValueError); }
      var months := NumberTransform(records, MONTH);
      if months.Failure? { return Failure(ValueError); }
      var days := NumberTransform(records, DAY);
      if days.Failure? { return Failure(ValueError); }
      var temps := NumberTransform(records, TEMPERATURE);
      if temps.Failure? { return Failure(ValueError); }
      var fuelPrices := NumberTransform(records, FUEL_PRICE);
      if fuelPrices.Failure? { return Failure(ValueError); }
      ValuesOfFive(results, 0);
      r := Success([years.value, months.value, days.value, temps.value, fuelPrices.value]);
    }

    /** `markdown1` through `markdown5`, in source order. */
    method MarkdownTransforms(records: seq<seq<string>>) returns (r: Result<seq<seq<real>>>)
      requires Valid() && HasFields(records, TEST_FIELD_COUNT)
      ensures var results := LeadingResults(records, normalize);
        && (r.Success? <==> AllSucceed(results, 5, 10))
        && (r.Failure? ==> r.error == ValueError)
        && (r.Success? ==> r.value == Values(results, 5, 10))
    {
      ghost var results := LeadingResults(records, normalize);
      var markdown1 := MarkdownTransform(records, MARKDOWN1);
      if markdown1.Failure? { return Failure(ValueError); }
      var markdown2 := MarkdownTransform(records, MARKDOWN2);
      if markdown2.Failure? { return Failure(ValueError); }
      var markdown3 := MarkdownTransform(records, MARKDOWN3);
      if markdown3.Failure? { return Failure(ValueError); }
      var markdown4 := MarkdownTransform(records, MARKDOWN4);
      if markdown4.Failure? { return Failure(ValueError); }
      var markdown5 := MarkdownTransform(records, MARKDOWN5);
      if markdown5.Failure? { return Failure(ValueError); }
      ValuesOfFive(results, 5);
      r := Success([markdown1.value, markdown2.value, markdown3.value, markdown4.value, markdown5.value]);
    }

    /** The body of `extract_features` once the records are read: every
        transform in source order, the target appended for a train file,
        the columns stacked. */
    method TransformRecords(records: seq<seq<string>>, train: bool) returns (r: Result<Matrix>)
      requires Valid() && HasFields(records, FieldCount(train))
      modifies nonzeronumTransformer
      ensures (r, nonzeronumTransformer.fillVal) == Extract(records, train, normalize, old(nonzeronumTransformer.fillVal))
    {
      ghost var fill := nonzeronumTransformer.fillVal;
      ghost var results := LeadingResults(records, normalize);
      var first := DateAndWeatherTransforms(records);
      if first.Failure? {
        return Failure(ValueError);
      }
      var markdowns := MarkdownTransforms(records);
      if markdowns.Failure? {
        return Failure(ValueError);
      }
      ValuesSplit(results, 0, 5, 10);
      assert first.value + markdowns.value == Values(results, 0, 10);
      var cpis := nonzeronumTransformer.Transform(ColumnOf(records, CPI));
      if cpis.Failure? {
        return Failure(cpis.error);
      }
      var unemployment := nonzeronumTransformer.Transform(ColumnOf(records, UNEMPLOYMENT));
      if unemployment.Failure? {
        return Failure(unemployment.error);
      }
      var isHoliday := booleanEncoder.Transform(ColumnOf(records, IS_HOLIDAY));
      if isHoliday.Failure? {
        return Failure(isHoliday.error);
      }
      var target: Option<seq<real>> := None;
      if train {
        var weeklySales := numTransformer.Transform(ColumnOf(records, WEEKLY_SALES));
        if weeklySales.Failure? {
          return Failure(weeklySales.error);
        }
        target := Some(weeklySales.value);
      }
      ExtractLengths(records, train, normalize, fill);
      assert target == TargetResult(records, train, normalize).value;
      var leading := first.value + markdowns.value;
      r := Success(Assemble(records, leading, cpis.value, unemployment.value, isHoliday.value, target));
    }

    /** `extract_features(filename)`: read the file's lines, then transform. */
    method ExtractFeatures(lines: seq<string>) returns (r: Result<Matrix>)
      requires Valid()
      modifies nonzeronumTransformer
      ensures (r, nonzeronumTransformer.fillVal) == ExtractFile(lines, normalize, old(nonzeronumTransformer.fillVal))
    {
      var read := ReadRecords(lines, TEST_FIELD_COUNT);
      if read.Failure? {
        return Failure(read.error);
      }
      ReadHasFields(lines, TEST_FIELD_COUNT);
      r := TransformRecords(read.value.0, read.value.1);
    }

    /** The loop of `main`: every file of the listing through this one
        extractor, writing each matrix before reading the next file. */
    method ExtractDirectory(files: seq<seq<string>>) returns (written: seq<Matrix>, error: Option<Error>)
      requires Valid()
      modifies nonzeronumTransformer
      ensures Run(written, error, nonzeronumTransformer.fillVal) == ExtractAll(files, normalize, old(nonzeronumTransformer.fillVal))
    {
      ghost var fill := nonzeronumTransformer.fillVal;
      written, error := [], None;
      var i := 0;
      while i < |files| && error.None?
        invariant 0 <= i <= |files|
        invariant Run(written, error, nonzeronumTransformer.fillVal) == ExtractAll(files[..i], normalize, fill)
      {
        assert files[..i + 1][..i] == files[..i];
        var featureVectors := ExtractFeatures(files[i]);
        if featureVectors.Failure? {
          error := Some(featureVectors.error);
        } else {
          written := written + [featureVectors.value];
        }
        i := i + 1;
      }
      if error.Some? {
        RunFilesStops(files[..i], files[i..], Extractor(normalize), fill);
        assert files[..i] + files[i..] == files;
      } else {
        assert files[..i] == files;
      }
    }
  }

  /** `main`: one unnormalized extractor for the whole listing. */
  method ProcessDirectory(files: seq<seq<string>>) returns (written: seq<Matrix>, error: Option<Error>)
    ensures (written, error) == (ExtractAll(files, false, 0.0).written, ExtractAll(files, false, 0.0).error)
  {
    var extractor := new NumericalFeatureExtractor(false);
    written, error := extractor.ExtractDirectory(files);
  }
}
