/** The whole-file feature extractor of extract_features.py: one CSV extract
    in the 17-field test layout or the 18-field train layout becomes one
    numeric matrix, one row per record. */
module FullFeatures {
  import opened Wrappers
  import opened Records
  import opened Transformers
  import opened Matrices
  import opened Lists
  import opened Columns

  // Field positions of `TEST_FEATURES`; `TRAIN_FEATURES` appends `weekly_sales`.
  const STORE_ID: nat := 0
  const DEPT_ID: nat := 1
  const TYPE: nat := 2
  const SIZE: nat := 3
  const YEAR: nat := 4
  const MONTH: nat := 5
  const DAY: nat := 6
  const TEMPERATURE: nat := 7
  const FUEL_PRICE: nat := 8
  const MARKDOWN1: nat := 9
  const MARKDOWN2: nat := 10
  const MARKDOWN3: nat := 11
  const MARKDOWN4: nat := 12
  const MARKDOWN5: nat := 13
  const CPI: nat := 14
  const UNEMPLOYMENT: nat := 15
  const IS_HOLIDAY: nat := 16
  const WEEKLY_SALES: nat := 17

  /** `len(TEST_FEATURES)`. */
  const TEST_FIELD_COUNT: nat := 17

  /** `len(TRAIN_FEATURES)` or `len(TEST_FEATURES)`. */
  function FieldCount(train: bool): nat
  {
    if train then TEST_FIELD_COUNT + 1 else TEST_FIELD_COUNT
  }

  /** The number of output columns the extractor emits besides the one-hot block. */
  const BASE_COLUMNS: nat := 16

  // ---------------------------------------------------------------------------
  // the extraction as a value

  /** The thirteen stateless columns of `feature_vectors`, in order: the
      field each is read from and how it is transformed. */
  const LEADING: seq<(nat, ColumnKind)> := [
    (STORE_ID, NumberKind(MinMax)), (DEPT_ID, NumberKind(MinMax)), (SIZE, NumberKind(MinMax)),
    (YEAR, NumberKind(MinMax)), (MONTH, NumberKind(Month)), (DAY, NumberKind(Day)),
    (TEMPERATURE, NumberKind(MinMax)), (FUEL_PRICE, NumberKind(MinMax)),
    (MARKDOWN1, MarkdownKind), (MARKDOWN2, MarkdownKind), (MARKDOWN3, MarkdownKind),
    (MARKDOWN4, MarkdownKind), (MARKDOWN5, MarkdownKind)]

  /** The outputs of the thirteen stateless transforms, in `feature_vectors` order. */
  function LeadingResults(records: seq<seq<string>>, normalize: bool): (r: seq<Result<seq<real>>>)
    requires HasFields(records, TEST_FIELD_COUNT)
    ensures |r| == 13
  {
    FieldResults(records, normalize, LEADING)
  }

  /** What `extract_features` has computed before it reaches the CPI column:
      the thirteen plain columns in `feature_vectors` order and the one-hot matrix. */
  datatype Leading = Leading(columns: seq<seq<real>>, types: seq<seq<real>>)

  /** The transforms of `extract_features` up to `markdown5`. None of them
      touches transformer state and every one of them fails with `ValueError`,
      so the first failure in source order and any failure are the same outcome. */
  function LeadingColumns(records: seq<seq<string>>, normalize: bool): Result<Leading>
    requires HasFields(records, TEST_FIELD_COUNT)
  {
    var results := LeadingResults(records, normalize);
    var types := OneHotTransform(normalize, ColumnOf(records, TYPE));
    if types.Success? && AllSucceed(results, 0, 13) then Success(Leading(Values(results, 0, 13), types.value))
    else Failure(ValueError)
  }

  /** The first eight stateless columns go through number transformers,
      the last five are the markdown fields, in order. */
  lemma LeadingMarkdownFields()
    ensures forall j :: 0 <= j < 8 ==> LEADING[j].1.NumberKind?
    ensures forall j :: 8 <= j < 13 ==> LEADING[j] == (j + 1, MarkdownKind)
  {
    assert forall j :: 0 <= j < 8 ==> LEADING[..8][j] == LEADING[j];
    assert LEADING[8..] == [(9, MarkdownKind), (10, MarkdownKind), (11, MarkdownKind), (12, MarkdownKind), (13, MarkdownKind)];
  }

  /** Where field `k` sits among the thirteen stateless columns (every
      field up to `markdown5` except `type`), and how it is transformed. */
  lemma LeadingEntry(k: nat)
    requires k <= MARKDOWN5 && k != TYPE
    ensures var j := if k < TYPE then k else k - 1;
      && j < 13
      && LEADING[j] == (k, if k == MONTH then NumberKind(Month) else if k == DAY then NumberKind(Day)
                          else if k >= MARKDOWN1 then MarkdownKind else NumberKind(MinMax))
  {
    LeadingMarkdownFields();
    if k < MARKDOWN1 {
      assert LEADING[..8] == [(STORE_ID, NumberKind(MinMax)), (DEPT_ID, NumberKind(MinMax)), (SIZE, NumberKind(MinMax)),
        (YEAR, NumberKind(MinMax)), (MONTH, NumberKind(Month)), (DAY, NumberKind(Day)),
        (TEMPERATURE, NumberKind(MinMax)), (FUEL_PRICE, NumberKind(MinMax))];
      assert LEADING[if k < TYPE then k else k - 1] == LEADING[..8][if k < TYPE then k else k - 1];
    }
  }

  /** Each stateless transform has one entry per record when it succeeds. */
  lemma LeadingResultsLength(records: seq<seq<string>>, normalize: bool)
    requires HasFields(records, TEST_FIELD_COUNT)
    ensures forall j :: 0 <= j < 13 && LeadingResults(records, normalize)[j].Success? ==>
      |LeadingResults(records, normalize)[j].value| == |records|
  {
    FieldResultsLength(records, normalize, LEADING);
  }

  /** The leading columns are the thirteen transforms' outputs and the
      one-hot matrix is the `type` column's transform. */
  lemma LeadingColumnsValue(records: seq<seq<string>>, normalize: bool)
    requires HasFields(records, TEST_FIELD_COUNT)
    requires LeadingColumns(records, normalize).Success?
    ensures var lead, leading := LeadingColumns(records, normalize).value, LeadingResults(records, normalize);
      && (forall j :: 0 <= j < 13 ==> leading[j].Success? && lead.columns[j] == leading[j].value)
      && OneHotTransform(normalize, ColumnOf(records, TYPE)) == Success(lead.types)
  {
  }

  /** The leading columns are all one entry per record, and the one-hot
      matrix has one row per record, as wide as the `type` vocabulary. */
  lemma LeadingShape(records: seq<seq<string>>, normalize: bool)
    requires HasFields(records, TEST_FIELD_COUNT)
    requires LeadingColumns(records, normalize).Success?
    ensures var lead := LeadingColumns(records, normalize).value;
      && |lead.columns| == 13
      && (forall j :: 0 <= j < 13 ==> |lead.columns[j]| == |records|)
      && |lead.types| == |records|
      && Rectangular(lead.types, |Vocabulary(ColumnOf(records, TYPE))|)
  {
    OneHotTransformShape(normalize, ColumnOf(records, TYPE));
    LeadingResultsLength(records, normalize);
  }

  /** `feature_vectors` after the insert loop: the one-hot columns spliced in
      at position 2. */
  function SpliceTypes(base: seq<seq<real>>, typeColumns: seq<seq<real>>): seq<seq<real>>
    requires |base| >= 2
  {
    base[..2] + typeColumns + base[2..]
  }

  /** The columns `extract_features` stacks, given every transform's output. */
  function FeatureColumns(lead: Leading, cpis: seq<real>, unemployment: seq<real>, isHoliday: seq<real>,
                          width: nat, target: Option<seq<real>>): seq<seq<real>>
    requires |lead.columns| == 13 && Rectangular(lead.types, width)
  {
    var base := lead.columns + [cpis, unemployment, isHoliday];
    var withTypes := SpliceTypes(base, ColumnsOf(lead.types, width));
    match target
    case None => withTypes
    case Some(t) => withTypes + [t]
  }

  /** The target column: `target_transformer` never normalizes and fills with 0. */
  function TargetColumn(records: seq<seq<string>>): seq<real>
    requires HasFields(records, WEEKLY_SALES + 1)
  {
    NumberColumn(ColumnOf(records, WEEKLY_SALES), 0.0)
  }

  /** `np.column_stack(feature_vectors)` once every transform has succeeded. */
  function Assemble(records: seq<seq<string>>, train: bool, lead: Leading,
                    cpis: seq<real>, unemployment: seq<real>, isHoliday: seq<real>): Matrix
    requires HasFields(records, FieldCount(train))
    requires |lead.columns| == 13 && forall j :: 0 <= j < 13 ==> |lead.columns[j]| == |records|
    requires |lead.types| == |records| && Rectangular(lead.types, |Vocabulary(ColumnOf(records, TYPE))|)
    requires |cpis| == |records| && |unemployment| == |records| && |isHoliday| == |records|
  {
    var width := |Vocabulary(ColumnOf(records, TYPE))|;
    var target := if train then Some(TargetColumn(records)) else None;
    var columns := FeatureColumns(lead, cpis, unemployment, isHoliday, width, target);
    assert forall j :: 0 <= j < |columns| ==> |columns[j]| == |records|;
    ColumnStack(columns, |records|)
  }

  /** `extract_features` as a value: the matrix (or the error it raises) and
      the fill value the shared `NonZeroNumTransformer` is left with, starting
      from `fill`. The CPI and unemployment columns both go through that one
      transformer, so unemployment starts from the fill value CPI left. */
  function Extract(records: seq<seq<string>>, train: bool, normalize: bool, fill: real): (r: (Result<Matrix>, real))
    requires HasFields(records, FieldCount(train))
    ensures r.0.Failure? ==> r.0.error == ValueError
    ensures r.0.Success? ==> |r.0.value.rows| == |records|
  {
    match LeadingColumns(records, normalize)
    case Failure(e) => (Failure(e), fill)
    case Success(lead) =>
      var cpi := CarryForward(ColumnOf(records, CPI), fill);
      match Finish(normalize, MinMax, cpi.0)
      case Failure(e) => (Failure(e), cpi.1)
      case Success(cpis) =>
        var unemployment := CarryForward(ColumnOf(records, UNEMPLOYMENT), cpi.1);
        match Finish(normalize, MinMax, unemployment.0)
        case Failure(e) => (Failure(e), unemployment.1)
        case Success(unemp) =>
          match BooleanTransform(normalize, ColumnOf(records, IS_HOLIDAY))
          case Failure(e) => (Failure(e), unemployment.1)
          case Success(isHoliday) =>
            LeadingShape(records, normalize);
            CarriedLength(normalize, ColumnOf(records, CPI), fill);
            CarriedLength(normalize, ColumnOf(records, UNEMPLOYMENT), cpi.1);
            BooleanTransformLength(normalize, ColumnOf(records, IS_HOLIDAY));
            (Success(Assemble(records, train, lead, cpis, unemp, isHoliday)), unemployment.1)
  }

  // ---------------------------------------------------------------------------
  // properties of the extraction

  /** The stacked matrix has one row per record and `16 + d` columns, plus
      one for the target in a train file: store and dept ids first, the
      one-hot block at columns `2 .. 2 + d`, the remaining columns after it in
      source order, and in a train file the raw weekly sales last. */
  lemma AssembleLayout(records: seq<seq<string>>, train: bool, lead: Leading,
                       cpis: seq<real>, unemployment: seq<real>, isHoliday: seq<real>)
    requires HasFields(records, FieldCount(train))
    requires |lead.columns| == 13 && forall j :: 0 <= j < 13 ==> |lead.columns[j]| == |records|
    requires |lead.types| == |records| && Rectangular(lead.types, |Vocabulary(ColumnOf(records, TYPE))|)
    requires |cpis| == |records| && |unemployment| == |records| && |isHoliday| == |records|
    ensures var m := Assemble(records, train, lead, cpis, unemployment, isHoliday);
      var d := |Vocabulary(ColumnOf(records, TYPE))|;
      && m.Shaped()
      && |m.rows| == |records|
      && m.width == BASE_COLUMNS + d + (if train then 1 else 0)
      && ColumnOf(m.rows, 0) == lead.columns[0]
      && ColumnOf(m.rows, 1) == lead.columns[1]
      && (forall i :: 0 <= i < d ==> ColumnOf(m.rows, 2 + i) == ColumnOf(lead.types, i))
      && (forall j :: 2 <= j < 13 ==> ColumnOf(m.rows, j + d) == lead.columns[j])
      && ColumnOf(m.rows, 13 + d) == cpis
      && ColumnOf(m.rows, 14 + d) == unemployment
      && ColumnOf(m.rows, 15 + d) == isHoliday
      && (train ==> ColumnOf(m.rows, 16 + d) == TargetColumn(records))
  {
    var d := |Vocabulary(ColumnOf(records, TYPE))|;
    var target := if train then Some(TargetColumn(records)) else None;
    var columns := FeatureColumns(lead, cpis, unemployment, isHoliday, d, target);
    FeatureColumnsLayout(lead, cpis, unemployment, isHoliday, d, target);
    assert forall j :: 0 <= j < |columns| ==> |columns[j]| == |records|;
    ColumnStackColumns(columns, |records|);
  }

  /** Where each transform's output sits in `feature_vectors`. */
  lemma FeatureColumnsLayout(lead: Leading, cpis: seq<real>, unemployment: seq<real>, isHoliday: seq<real>,
                             d: nat, target: Option<seq<real>>)
    requires |lead.columns| == 13 && Rectangular(lead.types, d)
    ensures var columns := FeatureColumns(lead, cpis, unemployment, isHoliday, d, target);
      && |columns| == BASE_COLUMNS + d + (if target.Some? then 1 else 0)
      && columns[0] == lead.columns[0] && columns[1] == lead.columns[1]
      && (forall i :: 0 <= i < d ==> columns[2 + i] == ColumnOf(lead.types, i))
      && (forall j :: 2 <= j < 13 ==> columns[j + d] == lead.columns[j])
      && columns[13 + d] == cpis && columns[14 + d] == unemployment && columns[15 + d] == isHoliday
      && (target.Some? ==> columns[16 + d] == target.value)
  {
    var base := lead.columns + [cpis, unemployment, isHoliday];
    var typeColumns := ColumnsOf(lead.types, d);
    var withTypes := base[..2] + typeColumns + base[2..];
    assert forall i :: 0 <= i < d ==> withTypes[2 + i] == typeColumns[i];
    assert forall j :: 2 <= j < |base| ==> withTypes[j + d] == base[j];
  }

  /** The CPI column's transform, starting from fill value `fill`. */
  function CpiResult(records: seq<seq<string>>, normalize: bool, fill: real): Result<seq<real>>
    requires HasFields(records, TEST_FIELD_COUNT)
  {
    Finish(normalize, MinMax, CarryForward(ColumnOf(records, CPI), fill).0)
  }

  /** The unemployment column's transform: it starts from the fill value the
      CPI column left behind. */
  function UnemploymentResult(records: seq<seq<string>>, normalize: bool, fill: real): Result<seq<real>>
    requires HasFields(records, TEST_FIELD_COUNT)
  {
    Finish(normalize, MinMax,
      CarryForward(ColumnOf(records, UNEMPLOYMENT), CarryForward(ColumnOf(records, CPI), fill).1).0)
  }

  /** A successful extraction is the stacking of every transform's output,
      and leaves the carry-forward state where the CPI column followed by the
      unemployment column leaves it. */
  lemma ExtractSucceeds(records: seq<seq<string>>, train: bool, normalize: bool, fill: real)
    requires HasFields(records, FieldCount(train))
    requires Extract(records, train, normalize, fill).0.Success?
    ensures LeadingColumns(records, normalize).Success?
    ensures CpiResult(records, normalize, fill).Success?
    ensures UnemploymentResult(records, normalize, fill).Success?
    ensures BooleanTransform(normalize, ColumnOf(records, IS_HOLIDAY)).Success?
    ensures Extract(records, train, normalize, fill).1 ==
      CarryForward(ColumnOf(records, CPI) + ColumnOf(records, UNEMPLOYMENT), fill).1
    ensures var lead := LeadingColumns(records, normalize).value;
      && |lead.columns| == 13 && (forall j :: 0 <= j < 13 ==> |lead.columns[j]| == |records|)
      && |lead.types| == |records| && Rectangular(lead.types, |Vocabulary(ColumnOf(records, TYPE))|)
      && |CpiResult(records, normalize, fill).value| == |records|
      && |UnemploymentResult(records, normalize, fill).value| == |records|
      && |BooleanTransform(normalize, ColumnOf(records, IS_HOLIDAY)).value| == |records|
      && Extract(records, train, normalize, fill).0.value ==
         Assemble(records, train, lead, CpiResult(records, normalize, fill).value,
           UnemploymentResult(records, normalize, fill).value,
           BooleanTransform(normalize, ColumnOf(records, IS_HOLIDAY)).value)
  {
    CarryForwardAppend(ColumnOf(records, CPI), ColumnOf(records, UNEMPLOYMENT), fill);
    LeadingShape(records, normalize);
    CarriedLength(normalize, ColumnOf(records, CPI), fill);
    CarriedLength(normalize, ColumnOf(records, UNEMPLOYMENT), CarryForward(ColumnOf(records, CPI), fill).1);
    BooleanTransformLength(normalize, ColumnOf(records, IS_HOLIDAY));
  }

  /** The column layout `extract_features` promises for `m`: the store and
      dept ids, the one-hot `type` columns, the other stateless transforms,
      the carried `cpi` and `unemployment`, `is_holiday`, then the target of
      a train file. */
  ghost predicate ExtractedLayout(records: seq<seq<string>>, train: bool, normalize: bool, fill: real, m: Matrix)
    requires HasFields(records, FieldCount(train))
  {
    var leading := LeadingResults(records, normalize);
    var d := |Vocabulary(ColumnOf(records, TYPE))|;
    var types := OneHotTransform(normalize, ColumnOf(records, TYPE));
    && leading[0].Success? && leading[1].Success?
    && CpiResult(records, normalize, fill).Success?
    && UnemploymentResult(records, normalize, fill).Success?
    && BooleanTransform(normalize, ColumnOf(records, IS_HOLIDAY)).Success?
    && types.Success? && Rectangular(types.value, d)
    && m.Shaped()
    && |m.rows| == |records|
    && m.width == BASE_COLUMNS + d + (if train then 1 else 0)
    && ColumnOf(m.rows, 0) == leading[0].value
    && ColumnOf(m.rows, 1) == leading[1].value
    && (forall i :: 0 <= i < d ==> ColumnOf(m.rows, 2 + i) == ColumnOf(types.value, i))
    && (forall j :: 2 <= j < 13 ==> leading[j].Success? && ColumnOf(m.rows, j + d) == leading[j].value)
    && ColumnOf(m.rows, 13 + d) == CpiResult(records, normalize, fill).value
    && ColumnOf(m.rows, 14 + d) == UnemploymentResult(records, normalize, fill).value
    && ColumnOf(m.rows, 15 + d) == BooleanTransform(normalize, ColumnOf(records, IS_HOLIDAY)).value
    && (train ==> ColumnOf(m.rows, 16 + d) == TargetColumn(records))
  }

  /** A successful extraction has the promised column layout. */
  lemma ExtractLayout(records: seq<seq<string>>, train: bool, normalize: bool, fill: real)
    requires HasFields(records, FieldCount(train))
    requires Extract(records, train, normalize, fill).0.Success?
    ensures ExtractedLayout(records, train, normalize, fill, Extract(records, train, normalize, fill).0.value)
  {
    ExtractSucceeds(records, train, normalize, fill);
    LeadingColumnsValue(records, normalize);
    var lead := LeadingColumns(records, normalize).value;
    var cpis := CpiResult(records, normalize, fill).value;
    var unemployment := UnemploymentResult(records, normalize, fill).value;
    var isHoliday := BooleanTransform(normalize, ColumnOf(records, IS_HOLIDAY)).value;
    AssembleLayout(records, train, lead, cpis, unemployment, isHoliday);
  }

  /** The first two columns of a successful extraction are the store and
      dept id transforms. */
  lemma ExtractIdColumns(records: seq<seq<string>>, train: bool, normalize: bool, fill: real)
    requires HasFields(records, FieldCount(train))
    requires Extract(records, train, normalize, fill).0.Success?
    ensures var m, leading := Extract(records, train, normalize, fill).0.value, LeadingResults(records, normalize);
      && m.Shaped() && |m.rows| == |records| && m.width >= 2
      && leading[0].Success? && leading[1].Success?
      && ColumnOf(m.rows, 0) == leading[0].value
      && ColumnOf(m.rows, 1) == leading[1].value
  {
    ExtractLayout(records, train, normalize, fill);
  }

  /** With normalization on, a file without records raises `ValueError` at
      the first column (numpy's `max()` of an empty array) and leaves the
      carry-forward state alone. */
  lemma ExtractEmptyNormalized(train: bool, fill: real)
    ensures Extract([], train, true, fill) == (Failure(ValueError), fill)
  {
    var results := LeadingResults([], true);
    assert results[0] == NumberField([], true, MinMax, STORE_ID);
    assert !AllSucceed(results, 0, 13);
  }

  /** Without normalization the extraction fails exactly when a markdown cell
      is neither `NA` nor a number or an `is_holiday` cell is neither `TRUE`
      nor `FALSE`, and then with `ValueError`. */
  lemma ExtractUnnormalizedOutcome(records: seq<seq<string>>, train: bool, fill: real)
    requires HasFields(records, FieldCount(train))
    ensures Extract(records, train, false, fill).0.Success? <==>
      && MarkdownsParse(records)
      && forall i :: 0 <= i < |records| ==> BooleanValue(records[i][IS_HOLIDAY]).Some?
    ensures Extract(records, train, false, fill).0.Failure? ==> Extract(records, train, false, fill).0.error == ValueError
  {
    UnnormalizedLeading(records);
    if !(forall i :: 0 <= i < |records| ==> BooleanValue(records[i][IS_HOLIDAY]).Some?) {
      var i :| 0 <= i < |records| && BooleanValue(records[i][IS_HOLIDAY]).None?;
      assert ColumnOf(records, IS_HOLIDAY)[i] == records[i][IS_HOLIDAY];
    }
  }

  /** Every markdown cell is `NA` or a number. */
  predicate MarkdownsParse(records: seq<seq<string>>)
    requires HasFields(records, TEST_FIELD_COUNT)
  {
    forall i, k :: 0 <= i < |records| && MARKDOWN1 <= k <= MARKDOWN5 ==> MarkdownValue(records[i][k]).Some?
  }

  /** Without normalization the stateless transforms fail exactly when a
      markdown cell does not parse. */
  lemma UnnormalizedLeading(records: seq<seq<string>>)
    requires HasFields(records, TEST_FIELD_COUNT)
    ensures LeadingColumns(records, false).Success? <==> MarkdownsParse(records)
  {
    var results := LeadingResults(records, false);
    LeadingMarkdownFields();
    forall j | 0 <= j < 13
      ensures results[j].Success? <==> j < 8 || forall i :: 0 <= i < |records| ==> MarkdownValue(records[i][j + 1]).Some?
    {
      if j < 8 {
        assert results[j] == NumberField(records, false, LEADING[j].1.rule, LEADING[j].0);
      } else {
        assert results[j] == MarkdownTransform(false, ColumnOf(records, j + 1));
        assert forall i :: 0 <= i < |records| ==> ColumnOf(records, j + 1)[i] == records[i][j + 1];
      }
    }
    if !MarkdownsParse(records) {
      var i, k :| 0 <= i < |records| && MARKDOWN1 <= k <= MARKDOWN5 && MarkdownValue(records[i][k]).None?;
      assert !results[k - 1].Success?;
    }
  }

  /** CPI and unemployment share one carry-forward transformer: without
      normalization, once the markdown columns have passed, the fill value
      ends where the CPI column followed by the unemployment column leaves
      it, whether or not `is_holiday` then fails. */
  lemma ExtractSharedFill(records: seq<seq<string>>, train: bool, fill: real)
    requires HasFields(records, FieldCount(train))
    requires MarkdownsParse(records)
    ensures Extract(records, train, false, fill).1 ==
      CarryForward(ColumnOf(records, CPI) + ColumnOf(records, UNEMPLOYMENT), fill).1
  {
    UnnormalizedLeading(records);
    CarryForwardAppend(ColumnOf(records, CPI), ColumnOf(records, UNEMPLOYMENT), fill);
  }

  /** Without normalization the store and dept id columns hold each
      record's parsed id, 0 where it does not parse. */
  lemma LeadingIdsUnnormalized(records: seq<seq<string>>, i: nat)
    requires HasFields(records, TEST_FIELD_COUNT)
    requires i < |records|
    ensures var leading := LeadingResults(records, false);
      && leading[0].Success? && leading[1].Success?
      && |leading[0].value| == |leading[1].value| == |records|
      && leading[0].value[i] == ParseOr(records[i][STORE_ID], 0.0)
      && leading[1].value[i] == ParseOr(records[i][DEPT_ID], 0.0)
  {
    var leading := LeadingResults(records, false);
    assert leading[0] == NumberField(records, false, MinMax, STORE_ID);
    assert leading[1] == NumberField(records, false, MinMax, DEPT_ID);
    assert ColumnOf(records, STORE_ID)[i] == records[i][STORE_ID];
    assert ColumnOf(records, DEPT_ID)[i] == records[i][DEPT_ID];
  }

  /** Without normalization row `i` starts with record `i`'s store and dept
      ids, each parsed, 0 where it does not parse. */
  lemma ExtractRowIds(records: seq<seq<string>>, train: bool, fill: real, i: nat)
    requires HasFields(records, FieldCount(train))
    requires Extract(records, train, false, fill).0.Success?
    requires i < |records|
    ensures var m := Extract(records, train, false, fill).0.value;
      && |m.rows| == |records| && |m.rows[i]| == m.width
      && m.rows[i][STORE_ID] == ParseOr(records[i][STORE_ID], 0.0)
      && m.rows[i][DEPT_ID] == ParseOr(records[i][DEPT_ID], 0.0)
  {
    LeadingIdsUnnormalized(records, i);
    var m := Extract(records, train, false, fill).0.value;
    ExtractIdColumns(records, train, false, fill);
    assert ColumnOf(m.rows, 0)[i] == m.rows[i][0];
    assert ColumnOf(m.rows, 1)[i] == m.rows[i][1];
  }

  /** Without normalization the columns after the ids are the one-hot
      encoding of the `type` field. */
  lemma ExtractTypeColumns(records: seq<seq<string>>, train: bool, fill: real)
    requires HasFields(records, FieldCount(train))
    requires Extract(records, train, false, fill).0.Success?
    ensures var m := Extract(records, train, false, fill).0.value;
      var types := OneHot(ColumnOf(records, TYPE));
      var d := |Vocabulary(ColumnOf(records, TYPE))|;
      && m.Shaped() && |m.rows| == |records| && m.width == BASE_COLUMNS + d + (if train then 1 else 0)
      && Rectangular(types, d)
      && forall j :: 0 <= j < d ==> ColumnOf(m.rows, 2 + j) == ColumnOf(types, j)
  {
    ExtractLayout(records, train, false, fill);
  }

  /** Without normalization the one-hot block of row `i` holds a single 1,
      in the column of record `i`'s `type`. */
  lemma ExtractRowType(records: seq<seq<string>>, train: bool, fill: real, i: nat)
    requires HasFields(records, FieldCount(train))
    requires Extract(records, train, false, fill).0.Success?
    requires i < |records|
    ensures var m := Extract(records, train, false, fill).0.value;
      var voc := Vocabulary(ColumnOf(records, TYPE));
      var t := IndexOf(voc, ColumnOf(records, TYPE)[i]);
      && |m.rows| == |records| && |m.rows[i]| == m.width == BASE_COLUMNS + |voc| + (if train then 1 else 0)
      && forall j :: 2 <= j < 2 + |voc| ==> m.rows[i][j] == if j == 2 + t then 1.0 else 0.0
  {
    var m := Extract(records, train, false, fill).0.value;
    ExtractTypeColumns(records, train, fill);
    var voc := Vocabulary(ColumnOf(records, TYPE));
    var types := OneHot(ColumnOf(records, TYPE));
    forall j | 2 <= j < 2 + |voc|
      ensures m.rows[i][j] == if j == 2 + IndexOf(voc, ColumnOf(records, TYPE)[i]) then 1.0 else 0.0
    {
      assert ColumnOf(m.rows, j)[i] == m.rows[i][j];
      assert ColumnOf(types, j - 2)[i] == types[i][j - 2];
    }
  }

  /** Row `i` of a train file ends with record `i`'s weekly sales, parsed
      (0 where it does not parse) and never normalized, whatever the flag. */
  lemma ExtractRowTarget(records: seq<seq<string>>, normalize: bool, fill: real, i: nat)
    requires HasFields(records, FieldCount(true))
    requires Extract(records, true, normalize, fill).0.Success?
    requires i < |records|
    ensures var m := Extract(records, true, normalize, fill).0.value;
      && |m.rows| == |records| && |m.rows[i]| == m.width && m.width >= 1
      && m.rows[i][m.width - 1] == ParseOr(records[i][WEEKLY_SALES], 0.0)
  {
    var m := Extract(records, true, normalize, fill).0.value;
    ExtractLayout(records, true, normalize, fill);
    assert ColumnOf(m.rows, m.width - 1)[i] == m.rows[i][m.width - 1];
  }

  /** Without normalization the CPI and unemployment columns are the
      carried-forward values themselves. */
  lemma ExtractCarriedColumns(records: seq<seq<string>>, train: bool, fill: real)
    requires HasFields(records, FieldCount(train))
    requires Extract(records, train, false, fill).0.Success?
    ensures var m := Extract(records, train, false, fill).0.value;
      var d := |Vocabulary(ColumnOf(records, TYPE))|;
      var cpi := CarryForward(ColumnOf(records, CPI), fill);
      && m.Shaped() && |m.rows| == |records| && m.width == BASE_COLUMNS + d + (if train then 1 else 0)
      && ColumnOf(m.rows, 13 + d) == cpi.0
      && ColumnOf(m.rows, 14 + d) == CarryForward(ColumnOf(records, UNEMPLOYMENT), cpi.1).0
  {
    ExtractLayout(records, train, false, fill);
  }

  /** Without normalization the CPI and unemployment entries of row `i` are
      the carried-forward values at record `i`, the unemployment column
      starting from the fill value the CPI column left. */
  lemma ExtractRowCarried(records: seq<seq<string>>, train: bool, fill: real, i: nat)
    requires HasFields(records, FieldCount(train))
    requires Extract(records, train, false, fill).0.Success?
    requires i < |records|
    ensures var m := Extract(records, train, false, fill).0.value;
      var d := |Vocabulary(ColumnOf(records, TYPE))|;
      var cpi := CarryForward(ColumnOf(records, CPI), fill);
      && |m.rows| == |records| && |m.rows[i]| == m.width == BASE_COLUMNS + d + (if train then 1 else 0)
      && m.rows[i][13 + d] == cpi.0[i]
      && m.rows[i][14 + d] == CarryForward(ColumnOf(records, UNEMPLOYMENT), cpi.1).0[i]
  {
    var m := Extract(records, train, false, fill).0.value;
    ExtractCarriedColumns(records, train, fill);
    var d := |Vocabulary(ColumnOf(records, TYPE))|;
    assert ColumnOf(m.rows, 13 + d)[i] == m.rows[i][13 + d];
    assert ColumnOf(m.rows, 14 + d)[i] == m.rows[i][14 + d];
  }

  // ---------------------------------------------------------------------------
  // the extractor object

  /** `NumericalFeatureExtractor` of extract_features.py: the records of one
      file and the transformers it owns. Only the carry-forward transformer
      has state. */
  class NumericalFeatureExtractor {
    const records: seq<seq<string>>
    const train: bool
    /** The `normalize` flag every transformer but the target one was built with. */
    ghost const normalize: bool
    const categoricalTransformer: OneHotEncoder
    const markdownTransformer: MarkdownTransformer
    const monthTransformer: NumberTransformer
    const dayTransformer: NumberTransformer
    const numTransformer: NumberTransformer
    const nonzeronumTransformer: NonZeroNumTransformer
    const booleanEncoder: BooleanEncoder
    const targetTransformer: NumberTransformer

    /** The records fit the schema and the transformers are configured as
        `__init__` configures them. */
    ghost predicate Valid()
    {
      && HasFields(records, FieldCount(train))
      && categoricalTransformer.normalize == normalize
      && markdownTransformer.normalize == normalize
      && monthTransformer.normalize == normalize && monthTransformer.rule == Month && monthTransformer.fillVal == 0.0
      && dayTransformer.normalize == normalize && dayTransformer.rule == Day && dayTransformer.fillVal == 0.0
      && numTransformer.normalize == normalize && numTransformer.rule == MinMax && numTransformer.fillVal == 0.0
      && nonzeronumTransformer.normalize == normalize
      && booleanEncoder.normalize == normalize
      && !targetTransformer.normalize && targetTransformer.rule == MinMax && targetTransformer.fillVal == 0.0
    }

    /** `__init__` once `read_records` has produced `records` and `train`. */
    constructor (records: seq<seq<string>>, train: bool, normalize: bool)
      requires HasFields(records, FieldCount(train))
      ensures Valid()
      ensures this.records == records && this.train == train && this.normalize == normalize
      ensures fresh(nonzeronumTransformer) && nonzeronumTransformer.fillVal == 0.0
    {
      this.records := records;
      this.train := train;
      this.normalize := normalize;
      categoricalTransformer := new OneHotEncoder(normalize);
      markdownTransformer := new MarkdownTransformer(normalize);
      monthTransformer := new NumberTransformer(0.0, normalize, Month);
      dayTransformer := new NumberTransformer(0.0, normalize, Day);
      numTransformer := new NumberTransformer(0.0, normalize, MinMax);
      nonzeronumTransformer := new NonZeroNumTransformer(0.0, normalize);
      booleanEncoder := new BooleanEncoder(normalize);
      targetTransformer := new NumberTransformer(0.0, false, MinMax);
    }

    /** `NumericalFeatureExtractor(input_filename, normalize)`: reads the
        file's lines and raises `ValueError` where `read_records` does. */
    static method Open(lines: seq<string>, normalize: bool) returns (r: Result<NumericalFeatureExtractor>)
      ensures r.Success? <==> Read(lines, TEST_FIELD_COUNT).Success?
      ensures r.Failure? ==> r.error == ValueError
      ensures r.Success? ==>
        && r.value.Valid()
        && (r.value.records, r.value.train) == Read(lines, TEST_FIELD_COUNT).value
        && r.value.normalize == normalize
        && fresh(r.value.nonzeronumTransformer) && r.value.nonzeronumTransformer.fillVal == 0.0
    {
      var read := ReadRecords(lines, TEST_FIELD_COUNT);
      if read.Failure? {
        ReadErrorIsValueError(lines, TEST_FIELD_COUNT);
        return Failure(read.error);
      }
      ReadHasFields(lines, TEST_FIELD_COUNT);
      var extractor := new NumericalFeatureExtractor(read.value.0, read.value.1, normalize);
      r := Success(extractor);
    }

    /** `transform(get_column(k))` with the transformer `extract_features`
        uses for field `k`: the month and day transformers for `month` and
        `day`, the markdown transformer for the markdown fields, the number
        transformer for the rest. */
    method StatelessTransform(k: nat) returns (r: Result<seq<real>>)
      requires Valid() && k <= MARKDOWN5 && k != TYPE
      ensures r == LeadingResults(records, normalize)[if k < TYPE then k else k - 1]
    {
      LeadingEntry(k);
      var column := ColumnOf(records, k);
      if k == MONTH {
        r := monthTransformer.Transform(column);
      } else if k == DAY {
        r := dayTransformer.Transform(column);
      } else if k >= MARKDOWN1 {
        r := markdownTransformer.Transform(column);
      } else {
        r := numTransformer.Transform(column);
      }
    }

    /** `store_ids`, `dept_ids` and `types`, in source order. */
    method IdAndTypeTransforms() returns (r: Result<(seq<seq<real>>, seq<seq<real>>)>)
      requires Valid()
      ensures var results, types := LeadingResults(records, normalize), OneHotTransform(normalize, ColumnOf(records, TYPE));
        && (r.Success? <==> AllSucceed(results, 0, 2) && types.Success?)
        && (r.Failure? ==> r.error == ValueError)
        && (r.Success? ==> r.value == (Values(results, 0, 2), types.value))
    {
      ghost var results := LeadingResults(records, normalize);
      var storeIds := StatelessTransform(STORE_ID);
      if storeIds.Failure? { return Failure(ValueError); }
      var deptIds := StatelessTransform(DEPT_ID);
      if deptIds.Failure? { return Failure(ValueError); }
      var types := categoricalTransformer.Transform(ColumnOf(records, TYPE));
      if types.Failure? { return Failure(ValueError); }
      assert Values(results, 0, 2) == [storeIds.value, deptIds.value];
      r := Success(([storeIds.value, deptIds.value], types.value));
    }

    /** `sizes` and `years`, in source order. */
    method SizeAndYearTransforms() returns (r: Result<seq<seq<real>>>)
      requires Valid()
      ensures var results := LeadingResults(records, normalize);
        && (r.Success? <==> AllSucceed(results, 2, 4))
        && (r.Failure? ==> r.error == ValueError)
        && (r.Success? ==> r.value == Values(results, 2, 4))
    {
      ghost var results := LeadingResults(records, normalize);
      var sizes := StatelessTransform(SIZE);
      if sizes.Failure? { return Failure(ValueError); }
      var years := StatelessTransform(YEAR);
      if years.Failure? { return Failure(ValueError); }
      r := Success([sizes.value, years.value]);
      assert r.value == Values(results, 2, 4);
    }

    /** `months` and `days`, in source order. */
    method MonthAndDayTransforms() returns (r: Result<seq<seq<real>>>)
      requires Valid()
      ensures var results := LeadingResults(records, normalize);
        && (r.Success? <==> AllSucceed(results, 4, 6))
        && (r.Failure? ==> r.error == ValueError)
        && (r.Success? ==> r.value == Values(results, 4, 6))
    {
      ghost var results := LeadingResults(records, normalize);
      var months := StatelessTransform(MONTH);
      if months.Failure? { return Failure(ValueError); }
      var days := StatelessTransform(DAY);
      if days.Failure? { return Failure(ValueError); }
      r := Success([months.value, days.value]);
      assert r.value == Values(results, 4, 6);
    }

    /** `temps` and `fuel_prices`, in source order. */
    method WeatherTransforms() returns (r: Result<seq<seq<real>>>)
      requires Valid()
      ensures var results := LeadingResults(records, normalize);
        && (r.Success? <==> AllSucceed(results, 6, 8))
        && (r.Failure? ==> r.error == ValueError)
        && (r.Success? ==> r.value == Values(results, 6, 8))
    {
      ghost var results := LeadingResults(records, normalize);
      var temps := StatelessTransform(TEMPERATURE);
      if temps.Failure? { return Failure(ValueError); }
      var fuelPrices := StatelessTransform(FUEL_PRICE);
      if fuelPrices.Failure? { return Failure(ValueError); }
      r := Success([temps.value, fuelPrices.value]);
      assert r.value == Values(results, 6, 8);
    }

    /** `markdown1` through `markdown5`, in source order. */
    method MarkdownTransforms() returns (r: Result<seq<seq<real>>>)
      requires Valid()
      ensures var results := LeadingResults(records, normalize);
        && (r.Success? <==> AllSucceed(results, 8, 13))
        && (r.Failure? ==> r.error == ValueError)
        && (r.Success? ==> r.value == Values(results, 8, 13))
    {
      ghost var results := LeadingResults(records, normalize);
      var markdown1 := StatelessTransform(MARKDOWN1);
      if markdown1.Failure? { return Failure(ValueError); }
      var markdown2 := StatelessTransform(MARKDOWN2);
      if markdown2.Failure? { return Failure(ValueError); }
      var markdown3 := StatelessTransform(MARKDOWN3);
      if markdown3.Failure? { return Failure(ValueError); }
      var markdown4 := StatelessTransform(MARKDOWN4);
      if markdown4.Failure? { return Failure(ValueError); }
      var markdown5 := StatelessTransform(MARKDOWN5);
      if markdown5.Failure? { return Failure(ValueError); }
      ValuesOfFive(results, 8);
      r := Success([markdown1.value, markdown2.value, markdown3.value, markdown4.value, markdown5.value]);
    }

    /** The transforms up to `markdown5`, each raising as the source's does. */
    method LeadingTransforms() returns (r: Result<Leading>)
      requires Valid()
      ensures r == LeadingColumns(records, normalize)
    {
      ghost var results := LeadingResults(records, normalize);
      var first := IdAndTypeTransforms();
      if first.Failure? {
        assert !AllSucceed(results, 0, 13) || OneHotTransform(normalize, ColumnOf(records, TYPE)).Failure?;
        return Failure(ValueError);
      }
      var sizesAndYears := SizeAndYearTransforms();
      if sizesAndYears.Failure? {
        assert !AllSucceed(results, 0, 13);
        return Failure(ValueError);
      }
      var monthsAndDays := MonthAndDayTransforms();
      if monthsAndDays.Failure? {
        assert !AllSucceed(results, 0, 13);
        return Failure(ValueError);
      }
      var weather := WeatherTransforms();
      if weather.Failure? {
        assert !AllSucceed(results, 0, 13);
        return Failure(ValueError);
      }
      var markdowns := MarkdownTransforms();
      if markdowns.Failure? {
        assert !AllSucceed(results, 0, 13);
        return Failure(ValueError);
      }
      assert AllSucceed(results, 0, 13);
      ValuesSplit(results, 0, 2, 13);
      ValuesSplit(results, 2, 4, 13);
      ValuesSplit(results, 4, 6, 13);
      ValuesSplit(results, 6, 8, 13);
      ValuesSplit(results, 8, 13, 13);
      var columns := first.value.0 + sizesAndYears.value + monthsAndDays.value + weather.value + markdowns.value;
      assert Values(results, 0, 13) == columns;
      r := Success(Leading(columns, first.value.1));
    }

    /** The insert loop of `extract_features`: column `i` of the one-hot
        matrix goes in at position `2 + i`. */
    static method SpliceColumns(base: seq<seq<real>>, types: seq<seq<real>>, width: nat)
      returns (featureVectors: seq<seq<real>>)
      requires |base| >= 2 && Rectangular(types, width)
      ensures featureVectors == SpliceTypes(base, ColumnsOf(types, width))
    {
      ghost var typeColumns := ColumnsOf(types, width);
      featureVectors := base;
      var i := 0;
      while i < width
        invariant 0 <= i <= width
        invariant featureVectors == base[..2] + typeColumns[..i] + base[2..]
      {
        assert featureVectors[..2 + i] == base[..2] + typeColumns[..i];
        assert featureVectors[2 + i..] == base[2..];
        featureVectors := Insert(featureVectors, 2 + i, ColumnOf(types, i));
        assert typeColumns[..i + 1] == typeColumns[..i] + [ColumnOf(types, i)];
        i := i + 1;
      }
      assert typeColumns[..i] == typeColumns;
    }

    /** The end of `extract_features`: `feature_vectors` built, the one-hot
        columns inserted, the target appended for a train file, the columns stacked. */
    method StackFeatures(lead: Leading, cpis: seq<real>, unemployment: seq<real>, isHoliday: seq<real>)
      returns (m: Matrix)
      requires Valid()
      requires |lead.columns| == 13 && forall j :: 0 <= j < 13 ==> |lead.columns[j]| == |records|
      requires |lead.types| == |records| && Rectangular(lead.types, |Vocabulary(ColumnOf(records, TYPE))|)
      requires |cpis| == |records| && |unemployment| == |records| && |isHoliday| == |records|
      ensures m == Assemble(records, train, lead, cpis, unemployment, isHoliday)
    {
      var types := lead.types;
      var width := if |types| == 0 then 0 else |types[0]|;
      assert width == |Vocabulary(ColumnOf(records, TYPE))|;
      var base := lead.columns + [cpis, unemployment, isHoliday];
      var featureVectors := SpliceColumns(base, types, width);
      if train {
        var weeklySales := targetTransformer.Transform(ColumnOf(records, WEEKLY_SALES));
        featureVectors := featureVectors + [weeklySales.value];
      }
      assert featureVectors == FeatureColumns(lead, cpis, unemployment, isHoliday, width,
        if train then Some(TargetColumn(records)) else None);
      assert forall j :: 0 <= j < |featureVectors| ==> |featureVectors[j]| == |records|;
      m := ColumnStack(featureVectors, |records|);
    }

    /** `extract_features`: every transform in source order (the carry-forward
        transformer's fill value carries over from CPI to unemployment and
        into later calls), the one-hot columns spliced in at 2, the target
        appended for a train file, and the columns stacked. */
    method ExtractFeatures() returns (r: Result<Matrix>)
      requires Valid()
      modifies nonzeronumTransformer
      ensures (r, nonzeronumTransformer.fillVal) == Extract(records, train, normalize, old(nonzeronumTransformer.fillVal))
    {
      var lead := LeadingTransforms();
      if lead.Failure? {
        return Failure(lead.error);
      }
      var cpis := nonzeronumTransformer.Transform(ColumnOf(records, CPI));
      if cpis.Failure? {
        return Failure(cpis.error);
      }
      var unemployment := nonzeronumTransformer.Transform(ColumnOf(records, UNEMPLOYMENT));
      if unemployment.Failure? {
        return Failure(unemployment.error);
      }
      var isHoliday := booleanEncoder.Transform(ColumnOf(records, IS_HOLIDAY));
      if isHoliday.Failure? {
        return Failure(isHoliday.error);
      }
      LeadingShape(records, normalize);
      CarriedLength(normalize, ColumnOf(records, CPI), old(nonzeronumTransformer.fillVal));
      CarriedLength(normalize, ColumnOf(records, UNEMPLOYMENT), CarryForward(ColumnOf(records, CPI), old(nonzeronumTransformer.fillVal)).1);
      BooleanTransformLength(normalize, ColumnOf(records, IS_HOLIDAY));
      var m := StackFeatures(lead.value, cpis.value, unemployment.value, isHoliday.value);
      r := Success(m);
    }
  }
}
