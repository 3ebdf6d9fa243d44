/** The per-(store, dept) model registry of train_per_dept.py: a composite
    predictor keeps one fitted scaler and one fitted regressor per
    `(store_id, dept_id)` key, names every row it predicts with a Kaggle
    submission id, and is trained from a directory of `S-D.num` matrices.
    The scikit-learn scaler and regressors are opaque here: each fitted
    object is known only by the data it was fitted on. */
module Registry {
  import opened Wrappers
  import opened Text
  import opened Matrices

  /** `(store_id, dept_id)`. */
  type Key = (int, int)

  /** A fitted `StandardScaler`, known by the feature rows it was fitted on. */
  datatype Scaler = Scaler(fittedOn: seq<seq<real>>)

  /** `scaler.transform(data)`, kept symbolic. */
  datatype Scaled = Scaled(scaler: Scaler, data: seq<seq<real>>)

  /** A fitted regressor of the configured class: the class name, the scaled
      features and the target it was fitted on. */
  datatype Regressor = Regressor(algorithm: string, inputs: Scaled, target: seq<real>)

  /** The predictions `predict` returns beside the ids. */
  datatype Predictions =
    | ModelOutput(regressor: Regressor, inputs: Scaled)   // predictor.predict(scaled_data)
    | ZeroColumn(rows: nat)                                // np.zeros((len(ids), 1))

  /** The two dictionaries `scalers` and `predictors`, as a value. */
  datatype Models = Models(scalers: map<Key, Scaler>, predictors: map<Key, Regressor>)
  {
    /** Every key has both a scaler and a predictor. */
    predicate Paired()
    {
      scalers.Keys == predictors.Keys
    }
  }

  // ---------------------------------------------------------------------------
  // training one key

  /** `data[:, :-1]`. */
  function Features(data: Matrix): (f: seq<seq<real>>)
    requires data.Shaped() && data.width > 0
    ensures |f| == |data.rows| && Rectangular(f, data.width - 1)
  {
    seq(|data.rows|, i requires 0 <= i < |data.rows| => data.rows[i][..data.width - 1])
  }

  /** `data[:, -1]`. */
  function Target(data: Matrix): seq<real>
    requires data.Shaped() && data.width > 0
  {
    ColumnOf(data.rows, data.width - 1)
  }

  /** The scaler and predictor `train` fits on `data`: `data[:, -1]` raises
      `IndexError` when the array has no columns. */
  function Fit(algorithm: string, data: Matrix): (r: Result<(Scaler, Regressor)>)
    requires data.Shaped()
    ensures r.Failure? ==> r.error == IndexError
    ensures r.Success? ==> r.value.1.algorithm == algorithm && |r.value.1.target| == |data.rows|
  {
    if data.width == 0 then Failure(IndexError)
    else
      var scaler := Scaler(Features(data));
      Success((scaler, Regressor(algorithm, Scaled(scaler, Features(data)), Target(data))))
  }

  /** `train(store_id, dept_id, data)` on the dictionaries as values. */
  function TrainModels(models: Models, algorithm: string, key: Key, data: Matrix): (r: Result<Models>)
    requires data.Shaped()
    ensures r.Failure? ==> r.error == IndexError
    ensures r.Success? ==> r.value.scalers.Keys == models.scalers.Keys + {key}
    ensures r.Success? ==> r.value.predictors.Keys == models.predictors.Keys + {key}
  {
    var (scaler, predictor) :- Fit(algorithm, data);
    Success(Models(models.scalers[key := scaler], models.predictors[key := predictor]))
  }

  /** `train` fits the scaler on every column but the last and the
      regressor on the scaled features against the last column: row by
      row, features followed by target is the training row. It raises only
      on an array without columns. */
  lemma FitSplitsColumns(algorithm: string, data: Matrix)
    requires data.Shaped()
    ensures Fit(algorithm, data).Success? <==> data.width > 0
    ensures Fit(algorithm, data).Failure? ==> Fit(algorithm, data).error == IndexError
    ensures Fit(algorithm, data).Success? ==>
      var (scaler, predictor) := Fit(algorithm, data).value;
      && predictor.algorithm == algorithm
      && predictor.inputs == Scaled(scaler, scaler.fittedOn)
      && |scaler.fittedOn| == |predictor.target| == |data.rows|
      && forall i :: 0 <= i < |data.rows| ==> scaler.fittedOn[i] + [predictor.target[i]] == data.rows[i]
  {
    if data.width > 0 {
      var features, target := Features(data), Target(data);
      forall i | 0 <= i < |data.rows|
        ensures features[i] + [target[i]] == data.rows[i]
      {
        assert data.rows[i] == data.rows[i][..data.width - 1] + [data.rows[i][data.width - 1]];
      }
    }
  }

  /** `train` overwrites the entry of its key in both dictionaries, leaves
      every other key as it was, and so keeps them paired; on error nothing
      changes. */
  lemma TrainUpdatesOneKey(models: Models, algorithm: string, key: Key, data: Matrix)
    requires data.Shaped()
    ensures TrainModels(models, algorithm, key, data).Success? <==> data.width > 0
    ensures TrainModels(models, algorithm, key, data).Success? ==>
      var after := TrainModels(models, algorithm, key, data).value;
      && after.scalers.Keys == models.scalers.Keys + {key}
      && after.predictors.Keys == models.predictors.Keys + {key}
      && (after.scalers[key], after.predictors[key]) == Fit(algorithm, data).value
      && (forall k :: k != key && k in models.scalers ==> after.scalers[k] == models.scalers[k])
      && (forall k :: k != key && k in models.predictors ==> after.predictors[k] == models.predictors[k])
      && (models.Paired() ==> after.Paired())
    ensures TrainModels(models, algorithm, key, data).Failure? ==>
      TrainModels(models, algorithm, key, data).error == IndexError
  {
  }

  // ---------------------------------------------------------------------------
  // submission ids

  /** `intstr(x)`: `str(int(x))`, truncating toward zero. */
  function IntStr(x: real): string
  {
    IntToString(Trunc(x))
  }

  /** The date part of an id: `intstr(year)`, then month and day each
      zero-filled to two characters, joined by `-`. */
  function DateText(year: int, month: int, day: int): string
  {
    IntToString(year) + "-" + ZFill(IntToString(month), 2) + "-" + ZFill(IntToString(day), 2)
  }

  /** `generate_id(store_id, dept_id, record)`: `record[0]`, `record[1]` and
      `record[2]` are year, month and day; a shorter record raises
      `IndexError`. */
  function GenerateId(storeId: int, deptId: int, record: seq<real>): (r: Result<string>)
    ensures r.Failure? <==> |record| < 3
    ensures r.Failure? ==> r.error == IndexError
  {
    if |record| < 3 then Failure(IndexError)
    else Success(IdText(storeId, deptId, record[0], record[1], record[2]))
  }

  /** The id of a row whose first three entries are `year`, `month`, `day`. */
  function IdText(storeId: int, deptId: int, year: real, month: real, day: real): string
  {
    IntToString(storeId) + "_" + IntToString(deptId) + "_" + DateText(Trunc(year), Trunc(month), Trunc(day))
  }

  /** An id read back: store, dept, year, month and day, where each is an
      integer literal and the id has exactly three `_`-parts, the last with
      exactly three `-`-parts. */
  function DecodeId(id: string): Option<(int, int, int, int, int)>
  {
    var parts := Split(id, '_');
    if |parts| != 3 then None
    else
      var date := Split(parts[2], '-');
      if |date| != 3 then None
      else
        match (ParseInt(parts[0]), ParseInt(parts[1]), ParseInt(date[0]), ParseInt(date[1]), ParseInt(date[2]))
        case (Some(s), Some(d), Some(y), Some(m), Some(dd)) => Some((s, d, y, m, dd))
        case _ => None
  }

  /** `zfill(2)` of a non-negative decimal: only digits, at least two of them. */
  lemma PaddedDigits(n: nat)
    ensures AllDigits(ZFill(NatToString(n), 2)) && |ZFill(NatToString(n), 2)| >= 2
  {
    var s := NatToString(n);
    if |s| < 2 {
      assert ZFill(s, 2) == Zeros(2 - |s|) + s;
    }
  }

  /** The date part of an id, `Y-MM-DD`, splits into three integer
      literals for the year, month and day. */
  lemma DecodeDateText(y: nat, m: nat, d: nat)
    ensures '_' !in DateText(y, m, d)
    ensures Split(DateText(y, m, d), '-') == [NatToString(y), ZFill(NatToString(m), 2), ZFill(NatToString(d), 2)]
    ensures ParseInt(NatToString(y)) == Some(y)
    ensures ParseInt(ZFill(NatToString(m), 2)) == Some(m)
    ensures ParseInt(ZFill(NatToString(d), 2)) == Some(d)
  {
    var year, month, day := NatToString(y), ZFill(NatToString(m), 2), ZFill(NatToString(d), 2);
    PaddedDigits(m);
    PaddedDigits(d);
    SplitThree(year, month, day, '-');
    var date := DateText(y, m, d);
    assert date == year + "-" + month + "-" + day;
    assert forall c :: c in date ==> c == '-' || c in year || c in month || c in day;
    ParseIntOfIntToString(y);
    ParseIntOfPadded(m, 2);
    ParseIntOfPadded(d, 2);
  }

  /** An id whose parts read as the given integers decodes to them. */
  lemma DecodeIdParts(id: string, parts: seq<string>, date: seq<string>, values: (int, int, int, int, int))
    requires Split(id, '_') == parts && |parts| == 3 && Split(parts[2], '-') == date && |date| == 3
    requires ParseInt(parts[0]) == Some(values.0) && ParseInt(parts[1]) == Some(values.1)
    requires ParseInt(date[0]) == Some(values.2) && ParseInt(date[1]) == Some(values.3)
    requires ParseInt(date[2]) == Some(values.4)
    ensures DecodeId(id) == Some(values)
  {
  }

  /** For a non-negative date, the id determines store, dept and the
      truncated year, month and day: `generate_id` loses nothing but the
      fractional parts. */
  lemma DecodeGenerateId(storeId: int, deptId: int, record: seq<real>)
    requires |record| >= 3
    requires 0.0 <= record[0] && 0.0 <= record[1] && 0.0 <= record[2]
    ensures GenerateId(storeId, deptId, record).Success?
    ensures DecodeId(GenerateId(storeId, deptId, record).value) ==
      Some((storeId, deptId, Trunc(record[0]), Trunc(record[1]), Trunc(record[2])))
  {
    var y, m, d := Trunc(record[0]), Trunc(record[1]), Trunc(record[2]);
    var store, dept, date := IntToString(storeId), IntToString(deptId), DateText(y, m, d);
    DecodeDateText(y, m, d);
    assert '_' !in store && '_' !in dept;
    SplitThree(store, dept, date, '_');
    ParseIntOfIntToString(storeId);
    ParseIntOfIntToString(deptId);
    assert GenerateId(storeId, deptId, record).value == store + "_" + dept + "_" + date;
    DecodeIdParts(GenerateId(storeId, deptId, record).value, [store, dept, date],
      [NatToString(y), ZFill(NatToString(m), 2), ZFill(NatToString(d), 2)], (storeId, deptId, y, m, d));
  }

  /** `generate_id` of every row, in row order. */
  function IdResults(storeId: int, deptId: int, rows: seq<seq<real>>): (r: seq<Result<string>>)
    ensures |r| == |rows| && forall i :: 0 <= i < |rows| ==> r[i] == GenerateId(storeId, deptId, rows[i])
  {
    seq(|rows|, i requires 0 <= i < |rows| => GenerateId(storeId, deptId, rows[i]))
  }

  /** The ids `predict` builds; the first short row raises `IndexError`. */
  function Ids(storeId: int, deptId: int, rows: seq<seq<real>>): Result<seq<string>>
  {
    Collect(IdResults(storeId, deptId, rows))
  }

  /** Ids succeed exactly when every row has at least three entries, and
      then there is one per row, in row order. */
  lemma IdsPerRow(storeId: int, deptId: int, rows: seq<seq<real>>)
    ensures Ids(storeId, deptId, rows).Success? <==> forall i :: 0 <= i < |rows| ==> |rows[i]| >= 3
    ensures Ids(storeId, deptId, rows).Failure? ==> Ids(storeId, deptId, rows).error == IndexError
    ensures Ids(storeId, deptId, rows).Success? ==>
      var ids := Ids(storeId, deptId, rows).value;
      && |ids| == |rows|
      && forall i :: 0 <= i < |rows| ==> GenerateId(storeId, deptId, rows[i]) == Success(ids[i])
  {
    var results := IdResults(storeId, deptId, rows);
    CollectSpec(results);
    forall i | 0 <= i < |rows|
      ensures results[i].Success? <==> |rows[i]| >= 3
      ensures results[i].Failure? ==> results[i].error == IndexError
    {
      assert results[i] == GenerateId(storeId, deptId, rows[i]);
    }
  }

  // ---------------------------------------------------------------------------
  // predicting one key

  /** `predict(store_id, dept_id, data)`: the ids, then the key's model
      applied to the scaled data, or a column of zeros for a key never
      trained (the `KeyError` is caught). */
  function Prediction(models: Models, key: Key, data: Matrix): (r: Result<(seq<string>, Predictions)>)
    ensures r.Success? ==> (r.value.1.ZeroColumn? <==> key !in models.scalers || key !in models.predictors)
  {
    var ids :- Ids(key.0, key.1, data.rows);
    if key in models.scalers && key in models.predictors then
      Success((ids, ModelOutput(models.predictors[key], Scaled(models.scalers[key], data.rows))))
    else
      Success((ids, ZeroColumn(|ids|)))
  }

  /** `predict` fails only when a row is too short for an id, and then with
      `IndexError`; it never raises for an untrained key, and the zeros
      then have one entry per row. */
  lemma PredictionOutcome(models: Models, key: Key, data: Matrix)
    requires data.Shaped()
    ensures Prediction(models, key, data).Success? <==> |data.rows| == 0 || data.width >= 3
    ensures Prediction(models, key, data).Failure? ==> Prediction(models, key, data).error == IndexError
    ensures Prediction(models, key, data).Success? ==>
      && |Prediction(models, key, data).value.0| == |data.rows|
      && (key !in models.scalers ==> Prediction(models, key, data).value.1 == ZeroColumn(|data.rows|))
  {
    IdsPerRow(key.0, key.1, data.rows);
  }

  /** Training one key changes the predictions of that key alone: afterwards
      it predicts with the newly fitted scaler and regressor. */
  lemma PredictAfterTrain(models: Models, algorithm: string, key: Key, data: Matrix, query: Key, test: Matrix)
    requires data.Shaped()
    requires TrainModels(models, algorithm, key, data).Success?
    ensures var after := TrainModels(models, algorithm, key, data).value;
      var (scaler, predictor) := Fit(algorithm, data).value;
      Prediction(after, query, test) ==
        if query == key then
          match Ids(query.0, query.1, test.rows)
          case Failure(e) => Failure(e)
          case Success(ids) => Success((ids, ModelOutput(predictor, Scaled(scaler, test.rows))))
        else Prediction(models, query, test)
  {
  }

  // ---------------------------------------------------------------------------
  // training from a directory

  /** `filename.endswith(suffix)`. */
  predicate EndsWith(s: string, suffix: string)
  {
    |suffix| <= |s| && s[|s| - |suffix|..] == suffix
  }

  /** `store_id, dept_id = map(int, filename.split(".")[0].split("-"))`:
      both a non-integer part and a part count other than two raise
      `ValueError`. */
  function ParseModelFilename(filename: string): (r: Result<Key>)
    ensures r.Failure? ==> r.error == ValueError
  {
    var parts := Split(Split(filename, '.')[0], '-');
    if |parts| == 2 && ParseInt(parts[0]).Some? && ParseInt(parts[1]).Some? then
      Success((ParseInt(parts[0]).value, ParseInt(parts[1]).value))
    else Failure(ValueError)
  }

  /** What `np.loadtxt` returns for a `.num` file: a one-dimensional array
      when the file has one line or one column, a two-dimensional one
      otherwise. */
  datatype Loaded = Flat(values: seq<real>) | Table(m: Matrix)
  {
    predicate Shaped()
    {
      Table? ==> m.Shaped()
    }
  }

  /** `data.reshape((1, -1))` for a one-dimensional load. */
  function AsMatrix(loaded: Loaded): (m: Matrix)
    requires loaded.Shaped()
    ensures m.Shaped()
  {
    match loaded
    case Flat(values) => Matrix(|values|, [values])
    case Table(m) => m
  }

  /** Every load in the listing is a well-formed array. */
  predicate ListingShaped(files: seq<(string, Loaded)>)
  {
    forall j :: 0 <= j < |files| ==> files[j].1.Shaped()
  }

  /** `train_model` as a value: the listing's files in order, names without
      the `.num` suffix skipped, each other file's key parsed from its name
      and trained on its (reshaped) load; the first error stops the loop and
      keeps what was trained before it. */
  function TrainFiles(models: Models, algorithm: string, files: seq<(string, Loaded)>): (r: (Models, Outcome))
    requires ListingShaped(files)
    ensures r.1.Raised? ==> r.1.error == ValueError || r.1.error == IndexError
    ensures models.scalers.Keys <= r.0.scalers.Keys && models.predictors.Keys <= r.0.predictors.Keys
    decreases |files|
  {
    if |files| == 0 then (models, Done)
    else
      var prev := TrainFiles(models, algorithm, files[..|files| - 1]);
      var (name, loaded) := files[|files| - 1];
      if prev.1.Raised? || !EndsWith(name, ".num") then prev
      else
        match ParseModelFilename(name)
        case Failure(e) => (prev.0, Raised(e))
        case Success(key) =>
          match TrainModels(prev.0, algorithm, key, AsMatrix(loaded))
          case Failure(e) => (prev.0, Raised(e))
          case Success(after) => (after, Done)
  }

  /** A directory run keeps the dictionaries paired, and every key it adds
      was parsed from the name of a `.num` file of the listing. */
  lemma {:induction false} TrainFilesKeys(models: Models, algorithm: string, files: seq<(string, Loaded)>)
    requires ListingShaped(files)
    ensures models.Paired() ==> TrainFiles(models, algorithm, files).0.Paired()
    ensures forall k :: k in TrainFiles(models, algorithm, files).0.scalers ==>
      || k in models.scalers
      || exists j :: 0 <= j < |files| && EndsWith(files[j].0, ".num") && ParseModelFilename(files[j].0) == Success(k)
    decreases |files|
  {
    if |files| > 0 {
      var init := files[..|files| - 1];
      TrainFilesKeys(models, algorithm, init);
      assert forall j :: 0 <= j < |init| ==> init[j] == files[j];
      var prev := TrainFiles(models, algorithm, init);
      var (name, loaded) := files[|files| - 1];
      if prev.1.Done? && EndsWith(name, ".num") && ParseModelFilename(name).Success? {
        TrainUpdatesOneKey(prev.0, algorithm, ParseModelFilename(name).value, AsMatrix(loaded));
      }
    }
  }

  /** A listing without `.num` files trains nothing and raises nothing. */
  lemma {:induction false} TrainFilesSkipsOtherNames(models: Models, algorithm: string, files: seq<(string, Loaded)>)
    requires ListingShaped(files)
    requires forall j :: 0 <= j < |files| ==> !EndsWith(files[j].0, ".num")
    ensures TrainFiles(models, algorithm, files) == (models, Done)
    decreases |files|
  {
    if |files| > 0 {
      TrainFilesSkipsOtherNames(models, algorithm, files[..|files| - 1]);
    }
  }

  // ---------------------------------------------------------------------------
  // the predictor object

  /** `CompositePredictor`: the regressor class it was built with and the
      two dictionaries `train` fills. */
  class CompositePredictor {
    /** The name of `per_dept_regressor_class`. */
    const algorithm: string
    var predictors: map<Key, Regressor>
    var scalers: map<Key, Scaler>

    /** Every trained key has both a scaler and a predictor. */
    ghost predicate Valid()
      reads this
    {
      Models(scalers, predictors).Paired()
    }

    /** `__init__`: both dictionaries empty. */
    constructor (algorithm: string)
      ensures Valid()
      ensures this.algorithm == algorithm && predictors == map[] && scalers == map[]
    {
      this.algorithm := algorithm;
      predictors := map[];
      scalers := map[];
    }

    /** `train(store_id, dept_id, data)`. */
    method Train(storeId: int, deptId: int, data: Matrix) returns (r: Outcome)
      requires data.Shaped()
      modifies this
      ensures match TrainModels(old(Models(scalers, predictors)), algorithm, (storeId, deptId), data)
        case Failure(e) => r == Raised(e) && scalers == old(scalers) && predictors == old(predictors)
        case Success(after) => r == Done && Models(scalers, predictors) == after
      ensures old(Valid()) ==> Valid()
    {
      if data.width == 0 {
        return Raised(IndexError);
      }
      var featureData := Features(data);
      var targetData := Target(data);
      var scaler := Scaler(featureData);
      var predictor := Regressor(algorithm, Scaled(scaler, featureData), targetData);
      scalers := scalers[(storeId, deptId) := scaler];
      predictors := predictors[(storeId, deptId) := predictor];
      r := Done;
    }

    /** `predict(store_id, dept_id, data)`: one id per row appended in a
        loop, then the key's model or, for an unknown key, zeros. */
    method Predict(storeId: int, deptId: int, data: Matrix) returns (r: Result<(seq<string>, Predictions)>)
      ensures r == Prediction(Models(scalers, predictors), (storeId, deptId), data)
    {
      ghost var results := IdResults(storeId, deptId, data.rows);
      var ids: seq<string> := [];
      var i := 0;
      while i < |data.rows|
        invariant 0 <= i <= |data.rows|
        invariant Collect(results[..i]) == Success(ids)
      {
        assert results[..i + 1][..i] == results[..i];
        var id := GenerateId(storeId, deptId, data.rows[i]);
        assert results[..i + 1][i] == id;
        if id.Failure? {
          CollectFailurePersists(results, i + 1);
          return Failure(id.error);
        }
        ids := ids + [id.value];
        i := i + 1;
      }
      assert results[..i] == results;
      var key := (storeId, deptId);
      if key in scalers && key in predictors {
        r := Success((ids, ModelOutput(predictors[key], Scaled(scalers[key], data.rows))));
      } else {
        r := Success((ids, ZeroColumn(|ids|)));
      }
    }

    /** `train_model(data_dir, model)` over the directory's listing and the
        arrays `np.loadtxt` reads from its `.num` files. */
    method TrainModel(files: seq<(string, Loaded)>) returns (r: Outcome)
      requires ListingShaped(files)
      modifies this
      ensures (Models(scalers, predictors), r) == TrainFiles(old(Models(scalers, predictors)), algorithm, files)
    {
      ghost var start := Models(scalers, predictors);
      var i := 0;
      while i < |files|
        invariant 0 <= i <= |files|
        invariant TrainFiles(start, algorithm, files[..i]) == (Models(scalers, predictors), Done)
      {
        assert files[..i + 1][..i] == files[..i];
        var (filename, loaded) := files[i];
        if EndsWith(filename, ".num") {
          var key := ParseModelFilename(filename);
          if key.Failure? {
            TrainFilesStops(start, algorithm, files, i + 1);
            return Raised(key.error);
          }
          var data := AsMatrix(loaded);
          var outcome := Train(key.value.0, key.value.1, data);
          if outcome.Raised? {
            TrainFilesStops(start, algorithm, files, i + 1);
            return outcome;
          }
        }
        i := i + 1;
      }
      assert files[..i] == files;
      r := Done;
    }
  }

  /** Once a prefix of the listing raises, the whole run ends there. */
  lemma {:induction false} TrainFilesStops(models: Models, algorithm: string, files: seq<(string, Loaded)>, k: nat)
    requires ListingShaped(files)
    requires k <= |files|
    requires TrainFiles(models, algorithm, files[..k]).1.Raised?
    ensures TrainFiles(models, algorithm, files) == TrainFiles(models, algorithm, files[..k])
    decreases |files| - k
  {
    if k == |files| {
      assert files[..k] == files;
    } else {
      assert files[..k + 1][..k] == files[..k];
      TrainFilesStops(models, algorithm, files, k + 1);
    }
  }
}
