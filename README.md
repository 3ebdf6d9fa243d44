# Walmart weekly-sales pipeline: a verified model of its data handling

This project is a Dafny model of the deterministic core of a Python pipeline
that forecasts Walmart weekly department sales. It covers six pieces.

- **Raw data loading** (`build_db.py`): a `TableBuilder` finds the `Date`
  column of a CSV header. It rewrites every record's `Y-M-D` date into three
  integer fields, in place, before the record is inserted into a table.
  The module is `BuildDb`.
- **Per-department CSV files** (`build_dept_csv.py`): the rows of the joined
  tables are grouped by `(store_id, dept_id)`, in arrival order. Each group
  becomes one file named `S-D`. The module is `DeptCsv`.
- **Full-table feature extraction** (`extract_features.py`): a
  17/18-field file becomes a numeric matrix.
  - The store and dept ids come first, then the one-hot columns of the store
    `type`, then the other transformed columns.
  - A train file ends with its raw weekly sales.
  - The module is `FullFeatures`.
- **Per-department feature extraction** (`extract_dept_features.py`): each
  15/16-field file of a directory becomes a 13- or 14-column matrix. One
  extractor object serves the whole directory. The module is `DeptFeatures`.
- **Column transformers**: both extractors declare the same classes
  (`NumberTransformer`, `NonZeroNumTransformer`, `MarkdownTransformer`,
  `BooleanEncoder`, `OneHotEncoder`, the month and day transformers and the
  normalizing `transform`). Reading a file into records is also shared. The
  modules are `Transformers`, `Columns` and `Records`.
- **Per-(store, dept) model registry** (`train_per_dept.py`): a
  `CompositePredictor` keeps one scaler and one regressor per key. It trains
  them from a directory of `S-D.num` matrices, and names every predicted row
  with a Kaggle submission id. The module is `Registry`.
- **Positional ids** (`gen_ids.py`): a line's fields 0, 1, 4, 5 and 6 are
  joined into an id. The module is `GenIds`.

Modules `Wrappers` (`Option`, `Result`, the Python exception kinds), `Text`
(`split`, `join`, `strip`, `int()`, `float()`, `str()`, `zfill`, `int(x)`
of a float), `Lists` (`list.insert`) and `Matrices` (`np.column_stack`, column
slices) model the Python and numpy primitives this code relies on.

## How the model is built

The model follows the shape of the code.

- Python code that changes state is modelled as Dafny classes and methods with
  loops. The transformers' `_transform` loops, `NonZeroNumTransformer.fill_val`,
  the one-hot dictionary, the `read_records` and `predict` append loops,
  `extract_features`'s list inserts, `join_tables`' grouping loop,
  `process_record`'s in-place surgery and the directory loops are all done
  this way.
- Each such method is proved equal to a pure function of its inputs and
  prior state.
- The properties are proved about those functions.
- Everything the code raises is a `Result` failure carrying the Python
  exception kind (`ValueError`, `IndexError`). A directory loop stops at the
  first raise and keeps what was written before it. For `build_db.py` that
  means the rows handed to INSERT; the raise skips `commit`, so none of them
  is committed.

Three behaviours of the code are easy to miss:

- `NonZeroNumTransformer` keeps a single fill value. The CPI column and the
  unemployment column share it. In `extract_dept_features.py` every file of
  the directory shares it as well, so an unparsable first CPI value in one
  file is filled from the previous file.
- `MarkdownTransformer` raises `ValueError` on any entry that is neither `NA`
  nor a number, an empty cell included; it is not fail-soft. An empty column
  is not an error for it (it yields an empty column), but min-max
  normalization raises `ValueError` on an empty column, because the maximum
  of an empty array is undefined.
- `train` adds no minimum-data check of its own: whatever rows a file has
  are handed to scikit-learn, which rejects only what it rejects itself.
  `predict` silently falls back to a column of zeros for a key without a
  model.

## Model

| member | source | states |
|---|---|---|
| Records.ResolveSchema | extract_features.py:63-71 | The first line's field count makes the file a test file (the test count) or a train file (one more). Any other count is `ValueError`. This holds both ways. |
| Records.ReadRecords | extract_features.py:55-76 | The reading loop returns exactly what `Read` specifies: the schema check first, then one record per non-blank line. |
| Records.Read | extract_features.py:55-76 | A successful read yields at most one record per line of the file. |
| Records.ReadChecksSchemaFirst | extract_dept_features.py:49-62 | The train flag holds exactly when the first line has one field more than the test schema. A wrong field count raises `ValueError` whatever the rest of the file holds. |
| Records.ReadHasFields | extract_features.py:71-74 | Every record read has exactly the schema's number of fields. |
| Records.ReadErrorIsValueError | extract_features.py:55-76 | Reading only ever raises `ValueError`. |
| Records.DictRecords | extract_features.py:73-74 | `csv.DictReader` yields at most one record per line, since blank lines yield none. |
| Records.DictRecordsSucceeds | extract_features.py:73-74 | Records are read exactly when every line is blank or has at least the schema's field count. |
| Records.DictRecordsRows | extract_dept_features.py:64-65 | Records keep line order. Without blank lines there is one record per line, holding that line's leading fields. |
| Records.DictRecordsFailurePersists | extract_features.py:73-74 | Once a prefix of the file fails to read, the whole file fails with `ValueError`. |
| Matrices.ColumnOf | extract_features.py:79-80 | `get_column`, and `a[:, j]` of an array, has one entry per row. |
| Transformers.MinMaxBounds | extract_features.py:142-148 | `min()` and `max()` are entries of the array, and every entry lies between them. |
| Transformers.FinishLength | extract_features.py:134-140 | `transform` keeps the column's length. It fails only when min-max normalizing an empty column. |
| Transformers.FinishWithoutNormalize | extract_features.py:134-140 | Without `normalize`, `transform` returns `_transform`'s output unchanged. |
| Transformers.NormalizeColumn | extract_features.py:142-148 | Min-max normalization of a column raises only `ValueError`. When it succeeds it has one entry per value. |
| Transformers.NormalizeColumnInUnitInterval | extract_features.py:142-148 | `do_normalize` succeeds exactly on non-empty columns. Every entry of its result lies in [0, 1]. |
| Transformers.NormalizeColumnMonotone | extract_features.py:142-148 | Min-max normalization keeps the order of entries. |
| Transformers.NormalizeColumnExtremes | extract_features.py:142-148 | The smallest entry maps to 0, and the largest to 1 when the column is not constant. |
| Transformers.NormalizeConstantColumn | extract_features.py:145-146 | A constant non-empty column normalizes to all zeros. |
| Transformers.NumberColumn | extract_features.py:190-199 | One entry per value. Each entry is the value read by `float`, or the fill value where `float` raises. |
| Transformers.MarkdownColumn | extract_features.py:172-182 | The column raises `ValueError` exactly when some entry is neither `NA` nor a number. Otherwise it has one entry per value: `NA` is 0 and every other entry is the number `float` reads from it. |
| Transformers.BooleanColumn | extract_features.py:236-248 | The column succeeds exactly when every entry is `TRUE` or `FALSE`, and otherwise raises `ValueError`. On success `TRUE` is 1 and `FALSE` is 0. |
| Transformers.NumberTransformer.constructor | extract_features.py:186-188 | The transformer keeps its fill value, its `normalize` flag and its normalization rule. |
| Transformers.NumberTransformer.RawTransform | extract_features.py:190-199 | Each entry is the parsed value when `float()` accepts the string and the fixed fill value otherwise. The length equals the input's. |
| Transformers.NumberTransformer.Transform | extract_features.py:134-140 | `transform` is `_transform` followed by the rule's `do_normalize` when the flag is set. Without the flag it always succeeds with one entry per value. |
| Transformers.MarkdownTransformer.constructor | extract_features.py:131-132 | The transformer keeps its `normalize` flag. |
| Transformers.MarkdownTransformer.RawTransform | extract_features.py:172-182 | Succeeds exactly when every token is `NA` or a number, otherwise `ValueError`. `NA` gives 0 and every other token its parsed value. |
| Transformers.MarkdownTransformer.Transform | extract_features.py:134-140 | The markdown `transform` is the raw column, min-max normalized when the flag is set. |
| Transformers.BooleanEncoder.constructor | extract_features.py:131-132 | The encoder keeps its `normalize` flag. |
| Transformers.BooleanEncoder.RawTransform | extract_features.py:236-248 | Succeeds exactly when every token is `TRUE` or `FALSE`, otherwise `ValueError`. `TRUE` gives 1 and `FALSE` gives 0, with one entry per token. |
| Transformers.BooleanEncoder.Transform | extract_dept_features.py:186-198 | The boolean `transform` is the encoded column, min-max normalized when the flag is set. |
| Transformers.CarryForward | extract_features.py:205-218 | One output per value. The fill value left behind is the last output, or the starting fill for an empty column. |
| Transformers.CarryForwardSpec | extract_features.py:207-218 | Entry 0 is the parse of value 0, or the incoming fill value. Entry i is the parse of value i, or entry i-1. The fill value left behind is the last entry, or the incoming fill for an empty column. |
| Transformers.CarryForwardAppend | extract_features.py:96-97 | Carrying forward over two columns in turn equals one pass over their concatenation. This is why CPI and unemployment share one state. |
| Transformers.CarryForwardUnparsedPrefix | extract_dept_features.py:172-183 | Before any value has parsed, every entry is the fill value the transformer came in with. |
| Transformers.NonZeroNumTransformer.constructor | extract_features.py:203-205 | The transformer starts from the given fill value and flag. |
| Transformers.NonZeroNumTransformer.RawTransform | extract_features.py:207-218 | Returns the carry-forward column and leaves `fill_val` at the last value parsed, or unchanged if none parsed. |
| Transformers.NonZeroNumTransformer.Transform | extract_features.py:134-140 | `transform` updates `fill_val` as `_transform` does and returns the carried column, normalized when the flag is set. |
| Transformers.Vocabulary | extract_features.py:159-162 | The distinct values, without duplicates, and exactly the values of the column. |
| Transformers.IndexOf | extract_features.py:161 | The position of the first occurrence of a value. |
| Transformers.OneHot | extract_features.py:155-169 | One row per value, each as wide as the vocabulary. |
| Transformers.VocabularyGrows | extract_features.py:159-162 | A new value is appended to the vocabulary, and a value already seen leaves it unchanged. |
| Transformers.RankIsFirstSeen | extract_features.py:159-162 | The index a value gets is the number of distinct values seen before its first occurrence. |
| Transformers.OneHotWidth | extract_features.py:164 | One row per value, each as wide as the number of distinct values. |
| Transformers.OneHotRowIsIndicator | extract_features.py:166-167 | Row i has a single 1, at its value's first-seen rank, and 0 elsewhere. |
| Transformers.OneHotRowsEqual | extract_features.py:155-169 | Two rows are equal exactly when their values are equal. |
| Transformers.VocabularyOfDistinct | extract_features.py:159-162 | A column of distinct values is its own vocabulary, in column order. |
| Transformers.OneHotOfDistinct | extract_features.py:155-169 | Distinct values encode as the identity matrix: value i gets the indicator row with its 1 at i. |
| Transformers.VocabularyOfRepeats | extract_features.py:159-162 | For five distinct values, the column `a, b, a, c, d, e, d, b` has the vocabulary `a, b, c, d, e`. |
| Transformers.IndexOfFive | extract_features.py:161 | In five distinct values, each value's first-seen rank is its own position. |
| Transformers.OneHotOfFive | extract_features.py:155-169 | Five distinct values encode as the 5 x 5 identity. |
| Transformers.OneHotOfRepeats | extract_features.py:155-169 | `a, b, a, c, d, e, d, b` encodes as eight rows of width 5, each repeat on the row of its value's first occurrence. |
| Transformers.OneHotTransformTest | tests.py:25-37 | `awful, poor, ok, good, great` encodes as the 5 x 5 identity. |
| Transformers.OneHotTransformDuplicatesTest | tests.py:39-55 | `awful, poor, awful, ok, good, great, good, poor` encodes as the eight rows the test expects. |
| Transformers.OneHotNormalized | extract_features.py:142-148 | Normalizing a one-hot matrix is as follows. An empty column raises `ValueError`. A single distinct value gives one column of zeros. Two or more distinct values leave the matrix unchanged. |
| Transformers.OneHotTransformShape | extract_features.py:134-140 | The encoder's `transform` fails only when normalizing an empty column. Otherwise it gives one row per value, as wide as the vocabulary. |
| Transformers.OneHotEncoder.constructor | extract_features.py:131-132 | The encoder keeps its `normalize` flag. |
| Transformers.OneHotEncoder.AssignIndices | extract_features.py:156-162 | The dictionary loop maps exactly the column's values, each to its first-seen rank. The final `index` is the vocabulary size. |
| Transformers.OneHotEncoder.MarkRows | extract_features.py:164-167 | The marking loop gives row p the indicator row of its value's index. |
| Transformers.OneHotEncoder.RawTransform | extract_features.py:155-169 | `_transform` is the one-hot matrix. |
| Transformers.OneHotEncoder.Transform | extract_features.py:134-140 | `transform` is the one-hot matrix, normalized over all entries when the flag is set. |
| Columns.FieldResults | extract_features.py:82-95 | One transform result per listed field, in list order. |
| FullFeatures.LeadingEntry | extract_features.py:82-95 | Every field up to `markdown5` except `type` goes through the transformer the source assigns it: months and days through their own normalization, markdowns through the markdown transformer, the rest through the number transformer. |
| FullFeatures.LeadingMarkdownFields | extract_features.py:91-95 | The last five stateless columns are the markdowns, in order. |
| FullFeatures.LeadingColumnsValue | extract_features.py:82-95 | When the leading transforms succeed, each column is its transformer's output, and `types` is the one-hot encoding of the `type` field. |
| FullFeatures.LeadingShape | extract_features.py:82-95 | Each leading column has one entry per record. `types` has one row per record, as wide as the number of distinct store types. |
| FullFeatures.UnnormalizedLeading | extract_features.py:82-95 | Without normalization the leading transforms succeed exactly when every markdown cell is `NA` or a number. |
| FullFeatures.FeatureColumnsLayout | extract_features.py:100-125 | The list has 16 + d columns, plus the target. The ids come at 0 and 1 and the one-hot column i at 2 + i. The other columns follow in source order, shifted by d. CPI, unemployment and `is_holiday` come at 13 + d to 15 + d, and the target at 16 + d. |
| FullFeatures.AssembleLayout | extract_features.py:100-127 | The stacked matrix has one row per record and 16 + d columns (+1 for train), each at the position the list gives it. |
| FullFeatures.Extract | extract_features.py:78-127 | `extract_features` raises only `ValueError`. When it succeeds it has one feature row per record. |
| FullFeatures.ExtractSucceeds | extract_features.py:78-127 | A successful extraction implies every transform succeeded. Its matrix is the stack of their outputs. The shared fill value ends where one pass over the CPI column followed by the unemployment column leaves it. |
| FullFeatures.ExtractLayout | extract_features.py:100-127 | A successful extraction has the full column layout. The ids, one-hot block, stateless columns, carried CPI and unemployment, `is_holiday` and the target each sit at their position. |
| FullFeatures.ExtractIdColumns | extract_features.py:100-102 | Columns 0 and 1 are the transformed store and dept ids. |
| FullFeatures.ExtractEmptyNormalized | extract_features.py:142-148 | With normalization on, a file without records raises `ValueError` and leaves the fill value alone. |
| FullFeatures.ExtractUnnormalizedOutcome | extract_features.py:78-127 | Without normalization, extraction succeeds exactly when every markdown cell is `NA` or a number and every `is_holiday` cell is `TRUE` or `FALSE`. It otherwise raises `ValueError`. |
| FullFeatures.ExtractSharedFill | extract_features.py:96-97 | Unnormalized, the fill value after extraction is the last number parsed in CPI followed by unemployment, or the incoming fill. |
| FullFeatures.LeadingIdsUnnormalized | extract_features.py:82-83 | Without normalization, the id columns hold each record's parsed id, or 0. |
| FullFeatures.ExtractRowIds | extract_features.py:100-102 | Row i starts with record i's parsed store id and dept id, so rows keep record order. |
| FullFeatures.ExtractTypeColumns | extract_features.py:119-120 | Columns 2 to 2 + d - 1 are the one-hot columns of `type`, in vocabulary order. |
| FullFeatures.ExtractRowType | extract_features.py:119-120 | In row i the one-hot block has its single 1 at the first-seen rank of record i's `type`. |
| FullFeatures.ExtractRowTarget | extract_features.py:122-125 | In a train file the last entry of row i is record i's weekly sales, parsed, or 0. It is never normalized, whatever the flag. |
| FullFeatures.ExtractCarriedColumns | extract_features.py:96-97 | Unnormalized, the CPI column is carried forward from the incoming fill, and the unemployment column from the value CPI left behind. |
| FullFeatures.ExtractRowCarried | extract_features.py:114-115 | Row i holds the carried CPI and unemployment entries of record i. |
| FullFeatures.NumericalFeatureExtractor.constructor | extract_features.py:43-53 | Every transformer is built with the extractor's flag. The carry-forward fill starts at 0, and the target transformer never normalizes. |
| FullFeatures.NumericalFeatureExtractor.Open | extract_features.py:43-44 | Construction succeeds exactly when the file reads, and keeps its records and train flag. It otherwise raises `ValueError`. |
| FullFeatures.NumericalFeatureExtractor.StatelessTransform | extract_features.py:82-95 | Each stateless field's transform call gives that field's result. |
| FullFeatures.NumericalFeatureExtractor.IdAndTypeTransforms | extract_features.py:82-84 | `store_ids`, `dept_ids` and `types` succeed exactly when their transforms do, and yield their outputs. |
| FullFeatures.NumericalFeatureExtractor.SizeAndYearTransforms | extract_features.py:85-86 | `sizes` and `years` succeed exactly when their transforms do, and yield their outputs. |
| FullFeatures.NumericalFeatureExtractor.MonthAndDayTransforms | extract_features.py:87-88 | `months` and `days` (divided by 12 and 31 when normalizing) succeed exactly when their transforms do. |
| FullFeatures.NumericalFeatureExtractor.WeatherTransforms | extract_features.py:89-90 | `temps` and `fuel_prices` succeed exactly when their transforms do. |
| FullFeatures.NumericalFeatureExtractor.MarkdownTransforms | extract_features.py:91-95 | The five markdown columns succeed exactly when their transforms do, otherwise `ValueError`. |
| FullFeatures.NumericalFeatureExtractor.LeadingTransforms | extract_features.py:82-95 | The calls up to `markdown5` give exactly the leading columns, or the error. |
| FullFeatures.NumericalFeatureExtractor.SpliceColumns | extract_features.py:119-120 | The insert loop splices the one-hot columns into the list starting at position 2. |
| FullFeatures.NumericalFeatureExtractor.StackFeatures | extract_features.py:100-127 | Building the list, splicing and appending the target stacks into the specified matrix. |
| FullFeatures.NumericalFeatureExtractor.ExtractFeatures | extract_features.py:78-127 | The matrix or error, and the new fill value, are those `Extract` specifies from the fill value before the call. |
| DeptFeatures.LeadingFields | extract_dept_features.py:75-84 | Year, month, day, temperature and fuel price go through the number transformer, the five markdowns through the markdown transformer, in that order. |
| DeptFeatures.AssembleLayout | extract_dept_features.py:89-110 | The stacked matrix has one row per record and 13 columns (+1 for train): the ten stateless columns, CPI, unemployment, `is_holiday`, then the target. |
| DeptFeatures.Extract | extract_dept_features.py:69-110 | `extract_features` on the records raises only `ValueError`. When it succeeds it has one feature row per record. |
| DeptFeatures.ExtractFile | extract_dept_features.py:46-110 | Reading and extracting one file raises only `ValueError`. When it succeeds it has at most one row per line of the file. |
| DeptFeatures.ExtractLayout | extract_dept_features.py:69-110 | A successful extraction means every transform succeeded and each sits in its column. The fill value ends as one pass over CPI then unemployment leaves it. |
| DeptFeatures.ExtractIgnoresTypeAndSize | extract_dept_features.py:75-103 | `type` and `size` are never used: records that agree on all other fields extract identically. |
| DeptFeatures.UnnormalizedLeading | extract_dept_features.py:75-84 | Without normalization the stateless columns succeed exactly when every markdown cell is `NA` or a number. |
| DeptFeatures.ExtractUnnormalizedOutcome | extract_dept_features.py:69-110 | Without normalization, extraction succeeds exactly when markdowns and `is_holiday` cells are well formed. It otherwise raises `ValueError`. |
| DeptFeatures.ExtractEmptyNormalized | extract_dept_features.py:125-131 | With normalization on, a file without records raises `ValueError` and leaves the fill value alone. |
| DeptFeatures.ExtractRowTarget | extract_dept_features.py:105-108 | Unnormalized, column 13 of row i is record i's weekly sales, parsed, or 0. |
| DeptFeatures.ExtractTargetNormalized | extract_dept_features.py:105-108 | The target goes through `num_transformer`: with normalization on, every weekly-sales entry lies in [0, 1]. |
| DeptFeatures.ExtractRowCpiCarriedIn | extract_dept_features.py:85 | Until a CPI cell of the file parses, a row's CPI entry is the fill value left by earlier columns or earlier files. |
| DeptFeatures.RunFilesErrorKind | extract_dept_features.py:212-215 | If every file's extraction can raise only one kind of error, the directory loop stops only on that kind. |
| DeptFeatures.ExtractAll | extract_dept_features.py:205-215 | The only error that stops `main`'s loop over the directory is `ValueError`. |
| DeptFeatures.ExtractAllWritten | extract_dept_features.py:211-215 | The directory loop writes one matrix per file, in listing order, each extracted from the fill value the files before it left. The first error stops the loop, and the loop finishes exactly when every file was written. |
| DeptFeatures.RunFilesStopsAt | extract_dept_features.py:212-215 | A run writes at most one matrix per file. It stops at the first failing file, keeping that file's error and fill value. |
| DeptFeatures.RunFilesInOrder | extract_dept_features.py:212-215 | Matrix k of a run is file k's extraction from the fill value the earlier files left. |
| DeptFeatures.RunFilesStops | extract_dept_features.py:212-215 | Files after a failure are never read: a longer listing stops where the shorter one did. |
| DeptFeatures.NumericalFeatureExtractor.constructor | extract_dept_features.py:40-44 | Every transformer is built with the extractor's flag, and the carry-forward fill starts at 0. |
| DeptFeatures.NumericalFeatureExtractor.NumberTransform | extract_dept_features.py:75-79 | Each date or weather field's call gives that field's stateless result. |
| DeptFeatures.NumericalFeatureExtractor.MarkdownTransform | extract_dept_features.py:80-84 | Each markdown field's call gives that field's stateless result. |
| DeptFeatures.NumericalFeatureExtractor.DateAndWeatherTransforms | extract_dept_features.py:75-79 | The five date and weather columns succeed exactly when their transforms do, and yield them in order. |
| DeptFeatures.NumericalFeatureExtractor.MarkdownTransforms | extract_dept_features.py:80-84 | The five markdown columns succeed exactly when their transforms do, otherwise `ValueError`. |
| DeptFeatures.NumericalFeatureExtractor.TransformRecords | extract_dept_features.py:75-110 | The matrix or error, and the new fill value, are those `Extract` specifies. |
| DeptFeatures.NumericalFeatureExtractor.ExtractFeatures | extract_dept_features.py:69-70 | Reading, then transforming, gives what `ExtractFile` specifies from the current fill value. |
| DeptFeatures.NumericalFeatureExtractor.ExtractDirectory | extract_dept_features.py:212-215 | The loop over the listing produces the written matrices, the stopping error and the final fill value `ExtractAll` specifies. |
| DeptFeatures.ProcessDirectory | extract_dept_features.py:205-215 | `main` runs one unnormalized extractor, starting from fill 0, over the whole listing. |
| Registry.Features | train_per_dept.py:28 | `data[:, :-1]` has one row per data row and one column fewer. |
| Registry.Fit | train_per_dept.py:24-32 | Fitting raises only `IndexError`. A fitted regressor carries the algorithm and one target per row. |
| Registry.TrainModels | train_per_dept.py:24-35 | `train` raises only `IndexError`. When it succeeds, the key is added to both dictionaries and no other key is added. |
| Registry.FitSplitsColumns | train_per_dept.py:24-32 | `train` raises only on an array without columns (`IndexError`). The scaler is fitted on all columns but the last, and the regressor on the scaled features against the last column. Features followed by target give back each row. |
| Registry.TrainUpdatesOneKey | train_per_dept.py:34-35 | `train` overwrites its key in both dictionaries and leaves every other key as it was. It keeps the dictionaries' key sets equal, and changes nothing on error. |
| Registry.PredictAfterTrain | train_per_dept.py:45-57 | After training a key, that key predicts with the new scaler and regressor. Every other key predicts as before. |
| Registry.GenerateId | train_per_dept.py:37-43 | `generate_id` raises `IndexError` exactly when the row has fewer than three entries. |
| Registry.PaddedDigits | train_per_dept.py:42-43 | `zfill(2)` of a non-negative number is all digits and at least two long. |
| Registry.DecodeDateText | train_per_dept.py:41-43 | The date part `Y-MM-DD` splits into three integer literals for the year, month and day. |
| Registry.DecodeIdParts | train_per_dept.py:41-43 | An id whose five parts read as integers decodes to them. |
| Registry.DecodeGenerateId | train_per_dept.py:37-43 | For a non-negative date the id gives back the store, the dept and the truncated year, month and day. |
| Registry.IdResults | train_per_dept.py:46-48 | One `generate_id` result per row, in row order. |
| Registry.IdsPerRow | train_per_dept.py:46-48 | Ids succeed exactly when every row has at least three entries (otherwise `IndexError`). They then give one id per row, in row order. |
| Registry.Prediction | train_per_dept.py:45-57 | When `predict` succeeds, it returns the zero column exactly when the key has no scaler or no predictor. |
| Registry.PredictionOutcome | train_per_dept.py:45-57 | `predict` fails only with `IndexError` on a short row. An untrained key never raises, and its zeros have one entry per row. |
| Registry.ParseModelFilename | train_per_dept.py:65 | Parsing a file name only ever raises `ValueError`. |
| Registry.AsMatrix | train_per_dept.py:70-71 | A one-dimensional load is reshaped into a one-row matrix. |
| Registry.TrainFiles | train_per_dept.py:60-73 | `train_model` stops only on `ValueError` (a bad file name) or `IndexError` (an array without columns). Models trained before are never dropped. |
| Registry.TrainFilesKeys | train_per_dept.py:60-73 | A directory run keeps the two dictionaries paired. Every key it adds comes from the name of a `.num` file in the listing. |
| Registry.TrainFilesSkipsOtherNames | train_per_dept.py:62-63 | A listing without `.num` files trains nothing and raises nothing. |
| Registry.TrainFilesStops | train_per_dept.py:60-73 | Once a prefix of the listing raises, the run ends there. |
| Registry.CompositePredictor.constructor | train_per_dept.py:18-22 | Both dictionaries start empty, and the regressor class is kept. |
| Registry.CompositePredictor.Train | train_per_dept.py:24-35 | The dictionaries become what `TrainModels` gives, or stay unchanged on `IndexError`. The pairing invariant is kept. |
| Registry.CompositePredictor.Predict | train_per_dept.py:45-57 | The id loop and the `KeyError` fallback return what `Prediction` specifies. |
| Registry.CompositePredictor.TrainModel | train_per_dept.py:60-73 | The loop over the listing leaves the dictionaries and the outcome `TrainFiles` specifies. |
| Text.JoinSplit | build_db.py:31 | Splitting on a separator loses nothing: joining the pieces gives back the string. |
| Text.SplitJoin | gen_ids.py:11 | Pieces without the separator, joined and split again, come back unchanged. |
| Text.SplitPiecesLackSeparator | build_db.py:66 | No piece of a split contains the separator. |
| Text.IntToString | train_per_dept.py:38-39 | `str` of an integer is never empty and starts with `-` exactly when the integer is negative. |
| Text.ParseInt | build_db.py:66 | `int` accepts only digits after the first character of the stripped text, and yields a negative value only after a leading `-`. |
| Text.ParseNum | extract_features.py:193-196 | `float` accepts only non-blank text, and yields a negative value only after a leading `-`. |
| Text.ParseNumOfInteger | extract_features.py:193-196 | `float` reads every integer literal `int` accepts as the same number. |
| Text.ParseIntOfIntToString | train_per_dept.py:39 | `int(str(i)) == i`. |
| Text.ParseIntOfPadded | train_per_dept.py:42-43 | Zero-padding a non-negative number keeps its value: `int(str(n).zfill(w)) == n`. |
| Text.ZFill | train_per_dept.py:42-43 | `zfill` pads to exactly the width and keeps a string already that long intact. |
| Text.Trunc | train_per_dept.py:38-39 | `int(x)` truncates toward zero: it lies within 1 of x, on the side of 0. |
| Lists.InsertPlaces | build_db.py:54-55 | `insert(k, x)` puts x at k, keeps what is before k and shifts the rest right by one. |
| Matrices.ColumnStackColumns | extract_features.py:127 | `np.column_stack` gives a rectangular matrix whose column j is the j-th input column. |
| Matrices.ColumnsOfStack | extract_features.py:119-120 | Stacking a matrix's own columns gives it back. |
| Wrappers.CollectSpec | train_per_dept.py:46-48 | Collecting results succeeds exactly when each does, keeping them in order. Otherwise it fails with the first error. |
| DeptCsv.FileName | build_dept_csv.py:26-28 | The path ends with the key's `store-dept` name. |
| DeptCsv.FileNameInDirectory | build_dept_csv.py:26-28 | The file name is the output directory joined with `S-D`, a name without `/`. |
| DeptCsv.StoreDeptNameChars | build_dept_csv.py:27 | `"%d-%d"` contains no `.`. |
| DeptCsv.ModelFileNameRoundTrip | build_dept_csv.py:27 | `S-D` is not a `.num` name, and `S-D.num` is. For non-negative ids it parses back to `(S, D)` by `train_model`'s rule. A negative id makes that parse raise `ValueError`. |
| DeptCsv.SplitLeadingSign | build_dept_csv.py:27 | A negative id's sign adds a `-`, so the name splits into three or more parts. |
| DeptCsv.JoinTables | build_dept_csv.py:60-66 | The grouping loop builds exactly `Group` of the rows. |
| DeptCsv.Group | build_dept_csv.py:60-66 | Every key of the grouped rows has at least one row. |
| DeptCsv.GroupIsFilter | build_dept_csv.py:60-66 | The keys are exactly the `row[:2]` seen. Each group is the `row[2:]` of the rows with that key, in arrival order. |
| DeptCsv.TailsWithoutKey | build_dept_csv.py:60-66 | A key that no row has collects nothing. |
| DeptCsv.FirstSeenKeysAreGroups | build_dept_csv.py:60-66 | The keys in first-seen order are distinct and are exactly the group keys. |
| DeptCsv.GroupTotal | build_dept_csv.py:60-66 | No row is lost or duplicated: the group sizes sum to the row count. |
| DeptCsv.GroupTailWidths | build_dept_csv.py:32-58 | With 17-field test rows or 18-field train rows, every tail has the 15 or 16 fields the per-department extractor accepts. |
| DeptCsv.CsvLines | build_dept_csv.py:73 | `writerows` writes one line per tail. |
| DeptCsv.GroupFileReadsBack | build_dept_csv.py:70-73 | A non-empty group file of comma-free fields reads back, in the per-department extractor, as exactly its tails, classified test or train. |
| BuildDb.TextFields | build_db.py:39 | A record from `csv.reader` is all text, one field per cell. |
| BuildDb.IndexOfDate | build_db.py:32-36 | `header.index("Date")` is the first `Date` field. It is `None` exactly when there is none. |
| BuildDb.IndexOfFirstDate | build_db.py:33 | The first `Date` field is the one found. |
| BuildDb.SplitHeaderLine | build_db.py:31 | The header line splits into its fields, with the line terminator stuck to the last one. |
| BuildDb.HeaderDateFound | build_db.py:31-33 | A `Date` field that is not last is found at its position. |
| BuildDb.HeaderDateLast | build_db.py:31-36 | A `Date` field that is last is not found, because `readline` keeps the terminator. The date index is then `None`. |
| BuildDb.ParseDate | build_db.py:59-66 | `parse_date` gives one integer per `-`-part. |
| BuildDb.ParseInts | build_db.py:66 | `map(int, ...)` gives one integer per part, or `ValueError`. |
| BuildDb.ParseIntsAppend | build_db.py:66 | Parsing one more literal appends its value. |
| BuildDb.ParseThreeInts | build_db.py:66 | Three integer literals parse to their three values. |
| BuildDb.ParseDateOfDateText | build_db.py:59-66 | `parse_date` reads back a `Y-MM-DD` date written as submission ids write it. |
| BuildDb.ExpandDate | build_db.py:50-57 | `process_record` raises only `IndexError` or `ValueError`. With a non-zero date index the record grows by two fields, and otherwise it keeps its length. |
| BuildDb.ExpandDateWithoutIndex | build_db.py:51 | With no date index, or the index 0 that Python treats as false, the record passes through unchanged. |
| BuildDb.ExpandDateShape | build_db.py:50-55 | With index k > 0, the rewrite succeeds exactly when the field exists (else `IndexError`) and is three integer parts (else `ValueError`). The record then grows by 2: year at k, month and day at k + 1 and k + 2, earlier fields kept, later ones shifted right by 2. |
| BuildDb.ExpandDateOutcome | build_db.py:50-55 | `process_record` raises `IndexError` for a missing date field and `ValueError` for a malformed date. Otherwise it succeeds. |
| BuildDb.ExpandDatePlaces | build_db.py:53-55 | A well-formed date is rewritten in place with the two inserts. |
| BuildDb.Record.constructor | build_db.py:39 | A record holds the reader's cells as text fields. |
| BuildDb.InsertAll | build_db.py:39-40 | The load never drops rows already handed to INSERT and inserts at most one row per record. "Kept" means handed to INSERT: a raise skips `commit`, so none of a failed load's rows is committed, and the commit is not modelled. |
| BuildDb.InsertAllRows | build_db.py:39-40 | When no record raises, each record is inserted once, in order, after the rows already inserted and in its rewritten form. |
| BuildDb.InsertAllGrows | build_db.py:39-40 | A load that completes keeps the rows inserted before and adds one per record. |
| BuildDb.InsertAllInOrder | build_db.py:39-40 | Inserted row i is record i rewritten. |
| BuildDb.InsertAllStops | build_db.py:39-40 | Once a record raises, the load ends there. |
| BuildDb.TableBuilder.constructor | build_db.py:19-24 | The date index starts as `None`, with nothing inserted. |
| BuildDb.TableBuilder.ProcessRecord | build_db.py:50-57 | The record is rewritten in place and inserted, or on error left as it was with nothing inserted. The date index is unchanged. |
| BuildDb.TableBuilder.InsertData | build_db.py:26-42 | Sets the date index from the header, then inserts the records as `InsertAll` specifies. |
| GenIds.Slice | gen_ids.py:11 | `record[4:7]` is clamped to the record, and its entries are the record's. |
| GenIds.GenerateId | gen_ids.py:10-11 | `generate_id` raises `IndexError` exactly when the record has fewer than two fields. |
| GenIds.GenerateIds | gen_ids.py:14-16 | `generate_ids` raises only `IndexError` and otherwise yields one id per line. |
| GenIds.GenerateIdFormula | gen_ids.py:10-11 | For at least seven fields the id is `r0_r1_r4-r5-r6`, copied verbatim. |
| GenIds.GenerateIdShort | gen_ids.py:10-11 | Fewer than two fields raise `IndexError`. Up to four fields give an empty date part. |
| GenIds.GenerateIdFields | gen_ids.py:11 | Only fields 0, 1, 4, 5 and 6 affect the id. |
| GenIds.GenerateIdDecodes | gen_ids.py:11 | In the 17-field full layout, the id splits back into the store, the dept and the year, month and day fields. |
| GenIds.GenerateIdAgreesWithPredictor | gen_ids.py:11 | For integer fields written as the registry writes them, the id equals the registry's submission id. |
| GenIds.GenerateIdsPerLine | gen_ids.py:14-16 | Ids succeed exactly when every line has at least two fields, otherwise `IndexError`. They then give one id per line, in line order. |
| GenIds.GenerateIdsSucceed | gen_ids.py:14-16 | `generate_ids` fails exactly when some line has fewer than two fields, and then with `IndexError`. |
| GenIds.GenerateIdsInLineOrder | gen_ids.py:14-16 | Id i is the id of line i. |
| GenIds.GenerateIdKeepsTerminator | gen_ids.py:16 | A line's terminator stays on its last field, so it ends up in the id. |

## Left out

- Floating point: reals stand in for numpy's float64. The division and
  rounding of `do_normalize`, and the month and day `/ 12` and `/ 31`, are
  exact here.
- Text.ParseNum: `float()` is modelled for plain decimal notation only: an
  optional sign, digits with at most one point, and surrounding whitespace.
  Exponents, `inf` and `nan` are treated as unparsable. The numpy assignment
  in `MarkdownTransformer` uses the same parser.
- Records.DictRecords: `csv.DictReader` fills the missing fields of a short
  row with `None`. A later transform then raises `TypeError` or `ValueError`
  on them. Here the read itself raises `ValueError`, so the error kind and
  the moment it is raised differ for such rows.
- CSV quoting is not modelled in either direction. A field holding a comma or
  a quote is split as plain text when read, and written unquoted.
- I/O: files are given as their lines. Writing `.num` files, ids and tables
  (`write_feature_vectors`, `write_ids`, `np.savetxt`, `csv.writer`, `pickle`)
  is represented by the values written.
- `os.listdir` is a parameter: the listing and its order are given.
- `np.loadtxt` is a parameter: the loaded array is given.
- SQL: the `sqlite3` connection, `create_table`, `commit` and the join query of
  `join_tables` are not part of this model. The grouping loop takes the rows
  the cursor yields, and inserted rows are collected in `inserted`.
- scikit-learn: the `StandardScaler` and the regressors are symbolic values
  that record what they were fitted on and what they are applied to.
- Registry.FitSplitsColumns: the errors scikit-learn itself raises are not
  modelled. Those are fitting on no rows or no feature columns, and
  `predict` with a scaler of another width.
- Registry.Fit: it raises only `IndexError` because scikit-learn's own
  errors are left out, as for Registry.FitSplitsColumns.
- `scale_data`, `LogarithmicTransformer` and the `main` of
  `extract_features.py` are floating-point arithmetic and script glue.
- `predict.py`, `predict_per_dept.py`, the training scripts, `evaluate.py`
  and the plotting and analysis scripts are not part of this model.
- `DatabaseBuilder` and the per-table subclasses of `TableBuilder` only
  choose a file and an SQL statement, and are not part of this model.
- BuildDb.TableBuilder.ProcessRecord requires a record of text fields, as
  `csv.reader` yields. A field already rewritten to an integer is never
  processed twice by the source.
- BuildDb.TableBuilder.InsertData takes the header line with its terminator,
  as `readline` returns it, and the remaining records as `csv.reader` cells.
- Registry.DecodeGenerateId is stated for non-negative dates only. A
  negative year, month or day adds a `-` to the date part, and the id no
  longer splits into three date fields.
- `tests.py` also tests a `DateTransformer` and a `get_feature_vectors` that
  the code does not have. Only its two one-hot tests are modelled.
