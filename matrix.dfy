/** Two-dimensional numpy arrays of floats, as far as the pipeline uses them:
    a shape and rows, `a[:, j]` and `np.column_stack`. */
module Matrices {
  /** Every row has `width` entries. */
  predicate Rectangular(rows: seq<seq<real>>, width: nat)
  {
    forall i :: 0 <= i < |rows| ==> |rows[i]| == width
  }

  /** A 2-D array: its width is part of its shape even when it has no rows. */
  datatype Matrix = Matrix(width: nat, rows: seq<seq<real>>)
  {
    predicate Shaped()
    {
      Rectangular(rows, width)
    }
  }

  /** `a[:, j]` of an array, and `get_column` of the records: entry `j` of
      every row, in row order. */
  function ColumnOf<T>(rows: seq<seq<T>>, j: nat): (col: seq<T>)
    requires forall i :: 0 <= i < |rows| ==> j < |rows[i]|
    ensures |col| == |rows|
  {
    seq(|rows|, i requires 0 <= i < |rows| => rows[i][j])
  }

  /** `[a[:, j] for j in range(width)]`. */
  function ColumnsOf(rows: seq<seq<real>>, width: nat): (cols: seq<seq<real>>)
    requires Rectangular(rows, width)
    ensures |cols| == width
  {
    seq(width, j requires 0 <= j < width => ColumnOf(rows, j))
  }

  /** `np.column_stack(cols)` for `n`-long columns. */
  function ColumnStack(cols: seq<seq<real>>, n: nat): Matrix
    requires forall j :: 0 <= j < |cols| ==> |cols[j]| == n
  {
    Matrix(|cols|, seq(n, i requires 0 <= i < n => seq(|cols|, j requires 0 <= j < |cols| => cols[j][i])))
  }

  /** Stacking columns gives an `n` by `|cols|` array whose `j`-th column is
      `cols[j]`, so `column_stack` and `a[:, j]` undo each other. */
  lemma ColumnStackColumns(cols: seq<seq<real>>, n: nat)
    requires forall j :: 0 <= j < |cols| ==> |cols[j]| == n
    ensures ColumnStack(cols, n).Shaped()
    ensures |ColumnStack(cols, n).rows| == n && ColumnStack(cols, n).width == |cols|
    ensures forall j :: 0 <= j < |cols| ==> ColumnOf(ColumnStack(cols, n).rows, j) == cols[j]
  {
    var m := ColumnStack(cols, n);
    forall j | 0 <= j < |cols|
      ensures ColumnOf(m.rows, j) == cols[j]
    {
      assert forall i :: 0 <= i < n ==> ColumnOf(m.rows, j)[i] == cols[j][i];
    }
  }

  /** Splitting a rectangular array into its columns and stacking them back
      gives the array again. */
  lemma ColumnsOfStack(rows: seq<seq<real>>, width: nat)
    requires Rectangular(rows, width)
    ensures ColumnStack(ColumnsOf(rows, width), |rows|) == Matrix(width, rows)
  {
    var m := ColumnStack(ColumnsOf(rows, width), |rows|);
    forall i | 0 <= i < |rows|
      ensures m.rows[i] == rows[i]
    {
      assert forall j :: 0 <= j < width ==> m.rows[i][j] == rows[i][j];
    }
  }
}
