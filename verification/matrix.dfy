/** Two-dimensional arrays (`Array2<f64>`) as sequences of equally long rows,
    and the row-major correspondence between such a matrix and the flat
    element sequence a NetCDF variable stores. */
module Matrix {

  /** Every one of the `rows` rows has exactly `cols` elements. */
  predicate Rectangular(m: seq<seq<real>>, rows: nat, cols: nat) {
    |m| == rows && forall i :: 0 <= i < |m| ==> |m[i]| == cols
  }

  /** The elements of `m` in row-major order. */
  function Flatten(m: seq<seq<real>>): seq<real> {
    if |m| == 0 then [] else m[0] + Flatten(m[1..])
  }

  /** Cuts a row-major element sequence into `rows` rows of `cols` elements. */
  function Reshape(values: seq<real>, rows: nat, cols: nat): (m: seq<seq<real>>)
    requires |values| == rows * cols
    ensures Rectangular(m, rows, cols)
    ensures Flatten(m) == values
    decreases rows
  {
    if rows == 0 then []
    else
      assert |values[cols..]| == (rows - 1) * cols;
      [values[..cols]] + Reshape(values[cols..], rows - 1, cols)
  }

  lemma {:induction false} FlattenLength(m: seq<seq<real>>, rows: nat, cols: nat)
    requires Rectangular(m, rows, cols)
    ensures |Flatten(m)| == rows * cols
    decreases rows
  {
    if rows > 0 {
      FlattenLength(m[1..], rows - 1, cols);
    }
  }

  /** Reshaping undoes flattening: a matrix is recovered from its elements
      and its shape. */
  lemma {:induction false} ReshapeFlatten(m: seq<seq<real>>, rows: nat, cols: nat)
    requires Rectangular(m, rows, cols)
    ensures |Flatten(m)| == rows * cols
    ensures Reshape(Flatten(m), rows, cols) == m
    decreases rows
  {
    FlattenLength(m, rows, cols);
    if rows > 0 {
      ReshapeFlatten(m[1..], rows - 1, cols);
      assert Flatten(m)[..cols] == m[0];
      assert Flatten(m)[cols..] == Flatten(m[1..]);
      assert m == [m[0]] + m[1..];
    }
  }

  /** Element `(i, j)` of a reshaped sequence is element `i * cols + j` of
      the flat sequence. */
  lemma {:induction false} ReshapeIndex(values: seq<real>, rows: nat, cols: nat, i: nat, j: nat)
    requires |values| == rows * cols
    requires i < rows && j < cols
    ensures i * cols + j < |values|
    ensures Reshape(values, rows, cols)[i][j] == values[i * cols + j]
    decreases rows
  {
    assert |values[cols..]| == (rows - 1) * cols;
    if i > 0 {
      ReshapeIndex(values[cols..], rows - 1, cols, i - 1, j);
      assert (i - 1) * cols + j + cols == i * cols + j;
    }
  }
}
