/** The opened NetCDF file as the extraction code sees it: a name-keyed
    collection of variables. Opening and reading are not modelled as I/O;
    a store is an input, and whether a typed read succeeds is a flag on the
    variable. */
module Store {

  /** A variable: the extents of its dimensions (empty for a scalar), the
      elements it holds, in row-major order, and whether the library's typed
      read (`get_value` / `get_values` into `f64`) succeeds on it. */
  datatype Var = Var(dims: seq<nat>, values: seq<real>, readable: bool)

  type Store = map<string, Var>

  /** `Variable::len`: the number of elements the variable holds. */
  function Len(v: Var): nat {
    |v.values|
  }

  /** The number of dimensions; 0 for a scalar. */
  function Rank(v: Var): nat {
    |v.dims|
  }

  /** The number of elements the extents describe; 1 for a scalar. */
  function Product(dims: seq<nat>): nat {
    if |dims| == 0 then 1 else dims[0] * Product(dims[1..])
  }

  /** A variable as a NetCDF file can hold it: its elements fill its
      extents exactly, so a scalar holds one value. */
  predicate WellFormed(v: Var) {
    |v.values| == Product(v.dims)
  }

  predicate WellFormedStore(store: Store) {
    forall n :: n in store ==> WellFormed(store[n])
  }

  /** The extents describe no element exactly when one of them is 0. */
  lemma {:induction false} ProductZero(dims: seq<nat>)
    ensures Product(dims) == 0 <==> exists k :: 0 <= k < |dims| && dims[k] == 0
  {
    if |dims| > 0 {
      ProductZero(dims[1..]);
      if Product(dims[1..]) == 0 {
        var k :| 0 <= k < |dims[1..]| && dims[1..][k] == 0;
        assert dims[k + 1] == 0;
      }
      if exists k :: 0 <= k < |dims| && dims[k] == 0 {
        var k :| 0 <= k < |dims| && dims[k] == 0;
        if k > 0 {
          assert dims[1..][k - 1] == 0;
        }
      }
    }
  }
}
