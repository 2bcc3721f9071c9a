/** Looking up, checking and extracting NetCDF variables (nc/src/extract.rs).
    Every extractor runs its checks in a fixed order and stops at the first
    that fails, so the error names the first structural problem. */
module Extract {
  import opened Results
  import opened Errors
  import opened Store
  import opened Checks
  import Matrix

  /** `extract_variable`: the variable stored under `name`. */
  function ExtractVariable(store: Store, name: string): (r: Result<Var, NcError>)
    ensures r.Ok? <==> name in store
    ensures r.Ok? ==> r.value == store[name]
    ensures r.Err? ==> r.error == VariableNotFound(name)
  {
    if name in store then Ok(store[name]) else Err(VariableNotFound(name))
  }

  /** `check_if_empty`: any length of one or more passes. */
  function CheckIfEmpty(name: string, v: Var): (r: Result<(), NcError>)
    ensures r.Ok? <==> Len(v) >= 1
    ensures r.Err? ==> r.error == EmptyVariable(name)
  {
    if Len(v) >= 1 then Ok(()) else Err(EmptyVariable(name))
  }

  /** `extract_scalar`: exists, then non-empty, then no dimensions, then a
      successful read of the single value. */
  function ExtractScalar(store: Store, name: string): (r: Result<real, NcError>)
    ensures name !in store ==> r == Err(VariableNotFound(name))
    ensures name in store && Len(store[name]) == 0 ==> r == Err(EmptyVariable(name))
    ensures name in store && Len(store[name]) >= 1 && Rank(store[name]) != 0 ==> r == Err(NotScalar(name))
    ensures r.Ok? <==> name in store && Len(store[name]) >= 1 && Rank(store[name]) == 0 && store[name].readable
    ensures r.Ok? ==> r.value == store[name].values[0]
    ensures r.Err? ==> r.error in {VariableNotFound(name), EmptyVariable(name), NotScalar(name), GetValuesError(name)}
  {
    var v :- ExtractVariable(store, name);
    var _ :- CheckIfEmpty(name, v);
    if Rank(v) != 0 then Err(NotScalar(name))
    else if !v.readable then Err(GetValuesError(name))
    else Ok(v.values[0])
  }

  /** The checks `extract_scalar` makes, in the order it makes them. */
  function ScalarChecks(store: Store, name: string): seq<Check<NcError>> {
    [ Check(name in store, VariableNotFound(name)),
      Check(name in store && Len(store[name]) > 0, EmptyVariable(name)),
      Check(name in store && store[name].dims == [], NotScalar(name)),
      Check(name in store && store[name].readable, GetValuesError(name)) ]
  }

  lemma ExtractScalarReportsFirstFailure(store: Store, name: string)
    ensures ReportsFirstFailure(ScalarChecks(store, name), ExtractScalar(store, name))
  {
    var cs := ScalarChecks(store, name);
    var r := ExtractScalar(store, name);
    if r.Err? {
      var k := if name !in store then 0
               else if Len(store[name]) == 0 then 1
               else if store[name].dims != [] then 2
               else 3;
      assert !cs[k].holds && cs[k].error == r.error;
      assert AllHold(cs[..k]);
    }
  }

  /** `extract_1d_var` (called `extract_1d` from nc/src/scalars.rs): exists,
      then non-empty, then a successful read. The rank is not checked, so a
      variable of any shape is returned as its flat element sequence. */
  function Extract1D(store: Store, name: string): (r: Result<seq<real>, NcError>)
    ensures name !in store ==> r == Err(VariableNotFound(name))
    ensures name in store && Len(store[name]) == 0 ==> r == Err(EmptyVariable(name))
    ensures r.Ok? <==> name in store && Len(store[name]) >= 1 && store[name].readable
    ensures r.Ok? ==> r.value == store[name].values && |r.value| >= 1
    ensures r.Err? ==> r.error in {VariableNotFound(name), EmptyVariable(name), GetValuesError(name)}
  {
    var v :- ExtractVariable(store, name);
    var _ :- CheckIfEmpty(name, v);
    if !v.readable then Err(GetValuesError(name)) else Ok(v.values)
  }

  /** The checks `extract_1d_var` makes, in order; there is no rank check. */
  function OneDimChecks(store: Store, name: string): seq<Check<NcError>> {
    [ Check(name in store, VariableNotFound(name)),
      Check(name in store && Len(store[name]) > 0, EmptyVariable(name)),
      Check(name in store && store[name].readable, GetValuesError(name)) ]
  }

  lemma Extract1DReportsFirstFailure(store: Store, name: string)
    ensures ReportsFirstFailure(OneDimChecks(store, name), Extract1D(store, name))
  {
    var cs := OneDimChecks(store, name);
    var r := Extract1D(store, name);
    if r.Err? {
      var k := if name !in store then 0 else if Len(store[name]) == 0 then 1 else 2;
      assert !cs[k].holds && cs[k].error == r.error;
      assert AllHold(cs[..k]);
    }
  }

  /** Re-declaring a variable's dimensions never changes what `extract_1d_var`
      returns: no rank check exists, and `Not1D` is never raised. */
  lemma Extract1DIgnoresRank(store: Store, name: string, dims: seq<nat>)
    requires name in store
    ensures Extract1D(store[name := store[name].(dims := dims)], name) == Extract1D(store, name)
    ensures Extract1D(store, name) != Err(Not1D(name))
  {
  }

  /** `extract_var_with_axis_value`: the 1-D values with `element` inserted
      at index 0. */
  function ExtractVarWithAxisValue(store: Store, name: string, element: real): (r: Result<seq<real>, NcError>)
    ensures r.Ok? <==> Extract1D(store, name).Ok?
    ensures r.Err? ==> r.error == Extract1D(store, name).error
    ensures r.Ok? ==> |r.value| == |Extract1D(store, name).value| + 1 >= 2
    ensures r.Ok? ==> r.value[0] == element && r.value[1..] == Extract1D(store, name).value
  {
    var v :- Extract1D(store, name);
    Ok([element] + v)
  }

  /** `extract_var_with_first_axis_value`: the 1-D values with a copy of
      their own first element inserted at index 0. Reading `v[0]` is safe
      because the extraction already rejected empty variables. */
  function ExtractVarWithFirstAxisValue(store: Store, name: string): (r: Result<seq<real>, NcError>)
    ensures r.Ok? <==> Extract1D(store, name).Ok?
    ensures r.Err? ==> r.error == Extract1D(store, name).error
    ensures r.Ok? ==> |r.value| == |Extract1D(store, name).value| + 1 >= 2
    ensures r.Ok? ==> r.value[0] == r.value[1] == Extract1D(store, name).value[0]
    ensures r.Ok? ==> r.value[1..] == Extract1D(store, name).value
  {
    var v :- Extract1D(store, name);
    Ok([v[0]] + v)
  }

  /** Dropping the inserted axis value gives back exactly what was read, for
      either way of choosing that value. */
  lemma AxisValueRoundTrip(store: Store, name: string, element: real)
    requires Extract1D(store, name).Ok?
    ensures ExtractVarWithAxisValue(store, name, element).value[1..] == store[name].values
    ensures ExtractVarWithFirstAxisValue(store, name).value[1..] == store[name].values
    ensures ExtractVarWithFirstAxisValue(store, name).value == [store[name].values[0]] + store[name].values
  {
  }

  /** `extract_2d_var`: exists, then non-empty, then exactly two dimensions,
      then a successful read of a `(dims[0], dims[1])` array, which the
      element count must fill. */
  function Extract2D(store: Store, name: string): (r: Result<seq<seq<real>>, NcError>)
    ensures name !in store ==> r == Err(VariableNotFound(name))
    ensures name in store && Len(store[name]) == 0 ==> r == Err(EmptyVariable(name))
    ensures name in store && Len(store[name]) >= 1 && Rank(store[name]) != 2 ==> r == Err(Not2D(name))
    ensures && name in store && Len(store[name]) >= 1 && Rank(store[name]) == 2
            && !(store[name].readable && Len(store[name]) == store[name].dims[0] * store[name].dims[1])
            ==> r == Err(GetValuesError(name))
    ensures r.Ok? <==> && name in store && Len(store[name]) >= 1 && Rank(store[name]) == 2
                       && store[name].readable && Len(store[name]) == store[name].dims[0] * store[name].dims[1]
    ensures r.Ok? ==> && store[name].dims[0] >= 1 && store[name].dims[1] >= 1
                      && Matrix.Rectangular(r.value, store[name].dims[0], store[name].dims[1])
                      && Matrix.Flatten(r.value) == store[name].values
    ensures r.Err? ==> r.error in {VariableNotFound(name), EmptyVariable(name), Not2D(name), GetValuesError(name)}
  {
    var v :- ExtractVariable(store, name);
    var _ :- CheckIfEmpty(name, v);
    if Rank(v) != 2 then Err(Not2D(name))
    else if !v.readable || Len(v) != v.dims[0] * v.dims[1] then Err(GetValuesError(name))
    else
      assert v.dims[0] != 0 && v.dims[1] != 0;
      Ok(Matrix.Reshape(v.values, v.dims[0], v.dims[1]))
  }

  /** The checks `extract_2d_var` makes, in order. */
  function TwoDimChecks(store: Store, name: string): seq<Check<NcError>> {
    [ Check(name in store, VariableNotFound(name)),
      Check(name in store && Len(store[name]) > 0, EmptyVariable(name)),
      Check(name in store && |store[name].dims| == 2, Not2D(name)),
      Check(&& name in store && |store[name].dims| == 2 && store[name].readable
            && |store[name].values| == store[name].dims[0] * store[name].dims[1], GetValuesError(name)) ]
  }

  lemma Extract2DReportsFirstFailure(store: Store, name: string)
    ensures ReportsFirstFailure(TwoDimChecks(store, name), Extract2D(store, name))
  {
    var cs := TwoDimChecks(store, name);
    var r := Extract2D(store, name);
    if r.Err? {
      var k := if name !in store then 0
               else if Len(store[name]) == 0 then 1
               else if |store[name].dims| != 2 then 2
               else 3;
      assert !cs[k].holds && cs[k].error == r.error;
      assert AllHold(cs[..k]);
    }
  }

  /** The check lists determine the extractors' errors: whichever check
      fails first, its error is what the extractor returns. */
  lemma ExtractErrorIsFirstFailingCheck(store: Store, name: string, e: NcError)
    ensures FirstFailure(ScalarChecks(store, name), e) ==> ExtractScalar(store, name) == Err(e)
    ensures FirstFailure(OneDimChecks(store, name), e) ==> Extract1D(store, name) == Err(e)
    ensures FirstFailure(TwoDimChecks(store, name), e) ==> Extract2D(store, name) == Err(e)
  {
    if FirstFailure(ScalarChecks(store, name), e) {
      ExtractScalarReportsFirstFailure(store, name);
      ReportedErrorIsFirstFailure(ScalarChecks(store, name), ExtractScalar(store, name), e);
    }
    if FirstFailure(OneDimChecks(store, name), e) {
      Extract1DReportsFirstFailure(store, name);
      ReportedErrorIsFirstFailure(OneDimChecks(store, name), Extract1D(store, name), e);
    }
    if FirstFailure(TwoDimChecks(store, name), e) {
      Extract2DReportsFirstFailure(store, name);
      ReportedErrorIsFirstFailure(TwoDimChecks(store, name), Extract2D(store, name), e);
    }
  }

  /** On a variable a file can hold, a scalar is never empty: the scalar
      extraction succeeds exactly when the read does. */
  lemma WellFormedScalarIsNeverEmpty(store: Store, name: string)
    requires name in store && WellFormed(store[name]) && Rank(store[name]) == 0
    ensures ExtractScalar(store, name) != Err(EmptyVariable(name))
    ensures ExtractScalar(store, name).Ok? <==> store[name].readable
  {
  }

  /** On a variable a file can hold, a zero extent makes the 1-D extraction
      report `EmptyVariable`, and every extent positive lets it pass that
      check. */
  lemma WellFormedZeroExtentIsEmpty(store: Store, name: string)
    requires name in store && WellFormed(store[name])
    ensures (exists k :: 0 <= k < |store[name].dims| && store[name].dims[k] == 0)
            <==> Extract1D(store, name) == Err(EmptyVariable(name))
  {
    ProductZero(store[name].dims);
  }

  /** On a variable a file can hold, the element count always fills a 2-D
      shape, so `GetValuesError` from the 2-D extraction means exactly that
      the typed read failed. */
  lemma WellFormed2DFailsReadOnlyIfUnreadable(store: Store, name: string)
    requires name in store && WellFormed(store[name]) && Rank(store[name]) == 2
    ensures Len(store[name]) == store[name].dims[0] * store[name].dims[1]
    ensures Extract2D(store, name) == Err(GetValuesError(name))
            <==> Len(store[name]) >= 1 && !store[name].readable
  {
    var d := store[name].dims;
    assert d[1..][1..] == [];
    assert Product(d) == d[0] * Product(d[1..]) == d[0] * (d[1] * 1);
  }
}
