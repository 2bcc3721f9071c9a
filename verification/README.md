# Tokamak equilibrium loading: extraction, validation and assembly

This project models, in Dafny, the typed extraction-and-validation pipeline
of a loader for reconstructed tokamak equilibria, together with the input
validation of its spline wrapper. The source is a Rust repository.

- **Store.** An opened NetCDF file is a name-keyed store of variables. Each
  variable has dimension extents, a flat element sequence and a flag saying
  whether the library's typed read succeeds. The store is `map<string, Var>`
  and values are `real`.
- **Extractors** (`Extract`). They look up a variable, reject it if it is
  absent, then if it is empty, then (for scalars and 2-D arrays) if its rank
  is wrong, then if the read fails. The first failing check decides the error.
- **Axis extension.** Two extractors prepend a value at index 0: either a
  literal, or a copy of the first sample. This extends ψ, g and I to the
  magnetic axis.
- **Entities** (`Scalars`, `Coords`, `Currents`, `Bfield`). Each builder calls
  the extractors in a fixed order, stops at the first error, and caches
  lengths and (first, last) spans.
- **Aggregate** (`Open`). `NcData::open` checks that the path exists, maps an
  open failure to `LibraryError`, then builds the four entities in order.
  The nc crate (`Vec`) and the tokamak-netcdf crate (`Array1`) hold the same
  logic; both arrays are `seq<real>` here, so one model serves both.
- **Spline wrapper** (`Spline`). It runs `check_data` before anything is
  copied or allocated, then derives the size and spans. Native allocation
  and initialisation outcomes are inputs.

Every operation is a pure function that returns a `Result` (`:-` plays the
role of Rust's `?`). The `unwrap()`s and the `unreachable!()` of the source
become proof obligations: the verifier shows they cannot fail.

The model follows the code where the code and its documentation disagree:

- `extract_1d_var` has no rank check, so `Not1D` is never raised.
- `check_data` never compares the lengths of x and y (see Findings).
- `check_data` accepts equal neighbours in x.
- `Bfield::build` does not compare the field's shape with the coordinates.

## Model

| member | source | states |
|---|---|---|
| `Extract.ExtractVariable` | nc/src/extract.rs:6-12 | succeeds exactly when the name is in the store, returning that variable; otherwise `VariableNotFound(name)` |
| `Extract.CheckIfEmpty` | nc/src/extract.rs:15-20 | passes exactly when the variable holds at least one element; otherwise `EmptyVariable(name)` |
| `Extract.ExtractScalar` | nc/src/extract.rs:23-39 | absent gives `VariableNotFound`, empty gives `EmptyVariable`, any dimension gives `NotScalar`; success exactly for a present, non-empty, dimensionless, readable variable, yielding its single value; no other error occurs |
| `Extract.ExtractScalarReportsFirstFailure` | nc/src/extract.rs:26-38 | the result is the error of the first failing check of the ordered list exists, non-empty, no dimensions, readable; it succeeds iff all four hold |
| `Extract.Extract1D` | nc/src/extract.rs:42-50 | succeeds exactly for a present, non-empty, readable variable and returns its values, which are never empty; only `VariableNotFound`, `EmptyVariable` or `GetValuesError` can occur |
| `Extract.Extract1DReportsFirstFailure` | nc/src/extract.rs:43-49 | the error is that of the first failing check of exists, non-empty, readable; success iff all hold |
| `Extract.Extract1DIgnoresRank` | nc/src/extract.rs:42-50 | changing a variable's declared dimensions never changes the 1-D extraction, and `Not1D` is never its result |
| `Extract.ExtractVarWithAxisValue` | nc/src/extract.rs:64-72 | fails exactly when the 1-D extraction fails, with its error unchanged; on success the result is one longer, starts with the given element, and its tail is the extracted values |
| `Extract.ExtractVarWithFirstAxisValue` | nc/src/extract.rs:54-61 | fails exactly when the 1-D extraction fails, with its error unchanged; on success elements 0 and 1 both equal the first sample and the tail is the extracted values |
| `Extract.AxisValueRoundTrip` | nc/src/extract.rs:58-70 | dropping the inserted axis value recovers the stored values for both kinds of axis extension |
| `Extract.Extract2D` | tokamak-netcdf/src/bfield.rs:16-18 | absent gives `VariableNotFound`, empty gives `EmptyVariable`, a rank other than 2 gives `Not2D`, and a failed read or an element count that does not fill `dims[0]` × `dims[1]` gives `GetValuesError`; on success the array is rectangular with the declared extents (both at least 1) and flattens back to the stored elements |
| `Extract.Extract2DReportsFirstFailure` | tokamak-netcdf/src/bfield.rs:16 | the error is that of the first failing check of exists, non-empty, rank 2, readable into the declared shape; success iff all four hold |
| `Extract.ExtractErrorIsFirstFailingCheck` | nc/src/extract.rs:26-49 | whichever check of an extractor's ordered list fails first, its error is exactly what the scalar, 1-D or 2-D extractor returns |
| `Extract.WellFormedScalarIsNeverEmpty` | nc/src/extract.rs:26-35 | for a scalar whose elements fill its (empty) extents, `EmptyVariable` never occurs and extraction succeeds exactly when the read does |
| `Extract.WellFormedZeroExtentIsEmpty` | nc/src/extract.rs:15-20 | for a variable whose elements fill its extents, the 1-D extraction reports `EmptyVariable` exactly when some extent is 0 |
| `Extract.WellFormed2DFailsReadOnlyIfUnreadable` | tokamak-netcdf/src/bfield.rs:16 | for a rank-2 variable whose elements fill its extents, the element count is `dims[0]` × `dims[1]` and `GetValuesError` arises exactly when the non-empty variable cannot be read |
| `Matrix.Reshape` | nc/tests/common/mod.rs:31-34 | reading a flat element sequence as `rows` × `cols` gives rows of exactly `cols` elements whose row-major concatenation is the original sequence |
| `Matrix.ReshapeFlatten` | nc/tests/common/mod.rs:31-34 | a rectangular matrix is recovered from its flattened elements and its shape |
| `Matrix.ReshapeIndex` | nc/tests/common/mod.rs:31-34 | element (i, j) of the reshaped array is flat element `i * cols + j` |
| `Scalars.Build` | nc/src/scalars.rs:14-31 | succeeds iff `Baxis`, `raxis` and `psi` all extract; `baxis` and `raxis` are those scalars, `psi_wall` is the last raw ψ; errors come in the order Baxis, raxis, psi |
| `Scalars.BuildReadsOnlyItsVariables` | nc/src/scalars.rs:15-17 | two stores that agree on `Baxis`, `raxis` and `psi` give the same result |
| `Coords.Build` | nc/src/coords.rs:27-48 | a ψ error is returned before θ is read; on success ψ is 0.0 followed by the raw ψ, θ is the raw θ, and the cached lengths and spans agree with the arrays |
| `Coords.BuildExtendsPsiToAxis` | tokamak-netcdf/src/coords.rs:31-38 | ψ starts at 0.0, has one point more than the raw variable, and spans from 0.0 to the raw last value |
| `Coords.BuildKeepsThetaAsStored` | tokamak-netcdf/src/coords.rs:32-39 | θ's cached length is the raw length and its span is the raw first and last values |
| `Currents.Build` | nc/src/currents.rs:27-48 | a g error takes precedence over an I error; on success g is its own first sample followed by the raw g, I is 0.0 followed by the raw I, both have length at least 2, and the cached lengths and spans agree |
| `Currents.BuildExtendsToAxis` | tokamak-netcdf/src/currents.rs:29-37 | g[0] == g[1] == raw g[0], I[0] == 0.0, each array is its raw variable with one leading point, and the spans run from the axis value to the raw last sample |
| `Bfield.Build` | tokamak-netcdf/src/bfield.rs:15-20 | succeeds iff the 2-D extraction does, with its error unchanged; `b` is that array and `shape` is its (rows, columns), equal to the declared extents |
| `Bfield.BuildReadsOnlyField` | nc/src/bfield.rs:13-16 | the result depends on `b_field_norm` alone, so nothing compares it with the coordinates |
| `Open.Open` | nc/src/open.rs:28-59 | a missing path gives `FileNotFound(path)` whatever the open would do; an open failure gives `LibraryError` with the fixed reason; success iff all four builds succeed, and the aggregate holds the path and each builder's result |
| `Open.OpenReportsFirstFailingBuild` | tokamak-netcdf/src/open.rs:45-48 | the builds run in the order Scalars, Coords, Currents, Bfield: when a build fails after all earlier builds succeeded, its error is the result, unchanged |
| `Open.OpenedDataIsAxisExtended` | nc/src/open.rs:46-59 | an opened equilibrium has valid Coords and Currents, ψ length is the raw length plus one, ψ[0] == 0.0, g[0] == g[1], I[0] == 0.0, and `psi_wall` is the end of the ψ span |
| `Open.MissingBaxisIsReported` | nc/src/open.rs:46 | an opened file without `Baxis` fails with `VariableNotFound("Baxis")`, and no aggregate is produced |
| `Open.OpenDoesNotCheckFieldShape` | tokamak-netcdf/src/open.rs:45-58 | a concrete file, every variable of which fills its extents, whose 1 × 1 field does not match its 3 × 3 coordinate grid still opens |
| `Spline.IsSorted` | gsl-splines/src/spline.rs:97 | the pairwise scan is true exactly when every neighbouring pair is non-decreasing |
| `Spline.AdjacentSortedIsOrdered` | gsl-splines/src/spline.rs:13-14 | x that is sorted pairwise is ordered for every pair of positions |
| `Spline.CheckData` | gsl-splines/src/spline.rs:85-101 | empty x gives `EmptyDataset("x")` before y is looked at; then empty y gives `EmptyDataset("y")`; passes exactly for non-empty x and y with x non-decreasing; never yields `DatasetMismatch` |
| `Spline.CheckDataExamples` | gsl-splines/src/spline.rs:86-99 | concrete inputs: both empty, y empty, x out of order, x with equal neighbours, well-formed x and y |
| `Spline.Build` | gsl-splines/src/spline.rs:37-82 | a validation error is returned whatever the engine would do; then allocation failure gives `GSLInterpAlloc` and a failed init gives `GSLInterpInit` with its status; a built spline keeps x and y, has size \|x\|, spans from the first and last points, and engine copies equal to the inputs |
| `Spline.XSpanBoundsData` | gsl-splines/src/spline.rs:19-20 | for a built spline every x value lies within the cached x span, so the span is the (min, max) |
| `Spline.ShortYPassesCheck` | gsl-splines/src/spline.rs:93-95 | x = [1, 2] with y = [1] passes validation although y has no element at index size - 1 |
| `Spline.LongYPassesCheck` | gsl-splines/src/spline.rs:93-95 | x = [1, 2] with y = [1, 2, 3] passes validation instead of being a mismatch |
| `Spline.CheckDataMatched` | gsl-splines/src/error.rs:10-12 | the check as its error message describes it: passes exactly for non-empty, equally long x and y with sorted x; unequal non-zero lengths are `DatasetMismatch` |
| `Spline.CheckDataMatchedRefines` | gsl-splines/src/spline.rs:93-95 | the corrected check agrees with the written one on equal lengths, accepts only what it accepts, and differs exactly on unequal non-zero lengths |
| `Spline.BuildMatched` | gsl-splines/src/spline.rs:43-48 | over the corrected check the build needs no precondition, every spline it builds has \|y\| == size, and it agrees with `Build` on equal lengths |

## Left out

- File existence and `netcdf::open` are inputs to `Open.Open`: a boolean and the library's result, an opened store or an opaque `LibFault`.
- Store.Var: does not force a variable's elements to fill its extents, so stores admit variables no NetCDF file holds, such as an empty scalar. `Len` counts the stored elements, where `Variable::len` multiplies the extents. On such variables an extractor may report `EmptyVariable` where the library would not, or accept where it would report `EmptyVariable`. `Store.WellFormed` names the real files. `Extract.WellFormedScalarIsNeverEmpty`, `Extract.WellFormedZeroExtentIsEmpty` and `Extract.WellFormed2DFailsReadOnlyIfUnreadable` state the behaviour on those files.
- The typed reads `get_value` and `get_values` are modelled by the `readable` flag on each variable; f64 conversion is not modelled.
- `extract_2d_var` and tokamak-netcdf/src/extract.rs are not part of this model. `Extract.Extract2D` is rebuilt from its call sites and the error set. It checks existence, then emptiness, then rank 2 (`Not2D`). A read whose element count does not fill the declared shape becomes `GetValuesError`.
- tokamak-netcdf/src/scalars.rs is not part of this model; `Scalars.Build` follows the nc copy.
- The nc copy's `Bfield` has no `shape` field. The single `Bfield` datatype carries the tokamak-netcdf copy's cached shape, which the nc copy could derive from `b`.
- nc/src/error.rs lacks `GetValuesError`, which nc/src/extract.rs raises. The error datatype uses the tokamak-netcdf variants. `DimensionError` is declared but no modelled code raises it.
- Spline.Build: requires y to be at least as long as x whenever validation passes. The source panics on `ydata[size - 1]` otherwise (see Findings).
- The native interpolation engine is left out: `Interp::new`, `init`, evaluation, and the `InterpAccel` accelerator of gsl-splines/src/acc.rs. Allocation success and the init status are inputs. The engine's own rejection of repeated x values is therefore not modelled.
- The `SplineType` to `InterpType` mapping of gsl-splines/src/spline_types.rs is left out; `SplineType` is a plain six-way tag.
- Floating point: values are `real`, so NaN and its effect on `is_sorted` are not modelled. Values are only copied and compared.
- `Display`/`Debug` formatting is left out, including the `rows - 2` indexing in tokamak-netcdf/src/bfield.rs:35-43. Error message texts are left out too.
- The duplicate `tokamak_netcdf` crate, `lib.rs` wiring and the on-disk test fixture are left out.

## Findings

| source | as written | input that shows it | evidently intended | confidence | as-written member | corrected member |
|---|---|---|---|---|---|---|
| gsl-splines/src/spline.rs:93-95 | `x.ndim() != y.ndim() && x.ndim() != 1` is never true for two `Array1`s, so the lengths of x and y are never compared | x = [1.0, 2.0], y = [1.0] passes `check_data`; `build` then reads `ydata[1]` out of bounds | `DatasetMismatch` when x and y differ in length, as the variant's doc, its message and the comment at line 43 say | high; not executed | `Spline.CheckData`, `Spline.ShortYPassesCheck` | `Spline.CheckDataMatched`, `Spline.BuildMatched` |
