/** The error taxonomies of the NetCDF loader and of the spline wrapper.
    Only the variants and their payloads are modelled; message texts are not. */
module Errors {

  /** An error raised by the wrapped NetCDF library. Its contents are the
      library's business, so it is kept as an opaque code. */
  datatype LibFault = LibFault(code: int)

  /** `NcError`. `Not1D`, `Not2D` and `GetValuesError` are the variants of
      the tokamak-netcdf copy, which the extraction code of both copies uses. */
  datatype NcError =
    | LibraryError(source: LibFault, reason: string)
    | FileNotFound(path: string)
    | VariableNotFound(name: string)
    | EmptyVariable(name: string)
    | NotScalar(name: string)
    | Not1D(name: string)
    | Not2D(name: string)
    | GetValuesError(name: string)
    | DimensionError(name: string)

  /** `SplineError`, completed with the two native-engine variants that the
      spline code raises: allocation failure and a failed initialisation
      carrying the engine's status value. */
  datatype SplineError =
    | EmptyDataset(which: string)
    | UnsortedDataset
    | DatasetMismatch
    | GSLInterpAlloc
    | GSLInterpInit(value: int)
}
