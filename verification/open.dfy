/** Opening an equilibrium file and assembling `NcData` (nc/src/open.rs and
    tokamak-netcdf/src/open.rs, which agree). Whether the path exists and
    what the NetCDF library's `open` returns are inputs: the file system and
    the library are not modelled. */
module Open {
  import opened Results
  import opened Errors
  import opened Store
  import opened Extract
  import Scalars
  import Coords
  import Currents
  import Bfield

  datatype NcData = NcData(
    path: string,
    scalars: Scalars.Scalars,
    coords: Coords.Coords,
    currents: Currents.Currents,
    bfield: Bfield.Bfield)

  /** The reason attached to a failed library open. */
  const OpenFailureReason: string := "Error opening NetCDF file"

  /** `NcData::open`: a missing path fails before any open is attempted; an
      open failure is wrapped with a fixed reason; then Scalars, Coords,
      Currents and Bfield are built in that order, and the first failure is
      returned unchanged. */
  function Open(path: string, pathExists: bool, openResult: Result<Store, LibFault>): (r: Result<NcData, NcError>)
    ensures !pathExists ==> r == Err(FileNotFound(path))
    ensures pathExists && openResult.Err? ==> r == Err(LibraryError(openResult.error, "Error opening NetCDF file"))
    ensures r.Ok? <==> && pathExists && openResult.Ok?
                       && Scalars.Build(openResult.value).Ok? && Coords.Build(openResult.value).Ok?
                       && Currents.Build(openResult.value).Ok? && Bfield.Build(openResult.value).Ok?
    ensures r.Ok? ==> && r.value.path == path
                      && r.value.scalars == Scalars.Build(openResult.value).value
                      && r.value.coords == Coords.Build(openResult.value).value
                      && r.value.currents == Currents.Build(openResult.value).value
                      && r.value.bfield == Bfield.Build(openResult.value).value
  {
    if !pathExists then Err(FileNotFound(path))
    else match openResult
      case Err(fault) => Err(LibraryError(fault, OpenFailureReason))
      case Ok(store) =>
        var scalars :- Scalars.Build(store);
        var coords :- Coords.Build(store);
        var currents :- Currents.Build(store);
        var bfield :- Bfield.Build(store);
        Ok(NcData(path, scalars, coords, currents, bfield))
  }

  /** The builds are tried in order and the first failure is the result:
      a later build's error is only reported when every earlier build
      succeeded. */
  lemma OpenReportsFirstFailingBuild(path: string, store: Store)
    ensures Scalars.Build(store).Err?
            ==> Open(path, true, Ok(store)) == Err(Scalars.Build(store).error)
    ensures Scalars.Build(store).Ok? && Coords.Build(store).Err?
            ==> Open(path, true, Ok(store)) == Err(Coords.Build(store).error)
    ensures Scalars.Build(store).Ok? && Coords.Build(store).Ok? && Currents.Build(store).Err?
            ==> Open(path, true, Ok(store)) == Err(Currents.Build(store).error)
    ensures (Scalars.Build(store).Ok? && Coords.Build(store).Ok? && Currents.Build(store).Ok?
             && Bfield.Build(store).Err?)
            ==> Open(path, true, Ok(store)) == Err(Bfield.Build(store).error)
  {
  }

  /** Every entity of an opened equilibrium keeps its invariants, and the
      axis extension is visible in the aggregate: ψ gains a leading 0.0,
      g repeats its first sample and I starts at 0.0. */
  lemma OpenedDataIsAxisExtended(path: string, pathExists: bool, openResult: Result<Store, LibFault>)
    requires Open(path, pathExists, openResult).Ok?
    ensures var d := Open(path, pathExists, openResult).value;
      && Coords.Valid(d.coords) && Currents.Valid(d.currents)
      && d.coords.psiLen == |openResult.value["psi"].values| + 1
      && d.coords.psi[0] == 0.0
      && d.currents.g[0] == d.currents.g[1]
      && d.currents.i[0] == 0.0
      && d.scalars.psiWall == d.coords.psiSpan.1
  {
    Coords.BuildExtendsPsiToAxis(openResult.value);
    Currents.BuildExtendsToAxis(openResult.value);
  }

  /** A file without `Baxis` fails with `VariableNotFound("Baxis")`, whatever
      else it holds. */
  lemma MissingBaxisIsReported(path: string, store: Store)
    requires "Baxis" !in store
    ensures Open(path, true, Ok(store)) == Err(VariableNotFound("Baxis"))
  {
  }

  /** A file that opens although its field grid does not match its
      coordinates: ψ has 3 points after the axis extension and θ has 3,
      while `b_field_norm` is 1 × 1. */
  function MismatchedGridStore(): Store {
    map[
      "Baxis" := Var([], [1.0], true),
      "raxis" := Var([], [1.65], true),
      "psi" := Var([2], [0.1, 0.2], true),
      "boozer_theta" := Var([3], [0.0, 1.0, 2.0], true),
      "g_norm" := Var([1], [0.2], true),
      "I_norm" := Var([1], [0.1], true),
      "b_field_norm" := Var([1, 1], [0.5], true)]
  }

  lemma MismatchedGridStoreIsWellFormed()
    ensures WellFormedStore(MismatchedGridStore())
  {
    var store := MismatchedGridStore();
    forall n | n in store ensures WellFormed(store[n]) {
      assert n in {"Baxis", "raxis", "psi", "boozer_theta", "g_norm", "I_norm", "b_field_norm"};
    }
  }

  /** The field's shape is never checked against the coordinates' lengths. */
  lemma OpenDoesNotCheckFieldShape()
    ensures WellFormedStore(MismatchedGridStore())
    ensures var r := Open("eq.nc", true, Ok(MismatchedGridStore()));
      && r.Ok?
      && r.value.bfield.shape != (r.value.coords.psiLen, r.value.coords.thetaLen)
  {
    var store := MismatchedGridStore();
    MismatchedGridStoreIsWellFormed();
    assert Scalars.Build(store).Ok?;
    assert Coords.Build(store).Ok?;
    assert Currents.Build(store).Ok?;
    assert Bfield.Build(store).Ok?;
  }
}
