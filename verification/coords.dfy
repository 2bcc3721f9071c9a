/** The equilibrium's ψ and θ coordinates (nc/src/coords.rs and its
    tokamak-netcdf copy, which differs only in using `Array1`). */
module Coords {
  import opened Results
  import opened Errors
  import opened Store
  import opened Extract

  datatype Coords = Coords(
    psi: seq<real>,
    theta: seq<real>,
    psiLen: nat,
    thetaLen: nat,
    psiSpan: (real, real),
    thetaSpan: (real, real))

  /** What a built `Coords` keeps: both coordinates non-empty, and the cached
      lengths and (first, last) spans agree with the stored arrays. */
  predicate Valid(c: Coords) {
    && |c.psi| >= 1 && |c.theta| >= 1
    && c.psiLen == |c.psi| && c.thetaLen == |c.theta|
    && c.psiSpan == (c.psi[0], c.psi[|c.psi| - 1])
    && c.thetaSpan == (c.theta[0], c.theta[|c.theta| - 1])
  }

  /** `Coords::build`: ψ extended to the magnetic axis with 0.0, then θ as
      stored; lengths and spans are computed once. The `first()`/`last()`
      unwraps are obligations discharged by the non-emptiness of both. */
  function Build(store: Store): (r: Result<Coords, NcError>)
    ensures r.Ok? <==> Extract1D(store, "psi").Ok? && Extract1D(store, "boozer_theta").Ok?
    ensures Extract1D(store, "psi").Err? ==> r == Err(Extract1D(store, "psi").error)
    ensures Extract1D(store, "psi").Ok? && Extract1D(store, "boozer_theta").Err?
            ==> r == Err(Extract1D(store, "boozer_theta").error)
    ensures r.Ok? ==> && Valid(r.value)
                      && r.value.psi == [0.0] + store["psi"].values
                      && r.value.theta == store["boozer_theta"].values
  {
    var psi :- ExtractVarWithAxisValue(store, "psi", 0.0);
    var theta :- Extract1D(store, "boozer_theta");
    var psiLen := |psi|;
    var thetaLen := |theta|;
    var psiSpan := (First(psi).Extract(), Last(psi).Extract());
    var thetaSpan := (First(theta).Extract(), Last(theta).Extract());
    Ok(Coords(psi, theta, psiLen, thetaLen, psiSpan, thetaSpan))
  }

  /** The axis extension in terms of the raw `psi` variable: one more point,
      0.0 first, and a span from 0.0 to the raw last value. */
  lemma BuildExtendsPsiToAxis(store: Store)
    requires Build(store).Ok?
    ensures Build(store).value.psi[0] == 0.0
    ensures Build(store).value.psiLen == |store["psi"].values| + 1
    ensures Build(store).value.psi[1..] == store["psi"].values
    ensures Build(store).value.psiSpan == (0.0, store["psi"].values[|store["psi"].values| - 1])
  {
  }

  /** θ is stored unchanged, with its span taken from its own ends. */
  lemma BuildKeepsThetaAsStored(store: Store)
    requires Build(store).Ok?
    ensures Build(store).value.thetaLen == |store["boozer_theta"].values|
    ensures Build(store).value.thetaSpan
            == (store["boozer_theta"].values[0], store["boozer_theta"].values[|store["boozer_theta"].values| - 1])
  {
  }
}
