/** The equilibrium's scalar values (nc/src/scalars.rs). */
module Scalars {
  import opened Results
  import opened Errors
  import opened Store
  import opened Extract

  /** On-axis field strength, major radius, and ψ at the last closed surface. */
  datatype Scalars = Scalars(baxis: real, raxis: real, psiWall: real)

  /** `Scalars::build`: `Baxis`, then `raxis`, then the raw `psi` values,
      whose last element is the wall's ψ. The 1-D extraction never returns an
      empty sequence, so the source's unreachable `None` arm is a proof
      obligation here rather than a branch. */
  function Build(store: Store): (r: Result<Scalars, NcError>)
    ensures r.Ok? <==> ExtractScalar(store, "Baxis").Ok? && ExtractScalar(store, "raxis").Ok?
                       && Extract1D(store, "psi").Ok?
    ensures r.Ok? ==> && r.value.baxis == store["Baxis"].values[0]
                      && r.value.raxis == store["raxis"].values[0]
                      && r.value.psiWall == store["psi"].values[|store["psi"].values| - 1]
    ensures ExtractScalar(store, "Baxis").Err? ==> r == Err(ExtractScalar(store, "Baxis").error)
    ensures ExtractScalar(store, "Baxis").Ok? && ExtractScalar(store, "raxis").Err?
            ==> r == Err(ExtractScalar(store, "raxis").error)
    ensures ExtractScalar(store, "Baxis").Ok? && ExtractScalar(store, "raxis").Ok? && Extract1D(store, "psi").Err?
            ==> r == Err(Extract1D(store, "psi").error)
  {
    var baxis :- ExtractScalar(store, "Baxis");
    var raxis :- ExtractScalar(store, "raxis");
    var psis :- Extract1D(store, "psi");
    Ok(Scalars(baxis, raxis, Last(psis).Extract()))
  }

  /** Only `Baxis`, `raxis` and `psi` are inspected: two stores that agree on
      those three variables build the same scalars, or fail the same way. */
  lemma BuildReadsOnlyItsVariables(store: Store, other: Store)
    requires forall n :: n in {"Baxis", "raxis", "psi"} ==> (n in store <==> n in other)
    requires forall n :: n in {"Baxis", "raxis", "psi"} && n in store ==> store[n] == other[n]
    ensures Build(store) == Build(other)
  {
    assert ExtractScalar(store, "Baxis") == ExtractScalar(other, "Baxis");
    assert ExtractScalar(store, "raxis") == ExtractScalar(other, "raxis");
    assert Extract1D(store, "psi") == Extract1D(other, "psi");
  }
}
