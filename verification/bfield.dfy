/** The magnetic field strength on the (ψ, θ) grid (nc/src/bfield.rs and
    tokamak-netcdf/src/bfield.rs). The tokamak-netcdf copy also caches the
    array's shape; the nc copy holds `b` alone, whose shape is the same
    `(|b|, |b[0]|)`. */
module Bfield {
  import opened Results
  import opened Errors
  import opened Store
  import opened Extract
  import Matrix

  datatype Bfield = Bfield(b: seq<seq<real>>, shape: (nat, nat))

  /** `Bfield::build`: one 2-D extraction of `b_field_norm`, whose shape is
      cached. Nothing is compared with the coordinates. */
  function Build(store: Store): (r: Result<Bfield, NcError>)
    ensures r.Ok? <==> Extract2D(store, "b_field_norm").Ok?
    ensures r.Err? ==> r.error == Extract2D(store, "b_field_norm").error
    ensures r.Ok? ==> && r.value.b == Extract2D(store, "b_field_norm").value
                      && r.value.shape == (store["b_field_norm"].dims[0], store["b_field_norm"].dims[1])
                      && Matrix.Rectangular(r.value.b, r.value.shape.0, r.value.shape.1)
                      && Matrix.Flatten(r.value.b) == store["b_field_norm"].values
  {
    var b :- Extract2D(store, "b_field_norm");
    Ok(Bfield(b, (|b|, |b[0]|)))
  }

  /** Only `b_field_norm` is inspected, so the field is built the same way
      whatever the ψ and θ coordinates are: its shape is never checked
      against them. */
  lemma BuildReadsOnlyField(store: Store, other: Store)
    requires "b_field_norm" in store <==> "b_field_norm" in other
    requires "b_field_norm" in store ==> store["b_field_norm"] == other["b_field_norm"]
    ensures Build(store) == Build(other)
  {
    assert Extract2D(store, "b_field_norm") == Extract2D(other, "b_field_norm");
  }
}
