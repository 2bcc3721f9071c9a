/** The plasma currents g (poloidal) and I (toroidal) (nc/src/currents.rs
    and its tokamak-netcdf copy). */
module Currents {
  import opened Results
  import opened Errors
  import opened Store
  import opened Extract

  datatype Currents = Currents(
    i: seq<real>,
    g: seq<real>,
    iLen: nat,
    gLen: nat,
    iSpan: (real, real),
    gSpan: (real, real))

  /** What a built `Currents` keeps: both arrays carry an axis value and at
      least one stored sample, and the cached lengths and spans agree with
      the arrays. */
  predicate Valid(c: Currents) {
    && |c.i| >= 2 && |c.g| >= 2
    && c.iLen == |c.i| && c.gLen == |c.g|
    && c.iSpan == (c.i[0], c.i[|c.i| - 1])
    && c.gSpan == (c.g[0], c.g[|c.g| - 1])
  }

  /** `Currents::build`: g extended with a copy of its first sample, then I
      extended with 0.0; lengths and spans are computed once. */
  function Build(store: Store): (r: Result<Currents, NcError>)
    ensures r.Ok? <==> Extract1D(store, "g_norm").Ok? && Extract1D(store, "I_norm").Ok?
    ensures Extract1D(store, "g_norm").Err? ==> r == Err(Extract1D(store, "g_norm").error)
    ensures Extract1D(store, "g_norm").Ok? && Extract1D(store, "I_norm").Err?
            ==> r == Err(Extract1D(store, "I_norm").error)
    ensures r.Ok? ==> && Valid(r.value)
                      && r.value.g == [store["g_norm"].values[0]] + store["g_norm"].values
                      && r.value.i == [0.0] + store["I_norm"].values
  {
    var g :- ExtractVarWithFirstAxisValue(store, "g_norm");
    var i :- ExtractVarWithAxisValue(store, "I_norm", 0.0);
    var gLen := |g|;
    var iLen := |i|;
    var gSpan := (First(g).Extract(), Last(g).Extract());
    var iSpan := (First(i).Extract(), Last(i).Extract());
    Ok(Currents(i, g, iLen, gLen, iSpan, gSpan))
  }

  /** The axis values in terms of the raw variables: g starts with its own
      first sample twice, I starts with 0.0, each gains exactly one point,
      and the spans run from the axis value to the raw last sample. */
  lemma BuildExtendsToAxis(store: Store)
    requires Build(store).Ok?
    ensures var c := Build(store).value;
      && c.g[0] == c.g[1] == store["g_norm"].values[0]
      && c.g[1..] == store["g_norm"].values
      && c.i[0] == 0.0
      && c.i[1..] == store["I_norm"].values
      && c.gLen == |store["g_norm"].values| + 1
      && c.iLen == |store["I_norm"].values| + 1
      && c.gSpan == (store["g_norm"].values[0], store["g_norm"].values[|store["g_norm"].values| - 1])
      && c.iSpan == (0.0, store["I_norm"].values[|store["I_norm"].values| - 1])
  {
  }
}
