/** The validating spline wrapper (gsl-splines/src/spline.rs). The native
    interpolation engine is not modelled: whether it allocates an
    interpolant and the status its initialisation returns are inputs. */
module Spline {
  import opened Results
  import opened Errors

  /** The six interpolation kinds offered. */
  datatype SplineType = Linear | Polynomial | Cubic | CubicPeriodic | Akima | AkimaPeriodic

  /** A built spline: its kind, the caller's x and y arrays, their size and
      (first, last) spans, and the copies handed to the engine. */
  datatype Spline = Spline(
    splineType: SplineType,
    xdata: seq<real>,
    ydata: seq<real>,
    size: nat,
    xspan: (real, real),
    yspan: (real, real),
    xa: seq<real>,
    ya: seq<real>)

  /** Every neighbouring pair is in order; equal neighbours are allowed. */
  predicate AdjacentSorted(x: seq<real>) {
    forall k :: 0 <= k < |x| - 1 ==> x[k] <= x[k + 1]
  }

  /** Every earlier element is at most every later one. */
  ghost predicate Ordered(x: seq<real>) {
    forall i, j :: 0 <= i < j < |x| ==> x[i] <= x[j]
  }

  /** `Iterator::is_sorted` over the x values: a left-to-right scan of
      neighbouring pairs that stops at the first pair out of order. */
  function IsSorted(x: seq<real>): (r: bool)
    ensures r <==> AdjacentSorted(x)
  {
    if |x| <= 1 then true
    else if x[0] > x[1] then false
    else
      var rest := IsSorted(x[1..]);
      assert rest <==> AdjacentSorted(x[1..]);
      assert forall k :: 1 <= k < |x| - 1 ==> x[k] == x[1..][k - 1];
      rest
  }

  /** Ordering of neighbours extends to every pair. */
  lemma {:induction false} AdjacentSortedIsOrdered(x: seq<real>)
    requires AdjacentSorted(x)
    ensures Ordered(x)
  {
    if |x| > 1 {
      assert AdjacentSorted(x[1..]) by {
        forall k | 0 <= k < |x[1..]| - 1 ensures x[1..][k] <= x[1..][k + 1] {
          assert x[1..][k] == x[k + 1] && x[1..][k + 1] == x[k + 2];
        }
      }
      AdjacentSortedIsOrdered(x[1..]);
      forall i, j | 0 <= i < j < |x| ensures x[i] <= x[j] {
        if i > 0 {
          assert x[1..][i - 1] <= x[1..][j - 1];
        } else if j > 1 {
          assert x[1..][0] <= x[1..][j - 1];
        }
      }
    }
  }

  /** An `Array1` always has exactly one axis. */
  function Ndim(a: seq<real>): nat {
    1
  }

  /** `Spline::check_data`: x non-empty, then y non-empty, then the
      dimension test, then x sorted. The dimension test can only fire when x
      is not one-dimensional, which an `Array1` never is, and the lengths of
      x and y are not compared. */
  function CheckData(x: seq<real>, y: seq<real>): (r: Result<(), SplineError>)
    ensures |x| == 0 ==> r == Err(EmptyDataset("x"))
    ensures |x| > 0 && |y| == 0 ==> r == Err(EmptyDataset("y"))
    ensures r.Ok? <==> |x| > 0 && |y| > 0 && AdjacentSorted(x)
    ensures |x| > 0 && |y| > 0 && !AdjacentSorted(x) ==> r == Err(UnsortedDataset)
    ensures r != Err(DatasetMismatch)
  {
    if |x| == 0 then Err(EmptyDataset("x"))
    else if |y| == 0 then Err(EmptyDataset("y"))
    else if Ndim(x) != Ndim(y) && Ndim(x) != 1 then Err(DatasetMismatch)
    else if !IsSorted(x) then Err(UnsortedDataset)
    else Ok(())
  }

  /** What a built spline keeps: non-empty sorted x, y at least as long,
      spans from the first and last of the `size` points, and engine copies
      equal to the caller's arrays. */
  predicate Valid(s: Spline) {
    && s.size >= 1
    && |s.xdata| == s.size && |s.ydata| >= s.size
    && AdjacentSorted(s.xdata)
    && s.xspan == (s.xdata[0], s.xdata[s.size - 1])
    && s.yspan == (s.ydata[0], s.ydata[s.size - 1])
    && s.xa == s.xdata && s.ya == s.ydata
  }

  /** `Spline::build`. Validation runs before anything is copied or
      allocated; then the engine allocates an interpolant of `|x|` points
      (failing with `GSLInterpAlloc`) and is initialised from the copies
      (`init`, failing with `GSLInterpInit` and the engine's status). Reading
      `ydata[size - 1]` needs y to be at least as long as x, which the checks
      do not ensure: callers must. */
  function Build(splineType: SplineType, x: seq<real>, y: seq<real>, allocates: bool, initStatus: Result<(), int>)
    : (r: Result<Spline, SplineError>)
    requires CheckData(x, y).Ok? ==> |y| >= |x|
    ensures CheckData(x, y).Err? ==> r == Err(CheckData(x, y).error)
    ensures CheckData(x, y).Ok? && !allocates ==> r == Err(GSLInterpAlloc)
    ensures CheckData(x, y).Ok? && allocates && initStatus.Err? ==> r == Err(GSLInterpInit(initStatus.error))
    ensures r.Ok? <==> CheckData(x, y).Ok? && allocates && initStatus.Ok?
    ensures r.Ok? ==> && Valid(r.value)
                      && r.value.splineType == splineType
                      && r.value.xdata == x && r.value.ydata == y
                      && r.value.size == |x|
  {
    var _ :- CheckData(x, y);
    var xa := x;
    var ya := y;
    var size := |x|;
    var xspan := (x[0], x[size - 1]);
    var yspan := (y[0], y[size - 1]);
    if !allocates then Err(GSLInterpAlloc)
    else
      var s := Spline(splineType, x, y, size, xspan, yspan, xa, ya);
      match initStatus
      case Err(status) => Err(GSLInterpInit(status))
      case Ok(_) => Ok(s)
  }

  /** Because x is sorted, the cached x span really is (min, max). */
  lemma XSpanBoundsData(s: Spline)
    requires Valid(s)
    ensures forall k :: 0 <= k < s.size ==> s.xspan.0 <= s.xdata[k] <= s.xspan.1
  {
    AdjacentSortedIsOrdered(s.xdata);
  }

  /** Sample inputs: both empty is reported for x; an out-of-order x is
      rejected; equal neighbours and a well-formed pair pass. */
  lemma CheckDataExamples()
    ensures CheckData([], []) == Err(EmptyDataset("x"))
    ensures CheckData([1.0], []) == Err(EmptyDataset("y"))
    ensures CheckData([2.0, 1.0, 3.0], [1.0, 1.0, 1.0]) == Err(UnsortedDataset)
    ensures CheckData([1.0, 1.0, 2.0], [0.0, 1.0, 4.0]) == Ok(())
    ensures CheckData([0.0, 1.0, 2.0], [0.0, 1.0, 4.0]) == Ok(())
  {
    assert [2.0, 1.0, 3.0][0] > [2.0, 1.0, 3.0][1];
  }

  /** The `check_data` of the code as written lets a y shorter than x
      through: `[1, 2]` against `[1]` passes, and `ydata[size - 1]` would
      then read index 1 of a one-element array. */
  lemma ShortYPassesCheck()
    ensures CheckData([1.0, 2.0], [1.0]).Ok?
    ensures |[1.0, 2.0]| - 1 >= |[1.0]|
  {
  }

  /** Likewise a longer y passes: x = [1, 2] against y = [1, 2, 3] is not
      reported as `DatasetMismatch`. */
  lemma LongYPassesCheck()
    ensures CheckData([1.0, 2.0], [1.0, 2.0, 3.0]) == Ok(())
  {
  }

  /** The check as its error message describes it ("1D and of equal
      length"): after the emptiness checks, x and y of different lengths are
      a `DatasetMismatch`, before sortedness is looked at. */
  function CheckDataMatched(x: seq<real>, y: seq<real>): (r: Result<(), SplineError>)
    ensures r.Ok? <==> |x| > 0 && |x| == |y| && AdjacentSorted(x)
    ensures |x| > 0 && |y| > 0 && |x| != |y| ==> r == Err(DatasetMismatch)
  {
    if |x| == 0 then Err(EmptyDataset("x"))
    else if |y| == 0 then Err(EmptyDataset("y"))
    else if |x| != |y| then Err(DatasetMismatch)
    else if !IsSorted(x) then Err(UnsortedDataset)
    else Ok(())
  }

  /** The corrected check differs from the written one exactly on inputs of
      unequal, non-zero lengths. */
  lemma CheckDataMatchedRefines(x: seq<real>, y: seq<real>)
    ensures |x| == |y| ==> CheckDataMatched(x, y) == CheckData(x, y)
    ensures CheckDataMatched(x, y).Ok? ==> CheckData(x, y).Ok?
    ensures CheckDataMatched(x, y) != CheckData(x, y) <==> |x| > 0 && |y| > 0 && |x| != |y|
  {
  }

  /** `Spline::build` over the corrected check: defined for every input,
      and every spline it builds has x and y of equal length. */
  function BuildMatched(splineType: SplineType, x: seq<real>, y: seq<real>, allocates: bool, initStatus: Result<(), int>)
    : (r: Result<Spline, SplineError>)
    ensures CheckDataMatched(x, y).Err? ==> r == Err(CheckDataMatched(x, y).error)
    ensures r.Ok? <==> CheckDataMatched(x, y).Ok? && allocates && initStatus.Ok?
    ensures r.Ok? ==> Valid(r.value) && |r.value.ydata| == r.value.size
    ensures |x| == |y| ==> r == Build(splineType, x, y, allocates, initStatus)
  {
    var _ :- CheckDataMatched(x, y);
    Build(splineType, x, y, allocates, initStatus)
  }
}
