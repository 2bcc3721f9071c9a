/** A declarative reading of "validate in a fixed order and report the first
    problem": a list of checks, each with the error it raises, and what it
    means for a result to report the first failing one. */
module Checks {
  import opened Results

  datatype Check<E> = Check(holds: bool, error: E)

  predicate AllHold<E>(cs: seq<Check<E>>) {
    forall k :: 0 <= k < |cs| ==> cs[k].holds
  }

  /** `e` is the error of a failing check all of whose predecessors hold. */
  ghost predicate FirstFailure<E>(cs: seq<Check<E>>, e: E) {
    exists k :: 0 <= k < |cs| && !cs[k].holds && cs[k].error == e && AllHold(cs[..k])
  }

  /** `r` succeeds exactly when every check holds, and otherwise carries the
      error of the first check that fails. */
  ghost predicate ReportsFirstFailure<T, E>(cs: seq<Check<E>>, r: Result<T, E>) {
    && (r.Ok? <==> AllHold(cs))
    && (r.Err? ==> FirstFailure(cs, r.error))
  }

  /** There is only one first failure, so a result that reports it is
      determined up to its success value. */
  lemma FirstFailureUnique<E>(cs: seq<Check<E>>, e1: E, e2: E)
    requires FirstFailure(cs, e1) && FirstFailure(cs, e2)
    ensures e1 == e2
  {
  }

  /** Conversely, whenever some check fails, a result that reports the first
      failure is exactly that failure. */
  lemma ReportedErrorIsFirstFailure<T, E>(cs: seq<Check<E>>, r: Result<T, E>, e: E)
    requires ReportsFirstFailure(cs, r) && FirstFailure(cs, e)
    ensures r == Err(e)
  {
    assert !AllHold(cs);
    FirstFailureUnique(cs, r.error, e);
  }
}
