/**
 * The pieces of the test driver that every phase shares: the bounded `retry`
 * loop and the per-endpoint path format.
 */
module Driver {
  import opened Results

  /** `retry` tries again after an error; a panic unwinds through it and ends the run. */
  predicate Retryable<T>(o: Outcome<T>) {
    o.Err? && o.error.Error?
  }

  /**
   * What `retry` yields, given the outcomes of the attempts from `from` on: the first
   * outcome that is not an error, or "to many attempts" once the budget is spent.
   */
  ghost function RetryFrom<T>(times: nat, attempt: nat -> Outcome<T>, from: nat): Outcome<T>
    decreases times - from
  {
    if from >= times then Err(Error(TooManyAttempts))
    else if Retryable(attempt(from)) then RetryFrom(times, attempt, from + 1)
    else attempt(from)
  }

  /**
   * `retry(times, f)`: call `f` up to `times` times and hand back the first outcome
   * that is not an error. `attempt(i)` is what the `i`-th call of `f` (from 0) yields;
   * `calls` is how many times `f` was called.
   */
  method Retry<T>(times: nat, attempt: nat -> Outcome<T>) returns (r: Outcome<T>, calls: nat)
    ensures r == RetryFrom(times, attempt, 0)
    ensures calls <= times
    ensures forall i | 0 <= i < calls - 1 :: Retryable(attempt(i))
    ensures calls != 0 && !Retryable(attempt(calls - 1)) ==> r == attempt(calls - 1)
    ensures calls == 0 || Retryable(attempt(calls - 1)) ==>
              calls == times && r == Err(Error(TooManyAttempts))
  {
    calls := 0;
    while calls < times
      invariant calls <= times
      invariant forall i | 0 <= i < calls :: Retryable(attempt(i))
      invariant RetryFrom(times, attempt, 0) == RetryFrom(times, attempt, calls)
    {
      var outcome := attempt(calls);
      calls := calls + 1;
      if !Retryable(outcome) {
        return outcome, calls;
      }
    }
    r := Err(Error(TooManyAttempts));
  }

  /**
   * `retry` succeeds exactly when some attempt within the budget succeeds and every
   * attempt before it failed with an error; with `times = 0` it never succeeds.
   */
  lemma {:induction false} RetrySucceeds<T>(times: nat, attempt: nat -> Outcome<T>, from: nat)
    requires from <= times
    ensures RetryFrom(times, attempt, from).Ok? <==>
              exists i | from <= i < times :: attempt(i).Ok? && forall j | from <= j < i :: Retryable(attempt(j))
    decreases times - from
  {
    if from < times {
      RetrySucceeds(times, attempt, from + 1);
      if !Retryable(attempt(from)) && attempt(from).Err? {
        forall i | from <= i < times && attempt(i).Ok?
          ensures !forall j | from <= j < i :: Retryable(attempt(j))
        {
          assert from < i;
        }
      }
    }
  }

  /** When no attempt panics, `retry` succeeds exactly when one attempt within the budget does. */
  lemma {:induction false} RetryWithoutPanics<T>(times: nat, attempt: nat -> Outcome<T>, from: nat)
    requires from <= times
    requires forall i | from <= i < times :: attempt(i).Ok? || Retryable(attempt(i))
    ensures RetryFrom(times, attempt, from).Ok? <==> exists i | from <= i < times :: attempt(i).Ok?
    decreases times - from
  {
    if from < times {
      RetryWithoutPanics(times, attempt, from + 1);
    }
  }

  /** Extending a completed part of a plan by a prefix of the next part keeps a prefix of the plan. */
  lemma PrefixOfPlan<T>(done: seq<T>, q: seq<T>, next: seq<T>, rest: seq<T>)
    requires q <= next
    ensures done + q <= done + next + rest
  {
    assert (done + next + rest)[..|done| + |q|] == done + q;
  }

  /** The path of an endpoint's individual value: `format!("/{endpoint}")`. */
  function EndpointPath(endpoint: string): (p: string)
    ensures |p| == |endpoint| + 1 && p[0] == '/' && p[1..] == endpoint
  {
    "/" + endpoint
  }

  /** Distinct endpoints have distinct paths. */
  lemma EndpointPathInjective(a: string, b: string)
    requires EndpointPath(a) == EndpointPath(b)
    ensures a == b
  {
    assert a == EndpointPath(a)[1..] && b == EndpointPath(b)[1..];
  }
}
