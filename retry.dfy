/** The two retry decorators of retryutils.py. Each calls the wrapped
    function until it returns, raises an exception outside the listed ones,
    or has raised listed exceptions `retry_count` times, sleeping between
    attempts. The wrapped function is seen through the outcome of its `j`-th
    call; the random draw and the sleep are seen through the delay chosen. */
module Retry {
  import opened Wrappers

  /** What the `j`-th call of the wrapped function did. */
  datatype Outcome<+T, +E> = Returned(value: T) | Raised(error: E)

  /** What the decorated call ends in: the wrapped function's value, an
      exception passed through, the "maximum retry of N reached" exception,
      or the exception raised when the wait cannot be performed (`randint` on
      an empty range, `sleep` of a negative time). */
  datatype RetryResult<+T, +E> =
    | Value(value: T)
    | Propagated(error: E)
    | MaxRetryReached(retryCount: int)
    | BadWait

  /** How the delay after a listed exception is chosen: `randint(min_wait,
      max_wait)`, where `pick(k)` is the random source behind the `k`-th
      draw, or `wait_time_func(err)`. */
  datatype WaitPolicy<!E> =
    | RandomWait(minWait: int, maxWait: int, pick: nat -> nat)
    | FuncWait(waitTime: E -> int)

  /** `randint(lo, hi)` for `lo <= hi`, given the random source's draw `x`. */
  function RandomDraw(lo: int, hi: int, x: nat): (r: int)
    requires lo <= hi
    ensures lo <= r <= hi
  {
    lo + x % (hi - lo + 1)
  }

  /** The delay slept after the listed exception `e` of attempt `k`, or None
      when the wait raises instead. */
  function Delay<E>(policy: WaitPolicy<E>, k: nat, e: E): (r: Option<nat>)
    ensures policy.RandomWait? && r.Some? ==> policy.minWait <= r.value <= policy.maxWait
    ensures policy.RandomWait? && 0 <= policy.minWait <= policy.maxWait ==> r.Some?
    ensures policy.FuncWait? ==> (r.Some? <==> policy.waitTime(e) >= 0)
    ensures policy.FuncWait? && r.Some? ==> r.value == policy.waitTime(e)
  {
    match policy
    case RandomWait(lo, hi, pick) =>
      if lo > hi then None
      else
        var d := RandomDraw(lo, hi, pick(k));
        if d < 0 then None else Some(d)
    case FuncWait(waitTime) =>
      var d := waitTime(e);
      if d < 0 then None else Some(d)
  }

  /** Every whole number of seconds in the range is a delay some random
      source chooses. */
  lemma DelayCoversRange<E>(minWait: int, maxWait: int, d: int, k: nat, e: E)
    requires 0 <= minWait <= d <= maxWait
    ensures Delay(RandomWait(minWait, maxWait, _ => (d - minWait) as nat), k, e) == Some(d)
  {
    var pick: nat -> nat := _ => (d - minWait) as nat;
    assert pick(k) % (maxWait - minWait + 1) == d - minWait;
  }

  /** Attempt `j` raised one of the listed exceptions. */
  predicate Listed<T, E>(call: nat -> Outcome<T, E>, listed: E -> bool, j: nat) {
    call(j).Raised? && listed(call(j).error)
  }

  /** A finished run: its result, the number of calls made, and the delays
      slept, in order. */
  datatype Run<+T, +E> = Run(result: RetryResult<T, E>, calls: nat, delays: seq<nat>)

  function Max(a: int, b: int): int {
    if a < b then b else a
  }

  /** The decorated call from attempt `k` on: call `k`; a return or an
      exception outside the listed ones ends the run, a listed one is followed
      by a sleep and the next attempt, until `retry_count` calls were made. */
  function Attempts<T, E>(policy: WaitPolicy<E>, retryCount: int, listed: E -> bool,
                          call: nat -> Outcome<T, E>, k: nat): (r: Run<T, E>)
    ensures k <= r.calls
    decreases retryCount - k
  {
    if k >= retryCount then Run(MaxRetryReached(retryCount), k, [])
    else
      match call(k)
      case Returned(v) => Run(Value(v), k + 1, [])
      case Raised(e) =>
        if !listed(e) then Run(Propagated(e), k + 1, [])
        else
          match Delay(policy, k, e)
          case None => Run(BadWait, k + 1, [])
          case Some(d) =>
            var rest := Attempts(policy, retryCount, listed, call, k + 1);
            Run(rest.result, rest.calls, [d] + rest.delays)
  }

  /** Calls `k` up to the last are made in order and at most `retry_count`
      of them; every call before the last raised a listed exception; the last
      call decides the result. */
  lemma {:induction false} AttemptsCalls<T, E>(policy: WaitPolicy<E>, retryCount: int, listed: E -> bool,
                                               call: nat -> Outcome<T, E>, k: nat)
    ensures var r := Attempts(policy, retryCount, listed, call, k);
      && k <= r.calls <= Max(retryCount, k)
      && (forall j :: k <= j < r.calls - 1 ==> Listed(call, listed, j))
      && (r.result.Value? ==> r.calls > k && call(r.calls - 1) == Returned(r.result.value))
      && (r.result.Propagated? ==>
            r.calls > k && call(r.calls - 1) == Raised(r.result.error) && !listed(r.result.error))
      && (r.result.BadWait? ==>
            r.calls > k && Listed(call, listed, r.calls - 1)
            && Delay(policy, r.calls - 1, call(r.calls - 1).error).None?)
      && (r.result.MaxRetryReached? ==>
            r.result.retryCount == retryCount && r.calls == Max(retryCount, k)
            && forall j :: k <= j < r.calls ==> Listed(call, listed, j))
    decreases retryCount - k
  {
    if k < retryCount && call(k).Raised? && listed(call(k).error) && Delay(policy, k, call(k).error).Some? {
      AttemptsCalls(policy, retryCount, listed, call, k + 1);
    }
  }

  /** A sleep follows every call but the last, except after the
      `retry_count`-th call. */
  lemma {:induction false} AttemptsDelays<T, E>(policy: WaitPolicy<E>, retryCount: int, listed: E -> bool,
                                                call: nat -> Outcome<T, E>, k: nat)
    ensures var r := Attempts(policy, retryCount, listed, call, k);
      |r.delays| == (if r.result.MaxRetryReached? then r.calls - k else r.calls - k - 1)
    decreases retryCount - k
  {
    if k < retryCount && call(k).Raised? && listed(call(k).error) && Delay(policy, k, call(k).error).Some? {
      AttemptsDelays(policy, retryCount, listed, call, k + 1);
    }
  }

  /** The `i`-th sleep follows call `k + i`, which raised a listed exception,
      and lasts the delay its policy chose for that exception. */
  lemma {:induction false} AttemptsDelayAt<T, E>(policy: WaitPolicy<E>, retryCount: int, listed: E -> bool,
                                                 call: nat -> Outcome<T, E>, k: nat, i: nat)
    requires i < |Attempts(policy, retryCount, listed, call, k).delays|
    ensures Listed(call, listed, k + i)
    ensures Delay(policy, k + i, call(k + i).error) == Some(Attempts(policy, retryCount, listed, call, k).delays[i])
    decreases i
  {
    if k >= retryCount || call(k).Returned? || !listed(call(k).error) || Delay(policy, k, call(k).error).None? {
      assert false;
    } else {
      var d := Delay(policy, k, call(k).error).value;
      AttemptsAfterWait(policy, retryCount, listed, call, k, d);
      if i > 0 {
        AttemptsDelayAt(policy, retryCount, listed, call, k + 1, i - 1);
        assert k + i == (k + 1) + (i - 1);
      }
    }
  }

  /** The waits of a policy never raise for the listed exceptions of the
      first `n` attempts. */
  predicate WaitsValid<T, E>(policy: WaitPolicy<E>, listed: E -> bool, call: nat -> Outcome<T, E>, n: int) {
    match policy
    case RandomWait(lo, hi, _) => 0 <= lo <= hi
    case FuncWait(waitTime) => forall j: nat :: j < n && Listed(call, listed, j) ==> waitTime(call(j).error) >= 0
  }

  /** With `retry_count <= 0` the wrapped function is never called. */
  lemma NoAttempts<T, E>(policy: WaitPolicy<E>, retryCount: int, listed: E -> bool, call: nat -> Outcome<T, E>)
    requires retryCount <= 0
    ensures Attempts(policy, retryCount, listed, call, 0) == Run(MaxRetryReached(retryCount), 0, [])
  {
  }

  /** The first call that returns decides the result, and no call follows
      it. */
  lemma {:induction false} FirstReturnWins<T, E>(policy: WaitPolicy<E>, retryCount: int, listed: E -> bool,
                                                 call: nat -> Outcome<T, E>, k: nat, n: nat)
    requires k <= n < retryCount && WaitsValid(policy, listed, call, retryCount)
    requires forall j :: k <= j < n ==> Listed(call, listed, j)
    requires call(n).Returned?
    ensures Attempts(policy, retryCount, listed, call, k) == Run(Value(call(n).value), n + 1,
                                                                Attempts(policy, retryCount, listed, call, k).delays)
    decreases n - k
  {
    if k < n {
      assert Listed(call, listed, k);
      FirstReturnWins(policy, retryCount, listed, call, k + 1, n);
    }
  }

  /** An exception outside the listed ones ends the run at the call that
      raised it. */
  lemma {:induction false} UnlistedPropagates<T, E>(policy: WaitPolicy<E>, retryCount: int, listed: E -> bool,
                                                    call: nat -> Outcome<T, E>, k: nat, n: nat)
    requires k <= n < retryCount && WaitsValid(policy, listed, call, retryCount)
    requires forall j :: k <= j < n ==> Listed(call, listed, j)
    requires call(n).Raised? && !listed(call(n).error)
    ensures Attempts(policy, retryCount, listed, call, k) == Run(Propagated(call(n).error), n + 1,
                                                                Attempts(policy, retryCount, listed, call, k).delays)
    decreases n - k
  {
    if k < n {
      assert Listed(call, listed, k);
      UnlistedPropagates(policy, retryCount, listed, call, k + 1, n);
    }
  }

  /** `retry_count` listed exceptions in a row end in "maximum retry
      reached", after exactly `retry_count` calls and as many sleeps. */
  lemma {:induction false} Exhausted<T, E>(policy: WaitPolicy<E>, retryCount: int, listed: E -> bool,
                                           call: nat -> Outcome<T, E>, k: nat)
    requires k <= retryCount && WaitsValid(policy, listed, call, retryCount)
    requires forall j :: k <= j < retryCount ==> Listed(call, listed, j)
    ensures var r := Attempts(policy, retryCount, listed, call, k);
      r.result == MaxRetryReached(retryCount) && r.calls == retryCount && |r.delays| == retryCount - k
    decreases retryCount - k
  {
    if k < retryCount {
      assert Listed(call, listed, k);
      Exhausted(policy, retryCount, listed, call, k + 1);
    }
  }

  /** One listed exception followed by a successful wait: the run from `k`
      is the run from `k + 1` with that wait in front. */
  lemma AttemptsAfterWait<T, E>(policy: WaitPolicy<E>, retryCount: int, listed: E -> bool,
                                call: nat -> Outcome<T, E>, k: nat, d: nat)
    requires k < retryCount && Listed(call, listed, k) && Delay(policy, k, call(k).error) == Some(d)
    ensures var rest := Attempts(policy, retryCount, listed, call, k + 1);
      Attempts(policy, retryCount, listed, call, k) == Run(rest.result, rest.calls, [d] + rest.delays)
  {
  }

  /** Every random delay lies in `[min_wait, max_wait]`. */
  lemma RandomDelaysInRange<T, E>(minWait: int, maxWait: int, pick: nat -> nat, retryCount: int,
                                  listed: E -> bool, call: nat -> Outcome<T, E>)
    ensures var r := Attempts(RandomWait(minWait, maxWait, pick), retryCount, listed, call, 0);
      forall i :: 0 <= i < |r.delays| ==> minWait <= r.delays[i] <= maxWait
  {
    var r := Attempts(RandomWait(minWait, maxWait, pick), retryCount, listed, call, 0);
    forall i | 0 <= i < |r.delays|
      ensures minWait <= r.delays[i] <= maxWait
    {
      AttemptsDelayAt(RandomWait(minWait, maxWait, pick), retryCount, listed, call, 0, i);
    }
  }

  /** `retry_after_random_wait(min_wait, max_wait, retry_count, errors)`
      applied to the wrapped function; `listed` is membership in `errors`. */
  method RetryAfterRandomWait<T, E>(minWait: int, maxWait: int, retryCount: int, listed: E -> bool,
                                    pick: nat -> nat, call: nat -> Outcome<T, E>)
    returns (r: RetryResult<T, E>, calls: nat, delays: seq<nat>)
    ensures Run(r, calls, delays) == Attempts(RandomWait(minWait, maxWait, pick), retryCount, listed, call, 0)
  {
    ghost var policy := RandomWait(minWait, maxWait, pick);
    var tryCounter: nat := 0;
    delays := [];
    while tryCounter < retryCount
      invariant var rest := Attempts(policy, retryCount, listed, call, tryCounter);
        Attempts(policy, retryCount, listed, call, 0) == Run(rest.result, rest.calls, delays + rest.delays)
      decreases retryCount - tryCounter
    {
      var outcome := call(tryCounter);
      if outcome.Returned? {
        return Value(outcome.value), tryCounter + 1, delays;
      }
      if !listed(outcome.error) {
        return Propagated(outcome.error), tryCounter + 1, delays;
      }
      tryCounter := tryCounter + 1;
      if minWait > maxWait {
        return BadWait, tryCounter, delays;
      }
      var delay := RandomDraw(minWait, maxWait, pick(tryCounter - 1));
      if delay < 0 {
        return BadWait, tryCounter, delays;
      }
      ghost var rest := Attempts(policy, retryCount, listed, call, tryCounter);
      AttemptsAfterWait(policy, retryCount, listed, call, tryCounter - 1, delay);
      assert delays + ([delay] + rest.delays) == (delays + [delay]) + rest.delays;
      delays := delays + [delay];
    }
    assert delays + [] == delays;
    r, calls := MaxRetryReached(retryCount), tryCounter;
  }

  /** `retry_after_func_wait(max_retries, errors, wait_time_func)` applied to
      the wrapped function; `listed` is membership in `errors`. */
  method RetryAfterFuncWait<T, E>(maxRetries: int, listed: E -> bool, waitTime: E -> int,
                                  call: nat -> Outcome<T, E>)
    returns (r: RetryResult<T, E>, calls: nat, delays: seq<nat>)
    ensures Run(r, calls, delays) == Attempts(FuncWait(waitTime), maxRetries, listed, call, 0)
  {
    ghost var policy := FuncWait(waitTime);
    var tryCounter: nat := 0;
    delays := [];
    while tryCounter < maxRetries
      invariant var rest := Attempts(policy, maxRetries, listed, call, tryCounter);
        Attempts(policy, maxRetries, listed, call, 0) == Run(rest.result, rest.calls, delays + rest.delays)
      decreases maxRetries - tryCounter
    {
      var outcome := call(tryCounter);
      if outcome.Returned? {
        return Value(outcome.value), tryCounter + 1, delays;
      }
      if !listed(outcome.error) {
        return Propagated(outcome.error), tryCounter + 1, delays;
      }
      tryCounter := tryCounter + 1;
      var delay := waitTime(outcome.error);
      if delay < 0 {
        return BadWait, tryCounter, delays;
      }
      ghost var rest := Attempts(policy, maxRetries, listed, call, tryCounter);
      AttemptsAfterWait(policy, maxRetries, listed, call, tryCounter - 1, delay);
      assert delays + ([delay] + rest.delays) == (delays + [delay]) + rest.delays;
      delays := delays + [delay];
    }
    assert delays + [] == delays;
    r, calls := MaxRetryReached(maxRetries), tryCounter;
  }
}
