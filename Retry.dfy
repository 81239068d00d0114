/** `RetryHandler`: a bounded loop of attempts whose bound comes from the
    SYSTEM policy, with a fail-fast rule for CODE_BUG and CONFIG errors and a
    per-type cut-off with exponential back-off. */
module Retry {
  import opened Base
  import opened Config
  import opened Errors

  /** An exception as the retry loop sees it: its class and `str(e)`. */
  datatype PyError = PyError(cls: PyClass, message: string)

  /** What one call of the retried function does. */
  datatype Outcome<T> = Succeeds(value: T) | Raises(error: PyError)

  /** How `execute_with_retry` ends: it returns a call's value, re-raises a
      call's exception, or executes `raise None` (a `TypeError`) when the loop
      ran no attempt at all. */
  datatype Ending<T> = Returned(value: T) | Reraised(error: PyError) | RaisedNone

  /** The ending, the number of calls made and the sleeps taken, in order. */
  datatype RetryRun<T> = RetryRun(ending: Ending<T>, calls: nat, sleeps: seq<nat>)

  /** The policy of an error type: its own `<value>_errors` entry, else the
      `system_errors` entry, else an empty policy. */
  function PolicyFor(c: Config, t: ErrorType): (p: RetryPolicy)
    ensures Value(t) + "_errors" in c.retryPolicies ==> p == c.retryPolicies[Value(t) + "_errors"]
    ensures Value(t) + "_errors" !in c.retryPolicies && "system_errors" in c.retryPolicies ==> p == c.retryPolicies["system_errors"]
    ensures Value(t) + "_errors" !in c.retryPolicies && "system_errors" !in c.retryPolicies ==> p == RetryPolicy(None, None, None)
  {
    var name := Value(t) + "_errors";
    if name in c.retryPolicies then c.retryPolicies[name]
    else if "system_errors" in c.retryPolicies then c.retryPolicies["system_errors"]
    else RetryPolicy(None, None, None)
  }

  /** `_get_max_retries`, default 3. */
  function MaxRetries(c: Config, t: ErrorType): int {
    PolicyFor(c, t).maxRetries.GetOr(3)
  }

  function Pow2(n: nat): (r: nat)
    ensures r >= 1
  {
    if n == 0 then 1 else 2 * Pow2(n - 1)
  }

  /** `_calculate_wait_time`: `base * 2**attempt` with exponential back-off
      (the default), `base` without; the base defaults to 30 seconds. */
  function WaitTime(c: Config, t: ErrorType, attempt: nat): nat {
    var p := PolicyFor(c, t);
    var base := p.baseDelaySeconds.GetOr(30);
    if p.exponentialBackoff.GetOr(true) then base * Pow2(attempt) else base
  }

  /** With exponential back-off each wait doubles the previous one; without it
      every wait is the base delay. */
  lemma WaitTimeGrowth(c: Config, t: ErrorType, attempt: nat)
    ensures PolicyFor(c, t).exponentialBackoff.GetOr(true) ==> WaitTime(c, t, attempt + 1) == 2 * WaitTime(c, t, attempt)
    ensures !PolicyFor(c, t).exponentialBackoff.GetOr(true) ==> WaitTime(c, t, attempt + 1) == WaitTime(c, t, attempt)
    ensures WaitTime(c, t, 0) == PolicyFor(c, t).baseDelaySeconds.GetOr(30)
  {
    var base := PolicyFor(c, t).baseDelaySeconds.GetOr(30);
    assert Pow2(attempt + 1) == 2 * Pow2(attempt);
    assert base * (2 * Pow2(attempt)) == 2 * (base * Pow2(attempt));
  }

  /** Without any `retry_policies`, every type allows 3 calls and waits
      30, 60, 120, ... seconds. */
  lemma DefaultPolicy(c: Config, t: ErrorType, attempt: nat)
    requires c.retryPolicies == map[]
    ensures MaxRetries(c, t) == 3
    ensures WaitTime(c, t, attempt) == 30 * Pow2(attempt)
  {
  }

  /** A type without its own policy uses the `system_errors` policy. */
  lemma SystemPolicyFallback(c: Config, t: ErrorType, attempt: nat)
    requires Value(t) + "_errors" !in c.retryPolicies
    ensures MaxRetries(c, t) == MaxRetries(c, SYSTEM)
    ensures WaitTime(c, t, attempt) == WaitTime(c, SYSTEM, attempt)
  {
    assert Value(SYSTEM) + "_errors" == "system_errors";
    assert PolicyFor(c, t) == PolicyFor(c, SYSTEM);
  }

  /** The type the classifier gives an exception raised by the retried function. */
  function TypeOf(c: Config, e: PyError): ErrorType {
    ClassifyError(QuotaKeywords(c), e.message, Some(e.cls))
  }

  /** `TypeOf` for one configuration, as a function value. The loop's lemmas are
      stated for any classification `kind`; they do not depend on how the
      classifier decides. */
  function Classifier(c: Config): PyError -> ErrorType {
    (e: PyError) => TypeOf(c, e)
  }

  /** The loop from iteration `attempt` on, `last` being the exception of the
      previous iteration. */
  function RetryFrom<T>(c: Config, kind: PyError -> ErrorType, run: nat -> Outcome<T>, attempt: nat, last: Option<PyError>): RetryRun<T>
    decreases MaxRetries(c, SYSTEM) - attempt
  {
    if attempt >= MaxRetries(c, SYSTEM) then
      RetryRun(if last.Some? then Reraised(last.value) else RaisedNone, 0, [])
    else match run(attempt)
      case Succeeds(v) => RetryRun(Returned(v), 1, [])
      case Raises(e) =>
        var t := kind(e);
        if t == CODE_BUG || !IsRetryable(t) || attempt >= MaxRetries(c, t) - 1 then
          RetryRun(Reraised(e), 1, [])
        else
          var rest := RetryFrom(c, kind, run, attempt + 1, Some(e));
          RetryRun(rest.ending, rest.calls + 1, [WaitTime(c, t, attempt)] + rest.sleeps)
  }

  /** `execute_with_retry(func)` where call number `i` (from 0) of `func` does `run(i)`. */
  function RetrySpec<T>(c: Config, run: nat -> Outcome<T>): RetryRun<T> {
    RetryFrom(c, Classifier(c), run, 0, None)
  }

  /** `r` run after `calls` calls and the sleeps `sleeps`. */
  function After<T>(calls: nat, sleeps: seq<nat>, r: RetryRun<T>): RetryRun<T> {
    RetryRun(r.ending, calls + r.calls, sleeps + r.sleeps)
  }

  /** One retried iteration: the call fails with a retryable error under its
      cut-off, and the rest of the run follows one sleep later. */
  lemma RetryStep<T>(c: Config, kind: PyError -> ErrorType, run: nat -> Outcome<T>, attempt: nat, last: Option<PyError>, sleeps: seq<nat>)
    requires attempt < MaxRetries(c, SYSTEM) && run(attempt).Raises?
    requires kind(run(attempt).error) != CODE_BUG && IsRetryable(kind(run(attempt).error))
    requires attempt < MaxRetries(c, kind(run(attempt).error)) - 1
    ensures var e := run(attempt).error;
      After(attempt, sleeps, RetryFrom(c, kind, run, attempt, last))
      == After(attempt + 1, sleeps + [WaitTime(c, kind(e), attempt)], RetryFrom(c, kind, run, attempt + 1, Some(e)))
  {
    var e := run(attempt).error;
    var rest := RetryFrom(c, kind, run, attempt + 1, Some(e));
    var w := WaitTime(c, kind(e), attempt);
    assert sleeps + ([w] + rest.sleeps) == (sleeps + [w]) + rest.sleeps;
  }

  /** The retry loop itself. */
  method ExecuteWithRetry<T>(c: Config, run: nat -> Outcome<T>) returns (r: RetryRun<T>)
    ensures r == RetrySpec(c, run)
  {
    var kind := Classifier(c);
    var last: Option<PyError> := None;
    var sleeps: seq<nat> := [];
    var attempt: nat := 0;
    var bound := MaxRetries(c, SYSTEM);
    while attempt < bound
      invariant attempt == 0 ==> last.None?
      invariant RetrySpec(c, run) == After(attempt, sleeps, RetryFrom(c, kind, run, attempt, last))
      decreases bound - attempt
    {
      match run(attempt) {
        case Succeeds(v) =>
          return RetryRun(Returned(v), attempt + 1, sleeps);
        case Raises(e) =>
          last := Some(e);
          var t := kind(e);
          if t == CODE_BUG {
            return RetryRun(Reraised(e), attempt + 1, sleeps);
          }
          if !IsRetryable(t) {
            return RetryRun(Reraised(e), attempt + 1, sleeps);
          }
          if attempt < MaxRetries(c, t) - 1 {
            RetryStep(c, kind, run, attempt, last, sleeps);
            sleeps := sleeps + [WaitTime(c, t, attempt)];
          } else {
            return RetryRun(Reraised(e), attempt + 1, sleeps);
          }
      }
      attempt := attempt + 1;
    }
    if last.Some? {
      r := RetryRun(Reraised(last.value), attempt, sleeps);
    } else {
      r := RetryRun(RaisedNone, attempt, sleeps);
    }
  }

  // ---------------------------------------------------------------------------
  // What a run of the loop looks like, from iteration `a` on.

  /** At most the iterations left are made, every call but possibly the last is
      followed by a sleep, and a run that slept after its last call ran out of
      iterations. */
  ghost predicate CallsShape<T>(c: Config, a: nat, last: Option<PyError>, r: RetryRun<T>) {
    var m := MaxRetries(c, SYSTEM);
    && r.calls <= (if m - a > 0 then m - a else 0)
    && |r.sleeps| <= r.calls <= |r.sleeps| + 1
    && (r.calls == |r.sleeps| ==> a + r.calls >= m)
    && (r.calls == 0 ==> r.ending == if last.Some? then Reraised(last.value) else RaisedNone)
    && (r.calls > 0 ==> !r.ending.RaisedNone?)
  }

  /** The sleep after call `a + j` follows a retryable error still under its
      type's cut-off and lasts that type's wait time for the attempt. */
  ghost predicate SleepsShape<T>(c: Config, kind: PyError -> ErrorType, run: nat -> Outcome<T>, a: nat, r: RetryRun<T>) {
    forall j :: 0 <= j < |r.sleeps| ==> SleepAfter(c, kind, run, a + j, r.sleeps[j])
  }

  /** Sleeping `w` seconds after call `i` is what the loop does for its error. */
  ghost predicate SleepAfter<T>(c: Config, kind: PyError -> ErrorType, run: nat -> Outcome<T>, i: nat, w: nat) {
    && run(i).Raises?
    && IsRetryable(kind(run(i).error))
    && i < MaxRetries(c, kind(run(i).error)) - 1
    && w == WaitTime(c, kind(run(i).error), i)
  }

  /** A returned value is the last call's, and no sleep follows it. */
  ghost predicate ReturnShape<T>(run: nat -> Outcome<T>, a: nat, r: RetryRun<T>) {
    r.ending.Returned? ==> r.calls == |r.sleeps| + 1 && run(a + r.calls - 1) == Succeeds(r.ending.value)
  }

  /** An exception re-raised right after a call is that call's, and its type
      stops the loop: a CODE_BUG, a CONFIG error, or the type's cut-off reached. */
  ghost predicate StopShape<T>(c: Config, kind: PyError -> ErrorType, run: nat -> Outcome<T>, a: nat, r: RetryRun<T>) {
    r.ending.Reraised? && r.calls == |r.sleeps| + 1 ==>
      && run(a + r.calls - 1) == Raises(r.ending.error)
      && var t := kind(r.ending.error);
         t == CODE_BUG || t == CONFIG || a + r.calls - 1 >= MaxRetries(c, t) - 1
  }

  /** After a final sleep the loop is over and the last call's exception is re-raised. */
  ghost predicate ExhaustShape<T>(run: nat -> Outcome<T>, a: nat, r: RetryRun<T>) {
    r.calls == |r.sleeps| && r.calls > 0 ==>
      run(a + r.calls - 1).Raises? && r.ending == Reraised(run(a + r.calls - 1).error)
  }

  lemma {:induction false} RunCalls<T>(c: Config, kind: PyError -> ErrorType, run: nat -> Outcome<T>, a: nat, last: Option<PyError>)
    ensures CallsShape(c, a, last, RetryFrom(c, kind, run, a, last))
    decreases MaxRetries(c, SYSTEM) - a
  {
    if a < MaxRetries(c, SYSTEM) && run(a).Raises? {
      var e := run(a).error;
      var t := kind(e);
      if !(t == CODE_BUG || !IsRetryable(t) || a >= MaxRetries(c, t) - 1) {
        RunCalls(c, kind, run, a + 1, Some(e));
      }
    }
  }

  lemma {:induction false} RunSleeps<T>(c: Config, kind: PyError -> ErrorType, run: nat -> Outcome<T>, a: nat, last: Option<PyError>)
    ensures SleepsShape(c, kind, run, a, RetryFrom(c, kind, run, a, last))
    decreases MaxRetries(c, SYSTEM) - a
  {
    if a < MaxRetries(c, SYSTEM) && run(a).Raises? {
      var e := run(a).error;
      var t := kind(e);
      if !(t == CODE_BUG || !IsRetryable(t) || a >= MaxRetries(c, t) - 1) {
        RunSleeps(c, kind, run, a + 1, Some(e));
        var rest := RetryFrom(c, kind, run, a + 1, Some(e));
        var r := RetryFrom(c, kind, run, a, last);
        assert r.sleeps == [WaitTime(c, t, a)] + rest.sleeps;
        forall j | 0 <= j < |r.sleeps|
          ensures SleepAfter(c, kind, run, a + j, r.sleeps[j])
        {
          if j > 0 {
            var k := j - 1;
            assert r.sleeps[j] == rest.sleeps[k];
            assert a + j == (a + 1) + k;
          }
        }
        assert SleepsShape(c, kind, run, a, r);
      }
    }
  }

  /** One retried iteration: the run from `a` is the run from `a + 1` after one
      more call and one more sleep. */
  lemma RetriedStep<T>(c: Config, kind: PyError -> ErrorType, run: nat -> Outcome<T>, a: nat, last: Option<PyError>)
    requires a < MaxRetries(c, SYSTEM) && run(a).Raises?
    requires var t := kind(run(a).error); !(t == CODE_BUG || !IsRetryable(t) || a >= MaxRetries(c, t) - 1)
    ensures var r := RetryFrom(c, kind, run, a, last); var rest := RetryFrom(c, kind, run, a + 1, Some(run(a).error));
      && r.ending == rest.ending && r.calls == rest.calls + 1 && |r.sleeps| == |rest.sleeps| + 1
  {
  }

  lemma {:induction false} RunReturns<T>(c: Config, kind: PyError -> ErrorType, run: nat -> Outcome<T>, a: nat, last: Option<PyError>)
    ensures ReturnShape(run, a, RetryFrom(c, kind, run, a, last))
    decreases MaxRetries(c, SYSTEM) - a
  {
    if a < MaxRetries(c, SYSTEM) && run(a).Raises? {
      var e := run(a).error;
      var t := kind(e);
      if !(t == CODE_BUG || !IsRetryable(t) || a >= MaxRetries(c, t) - 1) {
        RunReturns(c, kind, run, a + 1, Some(e));
        RetriedStep(c, kind, run, a, last);
        var rest := RetryFrom(c, kind, run, a + 1, Some(e));
        assert (a + 1) + rest.calls - 1 == a + (rest.calls + 1) - 1;
      }
    }
  }

  lemma {:induction false} RunStops<T>(c: Config, kind: PyError -> ErrorType, run: nat -> Outcome<T>, a: nat, last: Option<PyError>)
    ensures StopShape(c, kind, run, a, RetryFrom(c, kind, run, a, last))
    decreases MaxRetries(c, SYSTEM) - a
  {
    if a < MaxRetries(c, SYSTEM) && run(a).Raises? {
      var e := run(a).error;
      var t := kind(e);
      RetryableUnlessConfigOrBug(t);
      if !(t == CODE_BUG || !IsRetryable(t) || a >= MaxRetries(c, t) - 1) {
        RunStops(c, kind, run, a + 1, Some(e));
        RetriedStep(c, kind, run, a, last);
        var rest := RetryFrom(c, kind, run, a + 1, Some(e));
        assert (a + 1) + rest.calls - 1 == a + (rest.calls + 1) - 1;
      }
    }
  }

  lemma {:induction false} RunExhausts<T>(c: Config, kind: PyError -> ErrorType, run: nat -> Outcome<T>, a: nat, last: Option<PyError>)
    ensures ExhaustShape(run, a, RetryFrom(c, kind, run, a, last))
    decreases MaxRetries(c, SYSTEM) - a
  {
    if a < MaxRetries(c, SYSTEM) && run(a).Raises? {
      var e := run(a).error;
      var t := kind(e);
      if !(t == CODE_BUG || !IsRetryable(t) || a >= MaxRetries(c, t) - 1) {
        RunExhausts(c, kind, run, a + 1, Some(e));
        RunCalls(c, kind, run, a + 1, Some(e));
        RetriedStep(c, kind, run, a, last);
        var rest := RetryFrom(c, kind, run, a + 1, Some(e));
        if rest.calls > 0 {
          assert (a + 1) + rest.calls - 1 == a + (rest.calls + 1) - 1;
        }
      }
    }
  }

  // ---------------------------------------------------------------------------
  // The promises of `execute_with_retry`.

  /** A CODE_BUG or CONFIG error on the first call is re-raised at once: one
      call, no sleep. */
  lemma RetryFailsFast<T>(c: Config, run: nat -> Outcome<T>)
    requires MaxRetries(c, SYSTEM) >= 1
    requires run(0).Raises?
    requires TypeOf(c, run(0).error) == CODE_BUG || TypeOf(c, run(0).error) == CONFIG
    ensures RetrySpec(c, run) == RetryRun(Reraised(run(0).error), 1, [])
  {
    RetryableUnlessConfigOrBug(TypeOf(c, run(0).error));
  }

  /** A returned value is the result of the first call that did not raise,
      unchanged; every earlier call raised a retryable error. In particular a
      first call that succeeds is the only call. */
  lemma RetryReturnsFirstSuccess<T>(c: Config, run: nat -> Outcome<T>)
    ensures var r := RetrySpec(c, run);
      r.ending.Returned? ==>
        && r.calls >= 1
        && run(r.calls - 1) == Succeeds(r.ending.value)
        && forall j :: 0 <= j < r.calls - 1 ==> run(j).Raises? && IsRetryable(TypeOf(c, run(j).error))
    ensures MaxRetries(c, SYSTEM) >= 1 && run(0).Succeeds? ==>
      RetrySpec(c, run) == RetryRun(Returned(run(0).value), 1, [])
  {
    var r := RetrySpec(c, run);
    RunReturns(c, Classifier(c), run, 0, None);
    RunSleeps(c, Classifier(c), run, 0, None);
    if r.ending.Returned? {
      forall j | 0 <= j < r.calls - 1 ensures run(j).Raises? && IsRetryable(TypeOf(c, run(j).error)) {
        assert SleepAfter(c, Classifier(c), run, 0 + j, r.sleeps[j]);
      }
    }
  }

  /** `func` is called at most `_get_max_retries(SYSTEM)` times; with a bound of
      zero or less it is never called and the loop ends in `raise None`. */
  lemma RetryCallsBounded<T>(c: Config, run: nat -> Outcome<T>)
    ensures var r := RetrySpec(c, run); var m := MaxRetries(c, SYSTEM);
      && r.calls <= (if m > 0 then m else 0)
      && (r.ending.RaisedNone? <==> m <= 0)
  {
    RunCalls(c, Classifier(c), run, 0, None);
  }

  /** Sleep `j` follows call `j`, whose error is retryable and still under its
      type's cut-off, and lasts `_calculate_wait_time(type, j)`. Every call but the
      last is followed by a sleep; the last is followed by one only when the loop
      has run out of iterations, and then that call's exception is re-raised. */
  lemma RetrySleepSchedule<T>(c: Config, run: nat -> Outcome<T>)
    ensures var r := RetrySpec(c, run);
      && (forall j :: 0 <= j < |r.sleeps| ==>
            && run(j).Raises?
            && IsRetryable(TypeOf(c, run(j).error))
            && j < MaxRetries(c, TypeOf(c, run(j).error)) - 1
            && r.sleeps[j] == WaitTime(c, TypeOf(c, run(j).error), j))
      && |r.sleeps| <= r.calls <= |r.sleeps| + 1
      && (r.calls == |r.sleeps| && r.calls > 0 ==>
            r.calls == MaxRetries(c, SYSTEM) && r.ending == Reraised(run(r.calls - 1).error))
  {
    var r := RetrySpec(c, run);
    RunCalls(c, Classifier(c), run, 0, None);
    RunSleeps(c, Classifier(c), run, 0, None);
    RunExhausts(c, Classifier(c), run, 0, None);
    forall j | 0 <= j < |r.sleeps|
      ensures run(j).Raises? && IsRetryable(TypeOf(c, run(j).error))
      ensures j < MaxRetries(c, TypeOf(c, run(j).error)) - 1
      ensures r.sleeps[j] == WaitTime(c, TypeOf(c, run(j).error), j)
    {
      assert SleepAfter(c, Classifier(c), run, 0 + j, r.sleeps[j]);
    }
  }

  /** An exception re-raised right after a call is that call's, and the call
      was the one that stopped the loop: its error is a CODE_BUG or a CONFIG
      error, or attempt `calls - 1` reached `max_retries(type) - 1`. */
  lemma RetryStopsAtCutoff<T>(c: Config, run: nat -> Outcome<T>)
    ensures var r := RetrySpec(c, run);
      r.ending.Reraised? && r.calls == |r.sleeps| + 1 ==>
        && run(r.calls - 1) == Raises(r.ending.error)
        && var t := TypeOf(c, r.ending.error);
           t == CODE_BUG || t == CONFIG || r.calls - 1 >= MaxRetries(c, t) - 1
  {
    RunStops(c, Classifier(c), run, 0, None);
  }
}
