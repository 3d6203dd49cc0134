/**
 The retry loops of `discoverTrendingReelsFlow`
 (src/ai/flows/discover-trending-reels.ts). The file holds two copies of the
 flow: the first retries only failures whose `String(error)` mentions "503"
 or "overloaded", the second retries every failure. Both make at most three
 attempts and wait 1000 ms times the attempt number before the next one.

 The prompt call is an oracle: `prompt(k)` is what attempt `k` (counting from
 1) returns or throws. The waits are recorded, not slept.
 */
module TrendRetry {
  import opened Strings
  import opened Common

  const MaxRetries: nat := 3
  const RetryDelayMs: nat := 1000

  /** What one call of the prompt does. */
  datatype Reply<+T> = Output(value: T) | Threw(error: Thrown)

  /** How a run of the flow ends: with the prompt's output, with the error an
      attempt threw, or with the error thrown after the loop. */
  datatype Ending<+T> = Returned(value: T) | Rethrown(error: Thrown) | GaveUp(error: Thrown)

  /** What the caller of the flow receives: the output, or the thrown error
      whichever throw produced it. */
  function Outcome<T>(e: Ending<T>): (r: Result<T>)
    ensures r.Ok? <==> e.Returned?
    ensures r.Ok? ==> r.value == e.value
    ensures r.Err? ==> r.error == e.error
  {
    match e
    case Returned(v) => Ok(v)
    case Rethrown(err) => Err(err)
    case GaveUp(err) => Err(err)
  }

  /** A whole run: how it ended, how many times the prompt was called, and
      the waits recorded between calls, in order. */
  datatype Run<+T> = Run(ending: Ending<T>, calls: nat, waits: seq<nat>)

  const TransientGaveUpError := PlainError("Failed to discover trending reels after multiple attempts.")
  const AnyGaveUpError := PlainError("Failed after multiple attempts")

  /** The wait after a failed attempt, before the next one. */
  function Backoff(attempt: nat): (ms: nat)
    ensures attempt >= 1 ==> ms >= RetryDelayMs
  {
    RetryDelayMs * attempt
  }

  /** Later attempts wait strictly longer. */
  lemma BackoffIncreases(m: nat, n: nat)
    requires 1 <= m < n
    ensures 0 < Backoff(m) < Backoff(n)
  {
  }

  /** The waits recorded after `n` failed attempts: 1000, 2000, ... ms. */
  function Schedule(n: nat): (ws: seq<nat>)
    ensures |ws| == n
    ensures forall i | 0 <= i < n :: ws[i] == Backoff(i + 1)
  {
    if n == 0 then [] else Schedule(n - 1) + [Backoff(n)]
  }

  function Sum(ws: seq<nat>): nat {
    if |ws| == 0 then 0 else Sum(ws[..|ws| - 1]) + ws[|ws| - 1]
  }

  /** The total waited after `n` failed attempts is 1000 * n(n+1)/2 ms. */
  lemma {:induction false} ScheduleTotal(n: nat)
    ensures 2 * Sum(Schedule(n)) == RetryDelayMs * n * (n + 1)
  {
    if n > 0 {
      ScheduleTotal(n - 1);
      SumScheduleStep(n);
      TriangleStep(n);
    }
  }

  /** One more failed attempt adds its own wait to the total. */
  lemma SumScheduleStep(n: nat)
    requires n > 0
    ensures Sum(Schedule(n)) == Sum(Schedule(n - 1)) + Backoff(n)
  {
    assert Schedule(n)[..n - 1] == Schedule(n - 1);
  }

  lemma TriangleStep(n: nat)
    requires n > 0
    ensures RetryDelayMs * (n - 1) * n + 2 * RetryDelayMs * n == RetryDelayMs * n * (n + 1)
  {
    calc {
      RetryDelayMs * (n - 1) * n + 2 * RetryDelayMs * n;
      RetryDelayMs * ((n - 1) * n + 2 * n);
      { assert (n - 1) * n + 2 * n == n * (n + 1); }
      RetryDelayMs * (n * (n + 1));
    }
  }

  /** The first copy retries a failure whose `String(error)` mentions "503"
      or "overloaded". */
  predicate IsTransient(e: Thrown) {
    Contains(Shown(e), "503") || Contains(Shown(e), "overloaded")
  }

  /** The second copy retries every failure. */
  predicate AnyFailure(e: Thrown) {
    true
  }

  /** Reference definition of a run from attempt `attempt` on, for a retry
      policy: an output ends the run; a failure is retried while the policy
      accepts it and attempts remain, and is rethrown otherwise. */
  function RunFrom<T>(prompt: nat -> Reply<T>, retry: Thrown -> bool, attempt: nat): (run: Run<T>)
    requires 1 <= attempt <= MaxRetries
    ensures attempt <= run.calls <= MaxRetries
    decreases MaxRetries - attempt
  {
    match prompt(attempt)
    case Output(v) => Run(Returned(v), attempt, Schedule(attempt - 1))
    case Threw(e) =>
      if retry(e) && attempt < MaxRetries then RunFrom(prompt, retry, attempt + 1)
      else Run(Rethrown(e), attempt, Schedule(attempt - 1))
  }

  /** The first copy of the flow (lines 66-88): retries transient failures. */
  method DiscoverRetryingTransient<T>(prompt: nat -> Reply<T>) returns (run: Run<T>)
    ensures 1 <= run.calls <= MaxRetries
    ensures forall k | 1 <= k < run.calls :: prompt(k).Threw? && IsTransient(prompt(k).error)
    ensures run.ending.Returned? <==> prompt(run.calls).Output?
    ensures run.ending.Returned? ==> run.ending.value == prompt(run.calls).value
    ensures run.ending.Rethrown? ==> run.ending.error == prompt(run.calls).error
    ensures run.ending.Rethrown? ==> run.calls == MaxRetries || !IsTransient(run.ending.error)
    ensures !run.ending.GaveUp?
    ensures run.waits == Schedule(run.calls - 1)
    ensures run == RunFrom(prompt, IsTransient, 1)
  {
    var attempt: nat := 1;
    var waits: seq<nat> := [];
    // Unless an attempt ends the loop, the run ends with the throw after it.
    var ending: Ending<T> := GaveUp(TransientGaveUpError);
    var finished := false;
    while !finished && attempt <= MaxRetries
      invariant 1 <= attempt <= MaxRetries
      invariant waits == Schedule(attempt - 1)
      invariant forall k | 1 <= k < attempt :: prompt(k).Threw? && IsTransient(prompt(k).error)
      invariant !finished ==> RunFrom(prompt, IsTransient, 1) == RunFrom(prompt, IsTransient, attempt)
      invariant finished ==> RunFrom(prompt, IsTransient, 1) == Run(ending, attempt, waits)
      invariant finished ==> !ending.GaveUp?
      invariant finished && ending.Returned? ==> prompt(attempt) == Output(ending.value)
      invariant finished && ending.Rethrown? ==> prompt(attempt) == Threw(ending.error)
      invariant finished && ending.Rethrown? ==> attempt == MaxRetries || !IsTransient(ending.error)
      decreases MaxRetries - attempt, if finished then 0 else 1
    {
      match prompt(attempt) {
        case Output(v) =>
          ending := Returned(v);
          finished := true;
        case Threw(e) =>
          if IsTransient(e) && attempt < MaxRetries {
            waits := waits + [Backoff(attempt)];
            attempt := attempt + 1;
          } else {
            ending := Rethrown(e);
            finished := true;
          }
      }
    }
    run := Run(ending, attempt, waits);
  }

  /** The second copy of the flow (lines 100-112): retries every failure. */
  method DiscoverRetryingAny<T>(prompt: nat -> Reply<T>) returns (run: Run<T>)
    ensures 1 <= run.calls <= MaxRetries
    ensures forall k | 1 <= k < run.calls :: prompt(k).Threw?
    ensures run.ending.Returned? <==> prompt(run.calls).Output?
    ensures run.ending.Returned? ==> run.ending.value == prompt(run.calls).value
    ensures run.ending.Rethrown? ==> run.ending.error == prompt(run.calls).error && run.calls == MaxRetries
    ensures !run.ending.GaveUp?
    ensures run.waits == Schedule(run.calls - 1)
    ensures run == RunFrom(prompt, AnyFailure, 1)
  {
    var attempt: nat := 1;
    var waits: seq<nat> := [];
    var ending: Ending<T> := GaveUp(AnyGaveUpError);
    var finished := false;
    while !finished && attempt <= MaxRetries
      invariant 1 <= attempt <= MaxRetries
      invariant waits == Schedule(attempt - 1)
      invariant forall k | 1 <= k < attempt :: prompt(k).Threw?
      invariant !finished ==> RunFrom(prompt, AnyFailure, 1) == RunFrom(prompt, AnyFailure, attempt)
      invariant finished ==> RunFrom(prompt, AnyFailure, 1) == Run(ending, attempt, waits)
      invariant finished ==> !ending.GaveUp?
      invariant finished && ending.Returned? ==> prompt(attempt) == Output(ending.value)
      invariant finished && ending.Rethrown? ==> prompt(attempt) == Threw(ending.error) && attempt == MaxRetries
      decreases MaxRetries - attempt, if finished then 0 else 1
    {
      match prompt(attempt) {
        case Output(v) =>
          ending := Returned(v);
          finished := true;
        case Threw(e) =>
          if attempt >= MaxRetries {
            ending := Rethrown(e);
            finished := true;
          } else {
            waits := waits + [Backoff(attempt)];
            attempt := attempt + 1;
          }
      }
    }
    run := Run(ending, attempt, waits);
  }

  /* ---------------------------------------------------------------------- */
  /* Properties of runs                                                     */
  /* ---------------------------------------------------------------------- */

  /** An output on the first attempt is returned after one call, no wait. */
  lemma FirstTrySucceeds<T>(prompt: nat -> Reply<T>, retry: Thrown -> bool)
    requires prompt(1).Output?
    ensures RunFrom(prompt, retry, 1) == Run(Returned(prompt(1).value), 1, [])
  {
  }

  /** A failure the policy does not retry is rethrown unchanged after one
      call and no wait. */
  lemma PermanentFailureFailsFast<T>(prompt: nat -> Reply<T>)
    requires prompt(1).Threw? && !IsTransient(prompt(1).error)
    ensures RunFrom(prompt, IsTransient, 1) == Run(Rethrown(prompt(1).error), 1, [])
  {
  }

  /** Output after k - 1 retried failures (k at most 3): the output is
      returned after k calls, having waited 1000 * k(k-1)/2 ms in all. */
  lemma {:induction false} SucceedsAfterRetries<T>(prompt: nat -> Reply<T>, retry: Thrown -> bool, k: nat)
    requires 1 <= k <= MaxRetries
    requires forall j | 1 <= j < k :: prompt(j).Threw? && retry(prompt(j).error)
    requires prompt(k).Output?
    ensures RunFrom(prompt, retry, 1).ending == Returned(prompt(k).value)
    ensures RunFrom(prompt, retry, 1).calls == k
    ensures 2 * Sum(RunFrom(prompt, retry, 1).waits) == RetryDelayMs * k * (k - 1)
  {
    RunFromSkipsRetried(prompt, retry, 1, k);
    ScheduleTotal(k - 1);
    assert RunFrom(prompt, retry, 1).waits == Schedule(k - 1);
  }

  /** Every attempt before `k` failed in a way the policy retries, so the run
      from attempt 1 is the run from attempt `k`. */
  lemma {:induction false} RunFromSkipsRetried<T>(prompt: nat -> Reply<T>, retry: Thrown -> bool, from: nat, k: nat)
    requires 1 <= from <= k <= MaxRetries
    requires forall j | from <= j < k :: prompt(j).Threw? && retry(prompt(j).error)
    ensures RunFrom(prompt, retry, from) == RunFrom(prompt, retry, k)
    decreases k - from
  {
    if from < k {
      RunFromSkipsRetried(prompt, retry, from + 1, k);
    }
  }

  /** Three retried failures in a row: the third error is rethrown unchanged
      after three calls, with no aggregate error built. */
  lemma ExhaustedRethrowsLastError<T>(prompt: nat -> Reply<T>, retry: Thrown -> bool)
    requires forall j | 1 <= j <= MaxRetries :: prompt(j).Threw? && retry(prompt(j).error)
    ensures RunFrom(prompt, retry, 1) == Run(Rethrown(prompt(MaxRetries).error), MaxRetries, [1000, 2000])
  {
    RunFromSkipsRetried(prompt, retry, 1, MaxRetries);
  }

  /** When every failure before the last attempt is transient, the two copies
      of the flow behave alike. */
  lemma {:induction false} CopiesAgreeOnTransientFailures<T>(prompt: nat -> Reply<T>, from: nat)
    requires 1 <= from <= MaxRetries
    requires forall j | from <= j < MaxRetries :: prompt(j).Threw? ==> IsTransient(prompt(j).error)
    ensures RunFrom(prompt, IsTransient, from) == RunFrom(prompt, AnyFailure, from)
    decreases MaxRetries - from
  {
    if from < MaxRetries {
      CopiesAgreeOnTransientFailures(prompt, from + 1);
    }
  }

  /** The second copy retries a failure the first copy gives up on at once. */
  lemma CopiesDifferOnPermanentFailure<T>(prompt: nat -> Reply<T>)
    requires prompt(1).Threw? && !IsTransient(prompt(1).error)
    requires prompt(2).Output?
    ensures RunFrom(prompt, IsTransient, 1).calls == 1 && RunFrom(prompt, IsTransient, 1).ending.Rethrown?
    ensures RunFrom(prompt, AnyFailure, 1) == Run(Returned(prompt(2).value), 2, [1000])
  {
  }

  /* ---------------------------------------------------------------------- */
  /* Worked scenarios                                                       */
  /* ---------------------------------------------------------------------- */

  const ServiceUnavailable := PlainError("503 Service Unavailable")
  const Overloaded := PlainError("model overloaded")

  lemma ServiceUnavailableIsTransient()
    ensures IsTransient(ServiceUnavailable)
  {
    ServiceUnavailableOpensWith503();
    LeadingMarkerIsShown("503", " Service Unavailable");
  }

  lemma ServiceUnavailableOpensWith503()
    ensures ServiceUnavailable == PlainError("503" + " Service Unavailable")
  {
  }

  /** A marker that opens the message of a plain error is found in
      `String(error)`, which is "Error: " followed by the message. */
  lemma LeadingMarkerIsShown(marker: string, rest: string)
    requires marker != ""
    ensures Contains(Shown(PlainError(marker + rest)), marker)
  {
    assert Shown(PlainError(marker + rest)) == "Error: " + marker + rest;
    assert IsPrefix(marker, marker);
    ContainsInExtension("Error: ", marker, rest, marker);
  }

  lemma OverloadedIsTransient()
    ensures IsTransient(Overloaded)
  {
    var s := Shown(Overloaded);
    assert s == "Error: model overloaded";
    assert s[13..23] == "overloaded";
    ContainsAt(s, "overloaded", 13);
  }

  /** Two "503" failures, then an output: waits of 1000 and 2000 ms, the
      output returned, three calls in all. */
  lemma TwoOverloadsThenOutput(v: int)
    ensures RunFrom((k: nat) => if k <= 2 then Threw(ServiceUnavailable) else Output(v), IsTransient, 1)
         == Run(Returned(v), 3, [1000, 2000])
  {
    ServiceUnavailableIsTransient();
  }

  /** Three "overloaded" failures: the third is rethrown after three calls. */
  lemma ThreeOverloadsExhaust()
    ensures RunFrom((k: nat) => Reply<int>.Threw(Overloaded), IsTransient, 1)
         == Run(Rethrown(Overloaded), 3, [1000, 2000])
  {
    OverloadedIsTransient();
  }
}
