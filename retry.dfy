/** The retry executor: at most `maxRetries` attempts of an operation, one retry
    notification per failed attempt, an exponentially growing wait between
    attempts, and a failure notification before the last error is rethrown.
    The operation is an oracle: `op(k)` is what attempt k returns or throws. */
module Retry {
  import opened Outcomes
  import opened Notifier
  import opened Events
  import Config

  datatype RetryConfig = RetryConfig(maxRetries: int, baseDelay: nat, backoffMultiplier: nat)

  /** The shipped retry configuration. */
  const Defaults: RetryConfig := RetryConfig(Config.MaxRetries, Config.RetryDelay, Config.BackoffMultiplier)

  /** The fields a caller of `executeWithCustomRetry` may set; `None` keeps the default. */
  datatype CustomConfig = CustomConfig(maxRetries: Option<int>, baseDelay: Option<nat>,
                                       backoffMultiplier: Option<nat>)

  /** `{...defaults, ...customConfig}`. */
  function Merge(custom: CustomConfig): (cfg: RetryConfig)
    ensures cfg.maxRetries == (if custom.maxRetries.Some? then custom.maxRetries.value else Defaults.maxRetries)
    ensures cfg.baseDelay == (if custom.baseDelay.Some? then custom.baseDelay.value else Defaults.baseDelay)
    ensures cfg.backoffMultiplier ==
            (if custom.backoffMultiplier.Some? then custom.backoffMultiplier.value else Defaults.backoffMultiplier)
  {
    RetryConfig(
      if custom.maxRetries.Some? then custom.maxRetries.value else Defaults.maxRetries,
      if custom.baseDelay.Some? then custom.baseDelay.value else Defaults.baseDelay,
      if custom.backoffMultiplier.Some? then custom.backoffMultiplier.value else Defaults.backoffMultiplier)
  }

  /** A custom configuration that sets nothing is the default one. */
  lemma MergeNothing()
    ensures Merge(CustomConfig(None, None, None)) == Defaults
  {
  }

  function Pow(b: nat, e: nat): nat
  {
    if e == 0 then 1 else b * Pow(b, e - 1)
  }

  /** `calculateDelay(attempt)`: the wait after failed attempt `attempt`. */
  function Delay(cfg: RetryConfig, attempt: nat): (ms: nat)
    requires attempt >= 1
    ensures attempt == 1 ==> ms == cfg.baseDelay
    ensures cfg.backoffMultiplier >= 1 ==> ms >= cfg.baseDelay
    ensures cfg.backoffMultiplier == 1 ==> ms == cfg.baseDelay
  {
    PowAtLeastOne(cfg.backoffMultiplier, attempt - 1);
    cfg.baseDelay * Pow(cfg.backoffMultiplier, attempt - 1)
  }

  /** A power of a positive base is positive, and every power of 1 is 1. */
  lemma {:induction false} PowAtLeastOne(b: nat, e: nat)
    ensures b >= 1 ==> Pow(b, e) >= 1
    ensures b == 1 ==> Pow(b, e) == 1
  {
    if e > 0 {
      PowAtLeastOne(b, e - 1);
      assert b >= 1 ==> b * Pow(b, e - 1) >= Pow(b, e - 1);
    }
  }

  /** The first wait is the base delay, and each later one is the previous one
      times the multiplier. */
  lemma DelayBackoff(cfg: RetryConfig, attempt: nat)
    requires attempt >= 1
    ensures Delay(cfg, 1) == cfg.baseDelay
    ensures Delay(cfg, attempt + 1) == cfg.backoffMultiplier * Delay(cfg, attempt)
  {
    assert Pow(cfg.backoffMultiplier, attempt) == cfg.backoffMultiplier * Pow(cfg.backoffMultiplier, attempt - 1);
  }

  /** What JavaScript throws when the executor reads `lastError.message` while
      `lastError` is still `null`, which happens when no attempt is made. */
  const NullMessageError: string := "Cannot read properties of null (reading 'message')"

  /** The result of a run of the executor, and its events. */
  datatype Run<T> = Run(result: Outcome<T>, log: seq<Event>)

  /** The events of failed attempt k: the invocation, its retry notice, and the
      wait before the next attempt unless k is the last. */
  function FailedAttempt(cfg: RetryConfig, feature: string, k: nat, error: string): seq<Event>
    requires k >= 1
  {
    [Invoke(k), Notify(RetryNotice(feature, k, cfg.maxRetries, error))]
    + (if k < cfg.maxRetries then [Sleep(Delay(cfg, k))] else [])
  }

  /** The failure notice sent once every attempt has failed: the context with the
      attempt and the maximum both set to `maxRetries`. */
  function Exhausted(cfg: RetryConfig, feature: string, error: string, context: Details): Notice
  {
    FailureNotice(feature, error, context.(attempt := cfg.maxRetries, maxRetries := cfg.maxRetries))
  }

  /** The attempts from k on, given the error of the attempt before k (`None`
      before the first attempt). */
  function From<T>(cfg: RetryConfig, op: nat -> Outcome<T>, feature: string, context: Details,
                   k: nat, lastError: Option<string>): Run<T>
    requires k >= 1
    decreases if k <= cfg.maxRetries then cfg.maxRetries + 1 - k else 0
  {
    if k > cfg.maxRetries then
      match lastError
      case None => Run(Err(NullMessageError), [])
      case Some(e) => Run(Err(e), [Notify(Exhausted(cfg, feature, e, context))])
    else
      match op(k)
      case Ok(v) => Run(Ok(v), [Invoke(k)])
      case Err(e) =>
        var rest := From(cfg, op, feature, context, k + 1, Some(e));
        Run(rest.result, FailedAttempt(cfg, feature, k, e) + rest.log)
  }

  /** The whole run of `executeWithCustomRetry` with configuration `cfg`. */
  function Executed<T>(cfg: RetryConfig, op: nat -> Outcome<T>, feature: string, context: Details): Run<T>
  {
    From(cfg, op, feature, context, 1, None)
  }

  /** The attempt loop. */
  method Execute<T>(cfg: RetryConfig, op: nat -> Outcome<T>, feature: string, context: Details)
    returns (result: Outcome<T>, log: seq<Event>)
    ensures Run(result, log) == Executed(cfg, op, feature, context)
  {
    var lastError: Option<string> := None;
    var attempt: nat := 1;
    log := [];
    while attempt <= cfg.maxRetries
      invariant attempt >= 1
      invariant attempt > 1 ==> lastError.Some?
      invariant var rest := From(cfg, op, feature, context, attempt, lastError);
        Executed(cfg, op, feature, context) == Run(rest.result, log + rest.log)
      decreases cfg.maxRetries + 1 - attempt
    {
      var outcome := op(attempt);
      if outcome.Ok? {
        log := log + [Invoke(attempt)];
        return outcome, log;
      }
      lastError := Some(outcome.error);
      log := log + [Invoke(attempt), Notify(RetryNotice(feature, attempt, cfg.maxRetries, outcome.error))];
      if attempt < cfg.maxRetries {
        log := log + [Sleep(Delay(cfg, attempt))];
      }
      attempt := attempt + 1;
    }
    if lastError.None? {
      return Err(NullMessageError), log;
    }
    log := log + [Notify(Exhausted(cfg, feature, lastError.value, context))];
    result := Err(lastError.value);
  }

  /** `executeWithRetry`: the attempt loop under the shipped configuration. */
  method ExecuteWithRetry<T>(op: nat -> Outcome<T>, feature: string, context: Details)
    returns (result: Outcome<T>, log: seq<Event>)
    ensures Run(result, log) == Executed(Defaults, op, feature, context)
  {
    result, log := Execute(Defaults, op, feature, context);
  }

  /** `executeWithCustomRetry`: the attempt loop under the merged configuration. */
  method ExecuteWithCustomRetry<T>(op: nat -> Outcome<T>, feature: string, custom: CustomConfig,
                                   context: Details)
    returns (result: Outcome<T>, log: seq<Event>)
    ensures Run(result, log) == Executed(Merge(custom), op, feature, context)
  {
    result, log := Execute(Merge(custom), op, feature, context);
  }

  // ---------------------------------------------------------------------------
  // The shape of a run

  /** The attempt numbers lo, lo + 1, ..., lo + n - 1. */
  function Range(lo: nat, n: nat): (s: seq<nat>)
    ensures |s| == n
    decreases n
  {
    if n == 0 then [] else [lo] + Range(lo + 1, n - 1)
  }

  lemma {:induction false} RangeAt(lo: nat, n: nat, i: nat)
    requires i < n
    ensures Range(lo, n)[i] == lo + i
    decreases n
  {
    if i > 0 {
      RangeAt(lo + 1, n - 1, i - 1);
    }
  }

  lemma {:induction false} RangeSplit(lo: nat, n: nat)
    ensures Range(lo, n + 1) == Range(lo, n) + [lo + n]
    decreases n
  {
    if n > 0 {
      RangeSplit(lo + 1, n - 1);
    }
  }

  /** The retry notices of failed attempts lo, ..., lo + n - 1. */
  function RetryNotices<T>(cfg: RetryConfig, op: nat -> Outcome<T>, feature: string, lo: nat, n: nat)
    : (s: seq<Notice>)
    ensures |s| == n
    decreases n
  {
    if n == 0 then [] else [RetryNotice(feature, lo, cfg.maxRetries, ErrorOf(op(lo)))]
                           + RetryNotices(cfg, op, feature, lo + 1, n - 1)
  }

  /** The notice at position i is the retry notice of attempt lo + i. */
  lemma {:induction false} RetryNoticesAt<T>(cfg: RetryConfig, op: nat -> Outcome<T>, feature: string,
                                             lo: nat, n: nat, i: nat)
    requires i < n
    ensures RetryNotices(cfg, op, feature, lo, n)[i]
            == RetryNotice(feature, lo + i, cfg.maxRetries, ErrorOf(op(lo + i)))
    decreases n
  {
    if i > 0 {
      RetryNoticesAt(cfg, op, feature, lo + 1, n - 1, i - 1);
    }
  }

  /** The waits after failed attempts lo, ..., lo + n - 1. */
  function Delays(cfg: RetryConfig, lo: nat, n: nat): (s: seq<nat>)
    requires lo >= 1
    ensures |s| == n
    decreases n
  {
    if n == 0 then [] else [Delay(cfg, lo)] + Delays(cfg, lo + 1, n - 1)
  }

  /** The wait at position i is the one after attempt lo + i. */
  lemma {:induction false} DelaysAt(cfg: RetryConfig, lo: nat, n: nat, i: nat)
    requires lo >= 1 && i < n
    ensures Delays(cfg, lo, n)[i] == Delay(cfg, lo + i)
    decreases n
  {
    if i > 0 {
      DelaysAt(cfg, lo + 1, n - 1, i - 1);
    }
  }

  /** A failed attempt is one invocation, one retry notice carrying the attempt,
      the maximum and the error, and a wait only when it is not the last. */
  lemma FailedAttemptViews(cfg: RetryConfig, feature: string, k: nat, error: string)
    requires k >= 1
    ensures Invocations(FailedAttempt(cfg, feature, k, error)) == [k]
    ensures Notices(FailedAttempt(cfg, feature, k, error)) == [RetryNotice(feature, k, cfg.maxRetries, error)]
    ensures Sleeps(FailedAttempt(cfg, feature, k, error)) == (if k < cfg.maxRetries then [Delay(cfg, k)] else [])
  {
    var a := [Invoke(k), Notify(RetryNotice(feature, k, cfg.maxRetries, error))];
    var w: seq<Event> := if k < cfg.maxRetries then [Sleep(Delay(cfg, k))] else [];
    assert FailedAttempt(cfg, feature, k, error) == a + w;
    assert a == [a[0]] + [a[1]];
    InvocationsAppend([a[0]], [a[1]]);
    NoticesAppend([a[0]], [a[1]]);
    SleepsAppend([a[0]], [a[1]]);
    InvocationsAppend(a, w);
    NoticesAppend(a, w);
    SleepsAppend(a, w);
  }

  /** The views of a failed attempt followed by the rest of a run. */
  lemma FailedThen(cfg: RetryConfig, feature: string, k: nat, error: string, rest: seq<Event>)
    requires k >= 1
    ensures Invocations(FailedAttempt(cfg, feature, k, error) + rest) == [k] + Invocations(rest)
    ensures Notices(FailedAttempt(cfg, feature, k, error) + rest)
            == [RetryNotice(feature, k, cfg.maxRetries, error)] + Notices(rest)
    ensures Sleeps(FailedAttempt(cfg, feature, k, error) + rest)
            == (if k < cfg.maxRetries then [Delay(cfg, k)] else []) + Sleeps(rest)
  {
    FailedAttemptViews(cfg, feature, k, error);
    InvocationsAppend(FailedAttempt(cfg, feature, k, error), rest);
    NoticesAppend(FailedAttempt(cfg, feature, k, error), rest);
    SleepsAppend(FailedAttempt(cfg, feature, k, error), rest);
  }

  /** The events of failed attempts lo, ..., lo + n - 1, in order. */
  function Failures<T>(cfg: RetryConfig, op: nat -> Outcome<T>, feature: string, lo: nat, n: nat)
    : (log: seq<Event>)
    requires lo >= 1
    ensures |log| >= 2 * n
    decreases n
  {
    if n == 0 then [] else FailedAttempt(cfg, feature, lo, ErrorOf(op(lo))) + Failures(cfg, op, feature, lo + 1, n - 1)
  }

  /** Each failed attempt is invoked once, in order. */
  lemma {:induction false} FailuresInvocations<T>(cfg: RetryConfig, op: nat -> Outcome<T>, feature: string,
                                                  lo: nat, n: nat)
    requires lo >= 1
    ensures Invocations(Failures(cfg, op, feature, lo, n)) == Range(lo, n)
    decreases n
  {
    if n > 0 {
      FailuresInvocations(cfg, op, feature, lo + 1, n - 1);
      FailedThen(cfg, feature, lo, ErrorOf(op(lo)), Failures(cfg, op, feature, lo + 1, n - 1));
    }
  }

  /** Each failed attempt sends one retry notice, in order. */
  lemma {:induction false} FailuresNotices<T>(cfg: RetryConfig, op: nat -> Outcome<T>, feature: string,
                                              lo: nat, n: nat)
    requires lo >= 1
    ensures Notices(Failures(cfg, op, feature, lo, n)) == RetryNotices(cfg, op, feature, lo, n)
    decreases n
  {
    if n > 0 {
      FailuresNotices(cfg, op, feature, lo + 1, n - 1);
      FailedThen(cfg, feature, lo, ErrorOf(op(lo)), Failures(cfg, op, feature, lo + 1, n - 1));
    }
  }

  /** A wait follows each failed attempt before attempt maxRetries. */
  lemma {:induction false} FailuresSleeps<T>(cfg: RetryConfig, op: nat -> Outcome<T>, feature: string,
                                             lo: nat, n: nat)
    requires lo >= 1 && lo + n <= cfg.maxRetries
    ensures Sleeps(Failures(cfg, op, feature, lo, n)) == Delays(cfg, lo, n)
    decreases n
  {
    if n > 0 {
      FailuresSleeps(cfg, op, feature, lo + 1, n - 1);
      FailedThen(cfg, feature, lo, ErrorOf(op(lo)), Failures(cfg, op, feature, lo + 1, n - 1));
    }
  }

  /** No wait follows attempt maxRetries. */
  lemma FailuresSleepsToLast<T>(cfg: RetryConfig, op: nat -> Outcome<T>, feature: string, lo: nat, n: nat)
    requires lo >= 1 && n >= 1 && lo + n == cfg.maxRetries + 1
    ensures Sleeps(Failures(cfg, op, feature, lo, n)) == Delays(cfg, lo, n - 1)
  {
    var last := cfg.maxRetries;
    var f := Failures(cfg, op, feature, lo, n - 1);
    var a := FailedAttempt(cfg, feature, last, ErrorOf(op(last)));
    FailuresSplit(cfg, op, feature, lo, n - 1);
    FailuresSleeps(cfg, op, feature, lo, n - 1);
    SleepsAppend(f, a);
    FailedAttemptViews(cfg, feature, last, ErrorOf(op(last)));
  }

  /** The failed attempts lo..lo + n, split before the last one. */
  lemma {:induction false} FailuresSplit<T>(cfg: RetryConfig, op: nat -> Outcome<T>, feature: string,
                                            lo: nat, n: nat)
    requires lo >= 1
    ensures Failures(cfg, op, feature, lo, n + 1)
            == Failures(cfg, op, feature, lo, n) + FailedAttempt(cfg, feature, lo + n, ErrorOf(op(lo + n)))
    decreases n
  {
    if n > 0 {
      FailuresSplit(cfg, op, feature, lo + 1, n - 1);
      var a := FailedAttempt(cfg, feature, lo, ErrorOf(op(lo)));
      var b := FailedAttempt(cfg, feature, lo + n, ErrorOf(op(lo + n)));
      var f := Failures(cfg, op, feature, lo + 1, n - 1);
      assert a + (f + b) == (a + f) + b;
    } else {
      assert Failures(cfg, op, feature, lo, 1) == FailedAttempt(cfg, feature, lo, ErrorOf(op(lo))) + [];
    }
  }

  /** Attempts k..j when the first success among them is attempt j. */
  lemma {:induction false} FromSucceeds<T>(cfg: RetryConfig, op: nat -> Outcome<T>, feature: string,
                                           context: Details, k: nat, j: nat, lastError: Option<string>)
    requires 1 <= k <= j <= cfg.maxRetries
    requires op(j).Ok?
    requires forall i :: k <= i < j ==> op(i).Err?
    ensures From(cfg, op, feature, context, k, lastError)
            == Run(op(j), Failures(cfg, op, feature, k, j - k) + [Invoke(j)])
    decreases j - k
  {
    if k < j {
      var e := op(k).error;
      FromSucceeds(cfg, op, feature, context, k + 1, j, Some(e));
      var a := FailedAttempt(cfg, feature, k, e);
      var f := Failures(cfg, op, feature, k + 1, j - k - 1);
      assert a + (f + [Invoke(j)]) == (a + f) + [Invoke(j)];
    }
  }

  /** Attempts k..maxRetries when all of them fail. */
  lemma {:induction false} FromExhausts<T>(cfg: RetryConfig, op: nat -> Outcome<T>, feature: string,
                                           context: Details, k: nat, lastError: Option<string>)
    requires 1 <= k <= cfg.maxRetries
    requires forall i :: k <= i <= cfg.maxRetries ==> op(i).Err?
    ensures var last := ErrorOf(op(cfg.maxRetries));
      From(cfg, op, feature, context, k, lastError)
      == Run(Err(last), Failures(cfg, op, feature, k, cfg.maxRetries - k + 1)
                        + [Notify(Exhausted(cfg, feature, last, context))])
    decreases cfg.maxRetries - k
  {
    var e := op(k).error;
    var x := Notify(Exhausted(cfg, feature, ErrorOf(op(cfg.maxRetries)), context));
    var a := FailedAttempt(cfg, feature, k, e);
    if k == cfg.maxRetries {
      assert Failures(cfg, op, feature, k, 1) == a + [];
      assert a + [] == a;
    } else {
      FromExhausts(cfg, op, feature, context, k + 1, Some(e));
      var f := Failures(cfg, op, feature, k + 1, cfg.maxRetries - k);
      assert a + (f + [x]) == (a + f) + [x];
    }
  }

  /** The attempts from k on succeed exactly when one of them does. */
  lemma {:induction false} FromOk<T>(cfg: RetryConfig, op: nat -> Outcome<T>, feature: string,
                                     context: Details, k: nat, lastError: Option<string>)
    requires k >= 1
    ensures From(cfg, op, feature, context, k, lastError).result.Ok?
            <==> exists i :: k <= i <= cfg.maxRetries && op(i).Ok?
    ensures |Invocations(From(cfg, op, feature, context, k, lastError).log)|
            <= (if k <= cfg.maxRetries then cfg.maxRetries - k + 1 else 0)
    decreases if k <= cfg.maxRetries then cfg.maxRetries + 1 - k else 0
  {
    var r := From(cfg, op, feature, context, k, lastError);
    if k > cfg.maxRetries {
      if lastError.Some? {
        Single(Notify(Exhausted(cfg, feature, lastError.value, context)));
      }
    } else if op(k).Ok? {
      Single(Invoke(k));
    } else {
      var e := op(k).error;
      var rest := From(cfg, op, feature, context, k + 1, Some(e));
      assert r == Run(rest.result, FailedAttempt(cfg, feature, k, e) + rest.log);
      FromOk(cfg, op, feature, context, k + 1, Some(e));
      assert |Invocations(r.log)| == 1 + |Invocations(rest.log)| by {
        FailedThen(cfg, feature, k, e, rest.log);
      }
      if exists i :: k <= i <= cfg.maxRetries && op(i).Ok? {
        var i :| k <= i <= cfg.maxRetries && op(i).Ok?;
        assert i != k;
      }
    }
  }

  // ---------------------------------------------------------------------------
  // Properties of the executor

  /** The operation is invoked at most `maxRetries` times, and the executor
      returns a value exactly when some attempt within the limit succeeds. */
  lemma AttemptsBounded<T>(cfg: RetryConfig, op: nat -> Outcome<T>, feature: string, context: Details)
    ensures var r := Executed(cfg, op, feature, context);
      && |Invocations(r.log)| <= (if cfg.maxRetries >= 1 then cfg.maxRetries else 0)
      && (r.result.Ok? <==> exists i :: 1 <= i <= cfg.maxRetries && op(i).Ok?)
  {
    FromOk(cfg, op, feature, context, 1, None);
  }

  /** Success on attempt k: the loop stops there and returns that attempt's
      value, after invoking attempts 1..k once each. */
  lemma SucceedsOnAttempt<T>(cfg: RetryConfig, op: nat -> Outcome<T>, feature: string, context: Details, k: nat)
    requires 1 <= k <= cfg.maxRetries
    requires op(k).Ok?
    requires forall i :: 1 <= i < k ==> op(i).Err?
    ensures Executed(cfg, op, feature, context).result == op(k)
    ensures Invocations(Executed(cfg, op, feature, context).log) == Range(1, k)
  {
    var f := Failures(cfg, op, feature, 1, k - 1);
    FromSucceeds(cfg, op, feature, context, 1, k, None);
    Single(Invoke(k));
    FailuresInvocations(cfg, op, feature, 1, k - 1);
    InvocationsAppend(f, [Invoke(k)]);
    RangeSplit(1, k - 1);
  }

  /** Success on attempt k comes after the k - 1 waits of the backoff schedule. */
  lemma SucceedsWaits<T>(cfg: RetryConfig, op: nat -> Outcome<T>, feature: string, context: Details, k: nat)
    requires 1 <= k <= cfg.maxRetries
    requires op(k).Ok?
    requires forall i :: 1 <= i < k ==> op(i).Err?
    ensures Sleeps(Executed(cfg, op, feature, context).log) == Delays(cfg, 1, k - 1)
  {
    var f := Failures(cfg, op, feature, 1, k - 1);
    FromSucceeds(cfg, op, feature, context, 1, k, None);
    Single(Invoke(k));
    FailuresSleeps(cfg, op, feature, 1, k - 1);
    SleepsAppend(f, [Invoke(k)]);
  }

  /** Success on attempt k comes after exactly k - 1 retry notices, one per
      failed attempt, and no failure notice. */
  lemma SucceedsNotices<T>(cfg: RetryConfig, op: nat -> Outcome<T>, feature: string, context: Details, k: nat)
    requires 1 <= k <= cfg.maxRetries
    requires op(k).Ok?
    requires forall i :: 1 <= i < k ==> op(i).Err?
    ensures Notices(Executed(cfg, op, feature, context).log) == RetryNotices(cfg, op, feature, 1, k - 1)
  {
    var f := Failures(cfg, op, feature, 1, k - 1);
    FromSucceeds(cfg, op, feature, context, 1, k, None);
    Single(Invoke(k));
    FailuresNotices(cfg, op, feature, 1, k - 1);
    NoticesAppend(f, [Invoke(k)]);
  }

  /** When every attempt fails: maxRetries invocations, one retry notice per
      attempt, waits after all but the last, then exactly one failure notice
      with `attempt = maxRetries`, and the last attempt's error is rethrown. */
  lemma ExhaustsAllAttempts<T>(cfg: RetryConfig, op: nat -> Outcome<T>, feature: string, context: Details)
    requires cfg.maxRetries >= 1
    requires forall i :: 1 <= i <= cfg.maxRetries ==> op(i).Err?
    ensures var r := Executed(cfg, op, feature, context);
      var last := ErrorOf(op(cfg.maxRetries));
      && r.result == Err(last)
      && Invocations(r.log) == Range(1, cfg.maxRetries)
      && Notices(r.log) == RetryNotices(cfg, op, feature, 1, cfg.maxRetries)
                           + [FailureNotice(feature, last, context.(attempt := cfg.maxRetries,
                                                                    maxRetries := cfg.maxRetries))]
      && Sleeps(r.log) == Delays(cfg, 1, cfg.maxRetries - 1)
  {
    FromExhausts(cfg, op, feature, context, 1, None);
    var f := Failures(cfg, op, feature, 1, cfg.maxRetries);
    var x := Notify(Exhausted(cfg, feature, ErrorOf(op(cfg.maxRetries)), context));
    Single(x);
    assert Invocations(f + [x]) == Range(1, cfg.maxRetries) by {
      FailuresInvocations(cfg, op, feature, 1, cfg.maxRetries);
      InvocationsAppend(f, [x]);
    }
    assert Notices(f + [x]) == Notices(f) + [x.notice] by {
      NoticesAppend(f, [x]);
    }
    FailuresNotices(cfg, op, feature, 1, cfg.maxRetries);
    assert Sleeps(f + [x]) == Delays(cfg, 1, cfg.maxRetries - 1) by {
      FailuresSleepsToLast(cfg, op, feature, 1, cfg.maxRetries);
      SleepsAppend(f, [x]);
    }
  }

  /** With no attempt allowed the loop body never runs, and reading the message
      of the still-null last error throws before any notification. */
  lemma NoAttempts<T>(cfg: RetryConfig, op: nat -> Outcome<T>, feature: string, context: Details)
    requires cfg.maxRetries <= 0
    ensures Executed(cfg, op, feature, context) == Run(Err(NullMessageError), [])
  {
  }

  /** Under the shipped configuration a run that fails throughout waits exactly
      5000 ms and then 10000 ms. */
  lemma DefaultWaits<T>(op: nat -> Outcome<T>, feature: string, context: Details)
    requires forall i :: 1 <= i <= Config.MaxRetries ==> op(i).Err?
    ensures Sleeps(Executed(Defaults, op, feature, context).log) == [5000, 10000]
  {
    ExhaustsAllAttempts(Defaults, op, feature, context);
    DelayBackoff(Defaults, 1);
    assert Delays(Defaults, 1, 2) == [Delay(Defaults, 1), Delay(Defaults, 2)];
  }

  predicate ExecutorNotices(ns: seq<Notice>)
  {
    forall i :: 0 <= i < |ns| ==> ns[i].RetryNotice? || ns[i].FailureNotice?
  }

  /** The executor itself only ever sends retry and failure notices. */
  lemma {:induction false} FromNoticeKinds<T>(cfg: RetryConfig, op: nat -> Outcome<T>, feature: string,
                                              context: Details, k: nat, lastError: Option<string>)
    requires k >= 1
    ensures ExecutorNotices(Notices(From(cfg, op, feature, context, k, lastError).log))
    decreases if k <= cfg.maxRetries then cfg.maxRetries + 1 - k else 0
  {
    var r := From(cfg, op, feature, context, k, lastError);
    if k > cfg.maxRetries {
      if lastError.Some? {
        Single(Notify(Exhausted(cfg, feature, lastError.value, context)));
      }
    } else if op(k).Ok? {
      Single(Invoke(k));
    } else {
      var e := op(k).error;
      var rest := From(cfg, op, feature, context, k + 1, Some(e));
      FromNoticeKinds(cfg, op, feature, context, k + 1, Some(e));
      FailedThen(cfg, feature, k, e, rest.log);
      assert r.log == FailedAttempt(cfg, feature, k, e) + rest.log;
      var ns, tail := Notices(r.log), Notices(rest.log);
      assert ns == [RetryNotice(feature, k, cfg.maxRetries, e)] + tail;
      ExecutorNoticesCons(RetryNotice(feature, k, cfg.maxRetries, e), tail);
    }
  }

  lemma ExecutorNoticesCons(n: Notice, tail: seq<Notice>)
    requires (n.RetryNotice? || n.FailureNotice?) && ExecutorNotices(tail)
    ensures ExecutorNotices([n] + tail)
  {
    var ns := [n] + tail;
    forall i | 1 <= i < |ns| ensures ns[i].RetryNotice? || ns[i].FailureNotice? {
      assert ns[i] == tail[i - 1];
    }
  }
}
