/** The feature template shared by every automation feature: the balance reads
    with their error defaults, the `execute` sequence (balance, retried action,
    exactly one notification, a result record that is never an exception), the
    default hooks, and the repetition schedule of the DEX features. */
module Feature {
  import opened Outcomes
  import opened Text
  import opened Events
  import opened Notifier
  import opened Retry
  import opened Random
  import opened Dex
  import opened DexActions
  import Config

  // ---------------------------------------------------------------------------
  // Action results

  /** One swap of a swap feature's run. */
  datatype SwapExecution = SwapExecution(executionNumber: nat, tokenPair: SwapPair, swapAmount: nat, result: SwapResult)

  /** One addition of a liquidity feature's run. */
  datatype LiquidityExecution = LiquidityExecution(executionNumber: nat, tokenPair: LiquidityPair,
                                                   amount0: nat, amount1: nat, result: LiquidityResult)

  /** What a feature's `performAction` returns. */
  datatype ActionResult =
    | UploadResult(txHash: Option<string>, fileSize: string, filePath: string)
    | SwapRun(totalExecutions: int, swaps: seq<SwapExecution>, summary: string)
    | LiquidityRun(totalExecutions: int, additions: seq<LiquidityExecution>, summary: string)

  /** The record `execute` returns: `success: true` with the wallet, its balance
      and the action's fields, or `success: false` with the error message. */
  datatype FeatureResult =
    | Succeeded(feature: string, wallet: string, balance: string, result: ActionResult)
    | Failed(feature: string, wallet: string, error: string)

  // ---------------------------------------------------------------------------
  // Balance reads

  /** `checkBalance`: the native balance in wei shown with six decimals, or
      "0.000000" when the read fails. */
  function CheckBalance(read: Outcome<nat>): (s: string)
    ensures read.Err? ==> s == "0.000000"
    ensures read.Ok? ==> s == ToFixed(read.value, Pow10(Config.TokenDecimals), 6)
  {
    match read
    case Ok(wei) => ToFixed(wei, Pow10(Config.TokenDecimals), 6)
    case Err(_) => "0.000000"
  }

  /** Either way the balance text is digits, a point and six digits. */
  lemma BalanceSixDecimals(read: Outcome<nat>)
    ensures var s := CheckBalance(read);
            && |s| >= 8 && s[|s| - 7] == '.'
            && AllDigits(s[..|s| - 7]) && AllDigits(s[|s| - 6..])
  {
    if read.Ok? {
      ToFixedReadsBack(read.value, Pow10(Config.TokenDecimals), 6);
    } else {
      var s := CheckBalance(read);
      assert s[..|s| - 7] == "0" && s[|s| - 6..] == "000000";
    }
  }

  /** What the token contract answers: balance, symbol and decimals. */
  datatype TokenBalance = TokenBalance(balance: nat, symbol: string, decimals: nat)

  /** `checkTokenBalance`: the formatted balance followed by the symbol, or "0"
      when any of the three reads fails. */
  function CheckTokenBalance(read: Outcome<TokenBalance>): (s: string)
    ensures read.Err? ==> s == "0"
    ensures read.Ok? ==> s == FormatUnits(read.value.balance, read.value.decimals) + " " + read.value.symbol
  {
    match read
    case Ok(t) => FormatUnits(t.balance, t.decimals) + " " + t.symbol
    case Err(_) => "0"
  }

  /** The number `parseFloat(checkTokenBalance(...).split(' ')[0])` reads back,
      as a count of 10^-18 units compared by cross-multiplication: a failed read
      counts as zero. */
  predicate BalanceBelow(read: Outcome<TokenBalance>, amount: nat)
  {
    match read
    case Ok(t) => t.balance * Pow10(Config.TokenDecimals) < amount * Pow10(t.decimals)
    case Err(_) => 0 < amount
  }

  /** A failed read is below every positive amount and no amount over zero
      passes against it; an 18-decimal token compares its raw balance. */
  lemma BalanceBelowCases(read: Outcome<TokenBalance>, amount: nat)
    ensures read.Err? ==> (BalanceBelow(read, amount) <==> amount > 0)
    ensures read.Ok? && read.value.decimals == Config.TokenDecimals ==>
              (BalanceBelow(read, amount) <==> read.value.balance < amount)
  {
  }

  /** The balance shown in a shortfall message. */
  function BalanceShown(read: Outcome<TokenBalance>): string
  {
    match read
    case Ok(t) => DecimalText(t.balance, t.decimals)
    case Err(_) => "0"
  }

  // ---------------------------------------------------------------------------
  // The template

  const StubActionError: string := "performAction method must be implemented by child class"

  /** The details of the success notice: the context, the wallet and balance,
      then the action's own fields spread over them (an upload sets `txHash`,
      `null` when absent, and `fileSize`). */
  function SuccessDetails(context: Details, wallet: string, balance: string, result: ActionResult): (d: Details)
    ensures d.wallet == wallet && d.balance == balance
    ensures result.UploadResult? ==>
              d.fileSize == result.fileSize
              && d.txHash == (if result.txHash.Some? then result.txHash.value else "")
    ensures !result.UploadResult? ==> d.txHash == context.txHash && d.fileSize == context.fileSize
  {
    var base := context.(wallet := wallet, balance := balance);
    match result
    case UploadResult(h, size, _) => base.(txHash := if h.Some? then h.value else "", fileSize := size)
    case _ => base
  }

  /** The run of the retried action under the shipped configuration, with the
      context extended by the wallet and its balance. */
  function ActionRun(featureName: string, wallet: string, context: Details, balance: string,
                     op: nat -> Outcome<ActionResult>): Run<ActionResult>
  {
    Executed(Defaults, op, featureName, context.(wallet := wallet, balance := balance))
  }

  /** `execute`: reads the balance, runs `performAction` through the retry
      executor, then sends exactly one notice, success or wallet error, and
      returns a record in both cases. `op(k)` is the outcome of attempt k. */
  method Execute(featureName: string, wallet: string, context: Details, balanceRead: Outcome<nat>,
                 op: nat -> Outcome<ActionResult>)
    returns (r: FeatureResult, log: seq<Event>)
    ensures var balance := CheckBalance(balanceRead);
            var run := ActionRun(featureName, wallet, context, balance, op);
            && (run.result.Ok? ==>
                  && r == Succeeded(featureName, wallet, balance, run.result.value)
                  && log == run.log + [Notify(SuccessNotice(featureName, SuccessDetails(context, wallet, balance, run.result.value)))])
            && (run.result.Err? ==>
                  && r == Failed(featureName, wallet, run.result.error)
                  && log == run.log + [Notify(WalletErrorNotice(wallet, featureName, run.result.error, context))])
  {
    var balance := CheckBalance(balanceRead);
    var result, retryLog := ExecuteWithRetry(op, featureName, context.(wallet := wallet, balance := balance));
    if result.Ok? {
      var details := SuccessDetails(context, wallet, balance, result.value);
      log := retryLog + [Notify(SuccessNotice(featureName, details))];
      r := Succeeded(featureName, wallet, balance, result.value);
    } else {
      log := retryLog + [Notify(WalletErrorNotice(wallet, featureName, result.error, context))];
      r := Failed(featureName, wallet, result.error);
    }
  }

  /** The notices of an `execute` log: the executor's retry and failure notices,
      then exactly one success or wallet-error notice, matching the result. */
  lemma ExecuteNotifiesOnce(featureName: string, wallet: string, context: Details, balance: string,
                            op: nat -> Outcome<ActionResult>, final: Notice)
    requires final.SuccessNotice? || final.WalletErrorNotice?
    ensures var run := ActionRun(featureName, wallet, context, balance, op);
            var ns := Notices(run.log + [Notify(final)]);
            && |ns| >= 1 && ns[|ns| - 1] == final
            && forall i :: 0 <= i < |ns| - 1 ==> ns[i].RetryNotice? || ns[i].FailureNotice?
  {
    var run := ActionRun(featureName, wallet, context, balance, op);
    FromNoticeKinds(Defaults, op, featureName, context.(wallet := wallet, balance := balance), 1, None);
    var before := Notices(run.log);
    assert ExecutorNotices(before);
    NoticesAppend(run.log, [Notify(final)]);
    Single(Notify(final));
    var ns := Notices(run.log + [Notify(final)]);
    assert ns == before + [final];
    forall i | 0 <= i < |ns| - 1 ensures ns[i].RetryNotice? || ns[i].FailureNotice? {
      assert ns[i] == before[i];
    }
  }

  /** `execute` succeeds exactly when one of the three attempts does, and then
      carries that attempt's value; when all fail it reports the third error. */
  lemma ExecuteOutcome(featureName: string, wallet: string, context: Details, balance: string,
                       op: nat -> Outcome<ActionResult>)
    ensures var run := ActionRun(featureName, wallet, context, balance, op);
            && (run.result.Ok? <==> exists i :: 1 <= i <= 3 && op(i).Ok?)
            && ((forall i :: 1 <= i <= 3 ==> op(i).Err?) ==> run.result == Err(ErrorOf(op(3))))
  {
    var ctx := context.(wallet := wallet, balance := balance);
    AttemptsBounded(Defaults, op, featureName, ctx);
    if forall i :: 1 <= i <= 3 ==> op(i).Err? {
      ExhaustsAllAttempts(Defaults, op, featureName, ctx);
    }
  }

  /** The default `performAction` throws on every attempt, so a feature that
      does not override it always ends in a wallet-error record. */
  lemma DefaultActionFails(featureName: string, wallet: string, context: Details, balance: string)
    ensures var run := ActionRun(featureName, wallet, context, balance, _ => Err(StubActionError));
            run.result == Err(StubActionError)
  {
    var op: nat -> Outcome<ActionResult> := _ => Err(StubActionError);
    ExhaustsAllAttempts(Defaults, op, featureName, context.(wallet := wallet, balance := balance));
  }

  /** The default hooks accept everything. */
  function ValidateContext(context: Details): (ok: bool)
    ensures ok
  {
    true
  }

  function PreExecutionChecks(context: Details): (ok: bool)
    ensures ok
  {
    true
  }

  function PostExecutionCleanup(context: Details, result: ActionResult): (ok: bool)
    ensures ok
  {
    true
  }

  // ---------------------------------------------------------------------------
  // Repetition schedule of the DEX features

  const PauseMs: nat := 10000

  /** A step of a repeated action: the i-th exchange call with the chain calls it
      made and its outcome, or the pause between two calls. */
  datatype Step<R> = Performed(executionNumber: nat, calls: seq<Call>, outcome: Outcome<R>) | Paused(ms: nat)

  /** Calls numbered 1, 2, 3, ... with a 10000 ms pause after each but the last
      one present. */
  predicate Alternating<R>(steps: seq<Step<R>>)
  {
    forall k :: 0 <= k < |steps| ==>
      if k % 2 == 0 then steps[k].Performed? && steps[k].executionNumber == k / 2 + 1
      else steps[k] == Paused(PauseMs)
  }

  lemma AppendPerformed<R>(steps: seq<Step<R>>, i: nat, calls: seq<Call>, outcome: Outcome<R>)
    requires Alternating(steps) && |steps| == 2 * i
    ensures Alternating(steps + [Performed(i + 1, calls, outcome)])
  {
    var s := steps + [Performed(i + 1, calls, outcome)];
    forall k | 0 <= k < |s|
      ensures if k % 2 == 0 then s[k].Performed? && s[k].executionNumber == k / 2 + 1 else s[k] == Paused(PauseMs)
    {
      if k < |steps| { assert s[k] == steps[k]; }
    }
  }

  lemma AppendPaused<R>(steps: seq<Step<R>>, i: nat)
    requires Alternating(steps) && |steps| == 2 * i + 1
    ensures Alternating(steps + [Paused(PauseMs)])
  {
    var s := steps + [Paused(PauseMs)];
    forall k | 0 <= k < |s|
      ensures if k % 2 == 0 then s[k].Performed? && s[k].executionNumber == k / 2 + 1 else s[k] == Paused(PauseMs)
    {
      if k < |steps| { assert s[k] == steps[k]; }
    }
  }

  /** A run aborted by a failing call: it ends with that call, whose error is
      the run's, and every call before it succeeded. */
  predicate Aborted<R>(steps: seq<Step<R>>, error: string, n: nat)
  {
    && |steps| % 2 == 1 && |steps| <= CompletedLength(n)
    && steps[|steps| - 1].Performed? && steps[|steps| - 1].outcome == Err(error)
    && forall j :: 0 <= j < |steps| / 2 ==> steps[2 * j].Performed? && steps[2 * j].outcome.Ok?
  }

  /** A call that fails after i successful ones, each followed by its pause,
      aborts a run of more than i calls. */
  lemma AbortedAfter<R>(before: seq<Step<R>>, i: nat, n: nat, calls: seq<Call>, error: string)
    requires |before| == 2 * i && i < n
    requires forall j :: 0 <= j < i ==> before[2 * j].Performed? && before[2 * j].outcome.Ok?
    ensures Aborted(before + [Performed(i + 1, calls, Err(error))], error, n)
  {
    var steps := before + [Performed(i + 1, calls, Err(error))];
    forall j | 0 <= j < |steps| / 2
      ensures steps[2 * j].Performed? && steps[2 * j].outcome.Ok?
    {
      assert steps[2 * j] == before[2 * j];
    }
  }

  function Repetitions(count: int): nat
  {
    if count > 0 then count else 0
  }

  /** How many steps a completed run of n calls has. */
  function CompletedLength(n: nat): nat
  {
    if n == 0 then 0 else 2 * n - 1
  }

  function CountPaused<R>(steps: seq<Step<R>>): nat
  {
    if steps == [] then 0 else (if steps[0].Paused? then 1 else 0) + CountPaused(steps[1..])
  }

  function CountPerformed<R>(steps: seq<Step<R>>): nat
  {
    if steps == [] then 0 else (if steps[0].Performed? then 1 else 0) + CountPerformed(steps[1..])
  }

  lemma {:induction false} CountAppend<R>(a: seq<Step<R>>, b: seq<Step<R>>)
    ensures CountPaused(a + b) == CountPaused(a) + CountPaused(b)
    ensures CountPerformed(a + b) == CountPerformed(a) + CountPerformed(b)
  {
    if a == [] {
      assert a + b == b;
    } else {
      assert (a + b)[1..] == a[1..] + b;
      CountAppend(a[1..], b);
    }
  }

  /** An alternating schedule of n steps holds ⌈n/2⌉ calls and ⌊n/2⌋ pauses. */
  lemma {:induction false} AlternatingCounts<R>(steps: seq<Step<R>>)
    requires Alternating(steps)
    ensures CountPerformed(steps) == (|steps| + 1) / 2
    ensures CountPaused(steps) == |steps| / 2
    decreases |steps|
  {
    if steps != [] {
      var last := steps[|steps| - 1];
      var front := steps[..|steps| - 1];
      assert steps == front + [last];
      assert Alternating(front) by {
        forall k | 0 <= k < |front| ensures front[k] == steps[k] { }
      }
      AlternatingCounts(front);
      CountAppend(front, [last]);
      assert [last][1..] == [];
    }
  }

  /** A completed run of n calls holds n calls and n - 1 pauses, and ends with a
      call, not a pause. */
  lemma CompletedCounts<R>(steps: seq<Step<R>>, n: nat)
    requires Alternating(steps) && |steps| == CompletedLength(n)
    ensures CountPerformed(steps) == n
    ensures n > 0 ==> CountPaused(steps) == n - 1 && steps[|steps| - 1].Performed?
  {
    AlternatingCounts(steps);
    if n > 0 {
      assert (|steps| - 1) % 2 == 0;
    }
  }

  /** The amount `getRandomAmount(min, max)` draws, in 10^-18 units. */
  function RandomAmount(d: Draw, min: nat, max: nat): (a: nat)
    requires min <= max
    ensures min <= a <= max && (min < max ==> a < max)
  {
    var x := Index(d, max - min);
    assert min < max ==> x < max - min;
    min + x
  }

  /** Every amount in [min, max) is drawn by some draw. */
  lemma RandomAmountCovers(min: nat, max: nat, a: nat)
    requires min <= a < max
    ensures RandomAmount(Fraction(a - min, max - min), min, max) == a
  {
    IndexCovers(a - min, max - min);
  }
}
