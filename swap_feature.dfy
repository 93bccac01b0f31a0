/** The token-swap feature: a DEX created lazily from its tag, a run of
    `executionCount` swaps with a pause between two, and the balance
    preflight. */
module SwapFeatures {
  import opened Outcomes
  import opened Text
  import opened Random
  import opened Dex
  import opened DexActions
  import opened Feature
  import Config

  const SwapFeatureName: string := "Token Swap"

  /** The default bounds of a swap amount, 0.01 and 0.1 tokens, in 10^-18 units. */
  const SwapMinAmount: nat := 10_000_000_000_000_000
  const SwapMaxAmount: nat := 100_000_000_000_000_000

  function SwapSummary(count: int, dexType: string): string
  {
    "Completed " + IntToString(count) + " swap(s) on " + ToUpper(dexType) + " DEX"
  }

  /** The preflight's error for a balance below the sampled amount. */
  function SwapShortfall(pair: SwapPair, amount: nat, read: Outcome<TokenBalance>): string
  {
    pair.tokenInName + " balance not enough for swap " + DecimalText(amount, Config.TokenDecimals)
    + ". Balance: " + BalanceShown(read)
  }

  /** One sample of a pair and an amount: the pair from the draws starting at
      `pos`, the amount from the draw after them. */
  method DrawSwap(reg: Registry, rng: Stream, pos: nat) returns (pair: SwapPair, amount: nat, next: nat)
    requires Fair(rng, |reg|)
    ensures next > pos + 2
    ensures ValidSwapPair(reg, pair)
    ensures pair.tokenInKey == reg[Index(rng(pos), |reg|)].key
    ensures pair.tokenOutKey == reg[Index(rng(next - 2), |reg|)].key
    ensures amount == RandomAmount(rng(next - 1), SwapMinAmount, SwapMaxAmount)
    ensures SwapMinAmount <= amount < SwapMaxAmount
  {
    var p;
    pair, p := GetRandomTokenPair(reg, rng, pos);
    amount := RandomAmount(rng(p), SwapMinAmount, SwapMaxAmount);
    next := p + 1;
  }

  /** A swap of a run is well formed: numbered, a valid pair, an amount within
      the default bounds, and the exchange's result for that pair and amount. */
  predicate GoodSwap(reg: Registry, e: SwapExecution, number: nat)
  {
    && e.executionNumber == number
    && ValidSwapPair(reg, e.tokenPair)
    && SwapMinAmount <= e.swapAmount < SwapMaxAmount
    && e.result.swapAmount == DecimalText(e.swapAmount, Config.TokenDecimals)
    && e.result.tokenIn == e.tokenPair.tokenInName && e.result.tokenOut == e.tokenPair.tokenOutName
  }

  /** The steps hold the swaps in order: the call of swap k succeeded with
      swap k's result. */
  predicate Recorded(steps: seq<Step<SwapResult>>, swaps: seq<SwapExecution>)
  {
    && |steps| >= 2 * |swaps| - 1
    && forall k :: 0 <= k < |swaps| ==> steps[2 * k].Performed? && steps[2 * k].outcome == Ok(swaps[k].result)
  }

  /** The swaps of a completed run of n: n well-formed swaps in order, with
      the n - 1 pauses between them. */
  predicate Completed(reg: Registry, steps: seq<Step<SwapResult>>, swaps: seq<SwapExecution>, n: nat)
  {
    && |swaps| == n
    && |steps| == CompletedLength(n)
    && Recorded(steps, swaps)
    && forall k :: 0 <= k < n ==> GoodSwap(reg, swaps[k], k + 1)
  }

  /** Every exchange call of the run is the exchange's `performSwap` on its
      sample: step 2k holds the outcome and the chain calls of swap k + 1 on
      `tried[k]`, against `chains(k)` at time `clock(k)`. */
  predicate Linked(kind: DexKind, wallet: string, chains: nat -> SwapChain, clock: nat -> nat,
                   steps: seq<Step<SwapResult>>, tried: seq<(SwapPair, nat)>)
  {
    && |steps| >= 2 * |tried| - 1
    && forall k :: 0 <= k < |tried| ==>
         && steps[2 * k].Performed?
         && steps[2 * k].outcome == SwapOutcome(kind, tried[k].0, tried[k].1, chains(k))
         && steps[2 * k].calls == SwapCalls(kind, tried[k].0, tried[k].1, wallet, clock(k), chains(k))
  }

  /** A chain on which every swap of the default bounds goes through: an
      exchange instance, an allowance covering the largest amount, and a
      receipt with status 1. */
  predicate AcceptsAnySwap(kind: DexKind, chain: SwapChain)
  {
    && !kind.BaseDex?
    && chain.tokenIn.read.Ok? && chain.tokenIn.read.value >= SwapMaxAmount
    && chain.submit.Ok? && chain.confirm.Ok? && chain.confirm.value.status == 1
  }

  lemma LinkedAfterCall(kind: DexKind, wallet: string, chains: nat -> SwapChain, clock: nat -> nat,
                        before: seq<Step<SwapResult>>, tried: seq<(SwapPair, nat)>, sample: (SwapPair, nat),
                        calls: seq<Call>, outcome: Outcome<SwapResult>)
    requires Linked(kind, wallet, chains, clock, before, tried) && |before| == 2 * |tried|
    requires outcome == SwapOutcome(kind, sample.0, sample.1, chains(|tried|))
    requires calls == SwapCalls(kind, sample.0, sample.1, wallet, clock(|tried|), chains(|tried|))
    ensures Linked(kind, wallet, chains, clock, before + [Performed(|tried| + 1, calls, outcome)], tried + [sample])
  {
    var steps := before + [Performed(|tried| + 1, calls, outcome)];
    var t := tried + [sample];
    forall k | 0 <= k < |t|
      ensures && steps[2 * k].Performed?
              && steps[2 * k].outcome == SwapOutcome(kind, t[k].0, t[k].1, chains(k))
              && steps[2 * k].calls == SwapCalls(kind, t[k].0, t[k].1, wallet, clock(k), chains(k))
    {
      if k < |tried| {
        assert steps[2 * k] == before[2 * k];
      }
    }
  }

  lemma LinkedAfterPause(kind: DexKind, wallet: string, chains: nat -> SwapChain, clock: nat -> nat,
                         steps: seq<Step<SwapResult>>, tried: seq<(SwapPair, nat)>)
    requires Linked(kind, wallet, chains, clock, steps, tried)
    ensures Linked(kind, wallet, chains, clock, steps + [Paused(PauseMs)], tried)
  {
    var s := steps + [Paused(PauseMs)];
    forall k | 0 <= k < |tried|
      ensures && s[2 * k].Performed?
              && s[2 * k].outcome == SwapOutcome(kind, tried[k].0, tried[k].1, chains(k))
              && s[2 * k].calls == SwapCalls(kind, tried[k].0, tried[k].1, wallet, clock(k), chains(k))
    {
      assert s[2 * k] == steps[2 * k];
    }
  }

  /** A successful call recorded after the first |swaps| extends the record. */
  lemma RecordedAfterCall(before: seq<Step<SwapResult>>, swaps: seq<SwapExecution>, calls: seq<Call>, e: SwapExecution)
    requires Recorded(before, swaps) && |before| == 2 * |swaps|
    ensures Recorded(before + [Performed(|swaps| + 1, calls, Ok(e.result))], swaps + [e])
  {
    var steps := before + [Performed(|swaps| + 1, calls, Ok(e.result))];
    forall k | 0 <= k < |swaps| + 1
      ensures steps[2 * k].Performed? && steps[2 * k].outcome == Ok((swaps + [e])[k].result)
    {
      if k < |swaps| {
        assert steps[2 * k] == before[2 * k];
      }
    }
  }

  /** A pause keeps the record. */
  lemma RecordedAfterPause(steps: seq<Step<SwapResult>>, swaps: seq<SwapExecution>)
    requires Recorded(steps, swaps)
    ensures Recorded(steps + [Paused(PauseMs)], swaps)
  {
    var s := steps + [Paused(PauseMs)];
    forall k | 0 <= k < |swaps|
      ensures s[2 * k].Performed? && s[2 * k].outcome == Ok(swaps[k].result)
    {
      assert s[2 * k] == steps[2 * k];
    }
  }

  /** A failing call after the first |swaps| aborts a run of more. */
  lemma FailedAfterRecorded(before: seq<Step<SwapResult>>, swaps: seq<SwapExecution>, calls: seq<Call>, error: string, n: nat)
    requires Recorded(before, swaps) && |before| == 2 * |swaps| && |swaps| < n
    ensures Aborted(before + [Performed(|swaps| + 1, calls, Err(error))], error, n)
  {
    AbortedAfter(before, |swaps|, n, calls, error);
  }

  /** One swap of the run: a pair and an amount drawn from `pos` on, then the
      exchange's `performSwap` on them, whose result the execution records. */
  method SwapOnce(kind: DexKind, reg: Registry, rng: Stream, pos: nat, wallet: string, chain: SwapChain,
                  nowMs: nat, number: nat)
    returns (e: SwapExecution, outcome: Outcome<SwapResult>, calls: seq<Call>, next: nat)
    requires Fair(rng, |reg|)
    ensures next > pos + 2 && e.executionNumber == number
    ensures ValidSwapPair(reg, e.tokenPair) && SwapMinAmount <= e.swapAmount < SwapMaxAmount
    ensures e.tokenPair.tokenInKey == reg[Index(rng(pos), |reg|)].key
    ensures e.tokenPair.tokenOutKey == reg[Index(rng(next - 2), |reg|)].key
    ensures e.swapAmount == RandomAmount(rng(next - 1), SwapMinAmount, SwapMaxAmount)
    ensures outcome == SwapOutcome(kind, e.tokenPair, e.swapAmount, chain)
    ensures calls == SwapCalls(kind, e.tokenPair, e.swapAmount, wallet, nowMs, chain)
    ensures outcome.Ok? ==> GoodSwap(reg, e, number) && e.result == outcome.value
  {
    var pair, amount;
    pair, amount, next := DrawSwap(reg, rng, pos);
    outcome, calls := DexActions.PerformSwap(kind, pair, amount, wallet, nowMs, chain);
    e := SwapExecution(number, pair, amount, if outcome.Ok? then outcome.value else SwapResult("", "", "", "", Receipt(0, [])));
  }

  /** The bookkeeping of a run after `|swaps|` successful swaps of n, each
      followed by its pause unless it is the last: every swap recorded, well
      formed and sampled as `tried` says. */
  predicate Tally(reg: Registry, n: nat, steps: seq<Step<SwapResult>>, swaps: seq<SwapExecution>,
                  tried: seq<(SwapPair, nat)>)
  {
    var i := |swaps|;
    && i <= n && |tried| == i
    && Alternating(steps)
    && |steps| == (if i == 0 then 0 else if i < n then 2 * i else 2 * i - 1)
    && Recorded(steps, swaps)
    && (forall k :: 0 <= k < i ==> GoodSwap(reg, swaps[k], k + 1))
    && (forall k :: 0 <= k < i ==> swaps[k].tokenPair == tried[k].0 && swaps[k].swapAmount == tried[k].1)
  }

  /** The run after `|swaps|` successful swaps of n: its bookkeeping, and every
      swap linked to its exchange call. */
  predicate Progress(kind: DexKind, reg: Registry, wallet: string, chains: nat -> SwapChain, clock: nat -> nat,
                     n: nat, steps: seq<Step<SwapResult>>, swaps: seq<SwapExecution>, tried: seq<(SwapPair, nat)>)
  {
    Tally(reg, n, steps, swaps, tried) && Linked(kind, wallet, chains, clock, steps, tried)
  }

  /** A successful call, and its pause when more follow, extend the bookkeeping. */
  lemma TallyAfterSuccess(reg: Registry, n: nat, steps: seq<Step<SwapResult>>, swaps: seq<SwapExecution>,
                          tried: seq<(SwapPair, nat)>, e: SwapExecution, calls: seq<Call>)
    requires Tally(reg, n, steps, swaps, tried) && |swaps| < n
    requires GoodSwap(reg, e, |swaps| + 1)
    ensures var called := steps + [Performed(|swaps| + 1, calls, Ok(e.result))];
            Tally(reg, n, if |swaps| < n - 1 then called + [Paused(PauseMs)] else called,
                  swaps + [e], tried + [(e.tokenPair, e.swapAmount)])
  {
    var i := |swaps|;
    assert |steps| == 2 * i;
    var called := steps + [Performed(i + 1, calls, Ok(e.result))];
    AppendPerformed(steps, i, calls, Ok(e.result));
    RecordedAfterCall(steps, swaps, calls, e);
    var sw := swaps + [e];
    var t := tried + [(e.tokenPair, e.swapAmount)];
    forall k | 0 <= k < i + 1
      ensures GoodSwap(reg, sw[k], k + 1) && sw[k].tokenPair == t[k].0 && sw[k].swapAmount == t[k].1
    {
      if k < i {
        assert sw[k] == swaps[k] && t[k] == tried[k];
      }
    }
    if i < n - 1 {
      AppendPaused(called, i);
      RecordedAfterPause(called, sw);
    }
  }

  /** The run after `|swaps|` successful swaps and a failing one: aborted with the
      exchange's error on the failing swap's sample, which is well formed. */
  predicate Failed(kind: DexKind, reg: Registry, wallet: string, chains: nat -> SwapChain, clock: nat -> nat,
                   n: nat, steps: seq<Step<SwapResult>>, swaps: seq<SwapExecution>, tried: seq<(SwapPair, nat)>,
                   error: string)
  {
    var i := |swaps|;
    && i < n && |tried| == i + 1
    && Alternating(steps) && Aborted(steps, error, n) && |steps| == 2 * i + 1
    && Linked(kind, wallet, chains, clock, steps, tried)
    && (forall k :: 0 <= k < i ==> GoodSwap(reg, swaps[k], k + 1))
    && (forall k :: 0 <= k < i ==> swaps[k].tokenPair == tried[k].0 && swaps[k].swapAmount == tried[k].1)
    && ValidSwapPair(reg, tried[i].0) && SwapMinAmount <= tried[i].1 < SwapMaxAmount
    && SwapOutcome(kind, tried[i].0, tried[i].1, chains(i)) == Err(error)
    && !AcceptsAnySwap(kind, chains(i))
  }

  /** A failing exchange call, already linked, after the successful ones
      aborts the run. */
  lemma FailedStep(kind: DexKind, reg: Registry, wallet: string, chains: nat -> SwapChain, clock: nat -> nat,
                   n: nat, steps: seq<Step<SwapResult>>, swaps: seq<SwapExecution>, tried: seq<(SwapPair, nat)>,
                   sample: (SwapPair, nat), calls: seq<Call>, outcome: Outcome<SwapResult>)
    ensures (&& Tally(reg, n, steps, swaps, tried) && |swaps| < n
            && ValidSwapPair(reg, sample.0) && SwapMinAmount <= sample.1 < SwapMaxAmount
            && outcome == SwapOutcome(kind, sample.0, sample.1, chains(|swaps|)) && outcome.Err?
            && Linked(kind, wallet, chains, clock, steps + [Performed(|swaps| + 1, calls, outcome)], tried + [sample]))
            ==> Failed(kind, reg, wallet, chains, clock, n, steps + [Performed(|swaps| + 1, calls, outcome)], swaps,
                       tried + [sample], outcome.error)
  {
    if Tally(reg, n, steps, swaps, tried) && |swaps| < n
       && ValidSwapPair(reg, sample.0) && SwapMinAmount <= sample.1 < SwapMaxAmount
       && outcome == SwapOutcome(kind, sample.0, sample.1, chains(|swaps|)) && outcome.Err?
       && Linked(kind, wallet, chains, clock, steps + [Performed(|swaps| + 1, calls, outcome)], tried + [sample]) {
      var i := |swaps|;
      assert |steps| == 2 * i;
      AppendPerformed(steps, i, calls, outcome);
      FailedAfterRecorded(steps, swaps, calls, outcome.error, n);
      var t := tried + [sample];
      forall k | 0 <= k < i
        ensures swaps[k].tokenPair == t[k].0 && swaps[k].swapAmount == t[k].1
      {
        assert t[k] == tried[k];
      }
    }
  }


  /** A successful exchange call, already linked, and its pause when more
      follow extend the run by one swap. */
  lemma SucceededStep(kind: DexKind, reg: Registry, wallet: string, chains: nat -> SwapChain, clock: nat -> nat,
                      n: nat, steps: seq<Step<SwapResult>>, swaps: seq<SwapExecution>,
                      tried: seq<(SwapPair, nat)>, e: SwapExecution, calls: seq<Call>)
    ensures (&& Tally(reg, n, steps, swaps, tried) && |swaps| < n
            && GoodSwap(reg, e, |swaps| + 1)
            && Linked(kind, wallet, chains, clock, steps + [Performed(|swaps| + 1, calls, Ok(e.result))],
                       tried + [(e.tokenPair, e.swapAmount)]))
            ==> var called := steps + [Performed(|swaps| + 1, calls, Ok(e.result))];
                Progress(kind, reg, wallet, chains, clock, n,
                         if |swaps| < n - 1 then called + [Paused(PauseMs)] else called,
                         swaps + [e], tried + [(e.tokenPair, e.swapAmount)])
  {
    if Tally(reg, n, steps, swaps, tried) && |swaps| < n
       && GoodSwap(reg, e, |swaps| + 1)
       && Linked(kind, wallet, chains, clock, steps + [Performed(|swaps| + 1, calls, Ok(e.result))],
                  tried + [(e.tokenPair, e.swapAmount)]) {
      var called := steps + [Performed(|swaps| + 1, calls, Ok(e.result))];
      TallyAfterSuccess(reg, n, steps, swaps, tried, e, calls);
      if |swaps| < n - 1 {
        LinkedAfterPause(kind, wallet, chains, clock, called, tried + [(e.tokenPair, e.swapAmount)]);
      }
    }
  }


  /** One iteration of the repetition loop: swap `|swaps| + 1` against
      `chains(|swaps|)`, and its pause when more follow. */
  method SwapStep(kind: DexKind, reg: Registry, rng: Stream, pos: nat, wallet: string,
                  chains: nat -> SwapChain, clock: nat -> nat, n: nat,
                  steps: seq<Step<SwapResult>>, swaps: seq<SwapExecution>, tried: seq<(SwapPair, nat)>)
    returns (steps': seq<Step<SwapResult>>, swaps': seq<SwapExecution>, tried': seq<(SwapPair, nat)>,
             failure: Option<string>, next: nat)
    requires Fair(rng, |reg|)
    requires Progress(kind, reg, wallet, chains, clock, n, steps, swaps, tried) && |swaps| < n
    ensures failure.None? ==>
              Progress(kind, reg, wallet, chains, clock, n, steps', swaps', tried') && |swaps'| == |swaps| + 1
    ensures failure.Some? ==>
              swaps' == swaps && Failed(kind, reg, wallet, chains, clock, n, steps', swaps', tried', failure.value)
  {
    var i := |swaps|;
    var e, outcome, calls;
    e, outcome, calls, next := SwapOnce(kind, reg, rng, pos, wallet, chains(i), clock(i), i + 1);
    steps' := steps + [Performed(i + 1, calls, outcome)];
    tried' := tried + [(e.tokenPair, e.swapAmount)];
    LinkedAfterCall(kind, wallet, chains, clock, steps, tried, (e.tokenPair, e.swapAmount), calls, outcome);
    if outcome.Err? {
      FailedStep(kind, reg, wallet, chains, clock, n, steps, swaps, tried, (e.tokenPair, e.swapAmount), calls, outcome);
      return steps', swaps, tried', Some(outcome.error), next;
    }
    SucceededStep(kind, reg, wallet, chains, clock, n, steps, swaps, tried, e, calls);
    var called := steps + [Performed(|swaps| + 1, calls, Ok(e.result))];
    steps' := if |swaps| < n - 1 then called + [Paused(PauseMs)] else called;
    swaps' := swaps + [e];
    failure := None;
  }

  /** The repetition loop of `performAction` on an initialised DEX. */
  method RunSwaps(kind: DexKind, reg: Registry, rng: Stream, pos: nat, wallet: string,
                  chains: nat -> SwapChain, clock: nat -> nat, n: nat)
    returns (swaps: seq<SwapExecution>, failure: Option<string>, steps: seq<Step<SwapResult>>,
             tried: seq<(SwapPair, nat)>, next: nat)
    requires Fair(rng, |reg|)
    ensures Alternating(steps)
    ensures failure.None? ==> Completed(reg, steps, swaps, n)
    ensures failure.Some? ==> Aborted(steps, failure.value, n)
    ensures Linked(kind, wallet, chains, clock, steps, tried) && |tried| == (|steps| + 1) / 2
    ensures |swaps| <= |tried|
    ensures forall k :: 0 <= k < |swaps| ==> swaps[k].tokenPair == tried[k].0 && swaps[k].swapAmount == tried[k].1
    ensures forall k :: 0 <= k < |tried| ==>
              ValidSwapPair(reg, tried[k].0) && SwapMinAmount <= tried[k].1 < SwapMaxAmount
    ensures failure.None? ==> |tried| == n
    ensures failure.Some? ==>
              |tried| == |swaps| + 1 &&
              SwapOutcome(kind, tried[|swaps|].0, tried[|swaps|].1, chains(|swaps|)) == Err(failure.value)
    ensures (forall k :: 0 <= k < n ==> AcceptsAnySwap(kind, chains(k))) ==> failure.None?
  {
    next := pos;
    steps, swaps, tried := [], [], [];
    while |swaps| < n
      invariant Progress(kind, reg, wallet, chains, clock, n, steps, swaps, tried)
      decreases n - |swaps|
    {
      steps, swaps, tried, failure, next := SwapStep(kind, reg, rng, next, wallet, chains, clock, n, steps, swaps, tried);
      if failure.Some? {
        return;
      }
    }
    failure := None;
  }

  class SwapFeature {
    const featureName: string := SwapFeatureName
    var dexType: string
    var dex: Option<DexKind>
    var executionCount: int
    /** How many times the factory has been asked for a DEX. */
    ghost var creations: nat

    constructor(dexType: string, executionCount: int)
      ensures this.dexType == dexType && this.executionCount == executionCount
      ensures dex == None && creations == 0
    {
      this.dexType := dexType;
      this.executionCount := executionCount;
      dex := None;
      creations := 0;
    }

    /** `initializeDex`: creates the DEX from the tag only when none is held;
        a held DEX is reused without asking the factory. */
    method InitializeDex() returns (r: Outcome<DexKind>)
      modifies this
      ensures dexType == old(dexType) && executionCount == old(executionCount)
      ensures old(dex).Some? ==> r == Ok(old(dex).value) && dex == old(dex) && creations == old(creations)
      ensures old(dex).None? ==>
                && r == CreateDexInstance(dexType)
                && dex == (if r.Ok? then Some(r.value) else None)
                && creations == old(creations) + 1
    {
      if dex.None? {
        creations := creations + 1;
        var created := CreateDexInstance(dexType);
        if created.Ok? {
          dex := Some(created.value);
        }
      }
      r := if dex.Some? then Ok(dex.value) else CreateDexInstance(dexType);
    }

    /** `setDex`: the tag is replaced first, so a tag the factory rejects is
        kept while the previous DEX stays in place and the error propagates. */
    method SetDex(newType: string) returns (r: Outcome<()>)
      modifies this
      ensures dexType == newType && executionCount == old(executionCount)
      ensures creations == old(creations) + 1
      ensures CreateDexInstance(newType).Ok? ==> dex == Some(CreateDexInstance(newType).value) && r == Ok(())
      ensures CreateDexInstance(newType).Err? ==> dex == old(dex) && r == Err(CreateDexInstance(newType).error)
    {
      dexType := newType;
      creations := creations + 1;
      var created := CreateDexInstance(newType);
      if created.Err? {
        return Err(created.error);
      }
      dex := Some(created.value);
      r := Ok(());
    }

    /** `performAction`: after the lazy initialisation, `executionCount` swaps,
        each on a freshly drawn pair and amount, recorded in order with a pause
        after every swap but the last; the first swap that fails ends the run
        with its error. Swap i runs against `chains(i)` at time `clock(i)`, and
        `tried` holds the pair and amount of every swap attempted. */
    method PerformAction(reg: Registry, rng: Stream, pos: nat, wallet: string,
                         chains: nat -> SwapChain, clock: nat -> nat)
      returns (r: Outcome<ActionResult>, steps: seq<Step<SwapResult>>, tried: seq<(SwapPair, nat)>, next: nat)
      requires Fair(rng, |reg|)
      modifies this
      ensures dexType == old(dexType) && executionCount == old(executionCount)
      ensures old(dex).None? && CreateDexInstance(dexType).Err? ==>
                r == Err(CreateDexInstance(dexType).error) && steps == [] && dex == None
      ensures old(dex).Some? || CreateDexInstance(dexType).Ok? ==> dex.Some?
      ensures Alternating(steps)
      ensures r.Ok? ==>
                && r.value.SwapRun?
                && r.value.totalExecutions == executionCount
                && r.value.summary == SwapSummary(executionCount, dexType)
                && Completed(reg, steps, r.value.swaps, Repetitions(executionCount))
      ensures r.Err? && steps != [] ==> Aborted(steps, r.error, Repetitions(executionCount))
      ensures steps == [] <==> tried == []
      ensures tried != [] ==> dex.Some? && Linked(dex.value, wallet, chains, clock, steps, tried)
      ensures r.Ok? ==>
                |r.value.swaps| == |tried| &&
                forall k :: 0 <= k < |r.value.swaps| ==>
                  r.value.swaps[k].tokenPair == tried[k].0 && r.value.swaps[k].swapAmount == tried[k].1
      ensures r.Err? && tried != [] ==>
                var k := |tried| - 1;
                SwapOutcome(dex.value, tried[k].0, tried[k].1, chains(k)) == Err(r.error)
      ensures dex.Some? && (forall k :: 0 <= k < Repetitions(executionCount) ==> AcceptsAnySwap(dex.value, chains(k))) ==>
                r.Ok?
    {
      var kind := InitializeDex();
      if kind.Err? {
        return Err(kind.error), [], [], pos;
      }
      var swaps, failure;
      swaps, failure, steps, tried, next :=
        RunSwaps(kind.value, reg, rng, pos, wallet, chains, clock, Repetitions(executionCount));
      if failure.Some? {
        return Err(failure.value), steps, tried, next;
      }
      r := Ok(SwapRun(executionCount, swaps, SwapSummary(executionCount, dexType)));
    }

    /** `preExecutionChecks`: samples a pair and an amount per repetition and
        stops at the first whose input-token balance is below the amount;
        `balances` answers the token reads by token address. */
    method PreExecutionChecks(reg: Registry, rng: Stream, pos: nat, balances: string -> Outcome<TokenBalance>)
      returns (r: Outcome<bool>, samples: seq<(SwapPair, nat)>, next: nat)
      requires Fair(rng, |reg|)
      modifies this
      ensures dexType == old(dexType) && executionCount == old(executionCount)
      ensures old(dex).None? && CreateDexInstance(dexType).Err? ==>
                r == Err(CreateDexInstance(dexType).error) && samples == []
      ensures |samples| <= Repetitions(executionCount)
      ensures forall k :: 0 <= k < |samples| ==>
                ValidSwapPair(reg, samples[k].0) && SwapMinAmount <= samples[k].1 < SwapMaxAmount
      ensures r.Ok? ==>
                && r.value
                && |samples| == Repetitions(executionCount)
                && forall k :: 0 <= k < |samples| ==> !BalanceBelow(balances(samples[k].0.tokenInAddress), samples[k].1)
      ensures r.Err? && samples != [] ==>
                var last := samples[|samples| - 1];
                && BalanceBelow(balances(last.0.tokenInAddress), last.1)
                && r.error == SwapShortfall(last.0, last.1, balances(last.0.tokenInAddress))
                && forall k :: 0 <= k < |samples| - 1 ==> !BalanceBelow(balances(samples[k].0.tokenInAddress), samples[k].1)
    {
      var kind := InitializeDex();
      next := pos;
      samples := [];
      if kind.Err? {
        return Err(kind.error), samples, next;
      }
      var n := Repetitions(executionCount);
      var i := 0;
      while i < n
        invariant 0 <= i <= n && |samples| == i
        invariant dexType == old(dexType) && executionCount == old(executionCount)
        invariant forall k :: 0 <= k < i ==>
                    ValidSwapPair(reg, samples[k].0) && SwapMinAmount <= samples[k].1 < SwapMaxAmount
        invariant forall k :: 0 <= k < i ==> !BalanceBelow(balances(samples[k].0.tokenInAddress), samples[k].1)
      {
        var pair, amount;
        pair, amount, next := DrawSwap(reg, rng, next);
        samples := samples + [(pair, amount)];
        var read := balances(pair.tokenInAddress);
        if BalanceBelow(read, amount) {
          return Err(SwapShortfall(pair, amount, read)), samples, next;
        }
        i := i + 1;
      }
      r := Ok(true);
    }
  }
}
