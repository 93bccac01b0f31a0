/** The add-liquidity feature: a DEX created lazily from its tag, a run of
    `executionCount` additions on canonically ordered pairs with two
    independently drawn amounts each, and the two-token balance preflight. */
module LiquidityFeatures {
  import opened Outcomes
  import opened Text
  import opened Random
  import opened Dex
  import opened DexActions
  import opened Feature
  import Config

  const LiquidityFeatureName: string := "Add Liquidity"

  /** The default bounds of a liquidity amount, 0.001 and 0.01 tokens, in
      10^-18 units. */
  const LiquidityMinAmount: nat := 1_000_000_000_000_000
  const LiquidityMaxAmount: nat := 10_000_000_000_000_000

  function LiquiditySummary(count: int, dexType: string): string
  {
    "Completed " + IntToString(count) + " liquidity addition(s) on " + ToUpper(dexType) + " DEX"
  }

  /** The preflight's error for a token whose balance is below its amount. */
  function LiquidityShortfall(name: string, read: Outcome<TokenBalance>, amount: nat): string
  {
    name + " balance not enough for liquidity. Balance: " + BalanceShown(read)
    + ", Required: " + DecimalText(amount, Config.TokenDecimals)
  }

  /** One sample: the ordered pair from the draws starting at `pos`, then the
      two amounts from the next two draws. */
  method DrawAddition(reg: Registry, rng: Stream, pos: nat)
    returns (pair: LiquidityPair, amount0: nat, amount1: nat, next: nat)
    requires Fair(rng, |reg|)
    ensures next > pos + 3
    ensures ValidLiquidityPair(reg, pair)
    ensures pair == OrderForLiquidity(reg[Index(rng(pos), |reg|)], reg[Index(rng(next - 3), |reg|)])
    ensures amount0 == RandomAmount(rng(next - 2), LiquidityMinAmount, LiquidityMaxAmount)
    ensures amount1 == RandomAmount(rng(next - 1), LiquidityMinAmount, LiquidityMaxAmount)
    ensures LiquidityMinAmount <= amount0 < LiquidityMaxAmount && LiquidityMinAmount <= amount1 < LiquidityMaxAmount
  {
    var p;
    pair, p := GetRandomTokenPairForLiquidity(reg, rng, pos);
    amount0 := RandomAmount(rng(p), LiquidityMinAmount, LiquidityMaxAmount);
    amount1 := RandomAmount(rng(p + 1), LiquidityMinAmount, LiquidityMaxAmount);
    next := p + 2;
  }

  /** An addition of a run is well formed: numbered, a valid canonically ordered
      pair, both amounts within the default bounds, and a result naming the
      pair's two tokens. */
  predicate GoodAddition(reg: Registry, e: LiquidityExecution, number: nat)
  {
    && e.executionNumber == number
    && ValidLiquidityPair(reg, e.tokenPair)
    && LiquidityMinAmount <= e.amount0 < LiquidityMaxAmount
    && LiquidityMinAmount <= e.amount1 < LiquidityMaxAmount
    && {e.result.token0, e.result.token1} == {e.tokenPair.token0Name, e.tokenPair.token1Name}
  }

  /** The steps hold the additions in order: call k succeeded with addition k's
      result. */
  predicate Recorded(steps: seq<Step<LiquidityResult>>, additions: seq<LiquidityExecution>)
  {
    && |steps| >= 2 * |additions| - 1
    && forall k :: 0 <= k < |additions| ==>
         steps[2 * k].Performed? && steps[2 * k].outcome == Ok(additions[k].result)
  }

  /** A completed run of n: n well-formed additions in order, with the n - 1
      pauses between them. */
  predicate Completed(reg: Registry, steps: seq<Step<LiquidityResult>>, additions: seq<LiquidityExecution>, n: nat)
  {
    && |additions| == n
    && |steps| == CompletedLength(n)
    && Recorded(steps, additions)
    && forall k :: 0 <= k < n ==> GoodAddition(reg, additions[k], k + 1)
  }

  /** A sample of one addition: the ordered pair and its two amounts. */
  type Sample = (LiquidityPair, nat, nat)

  /** Every exchange call of the run is the exchange's `performAddLiquidity`
      on its sample: step 2k holds what that call returns and calls for
      addition k + 1 on `tried[k]`, against `chains(k)` at time `clock(k)`. */
  predicate Linked(kind: DexKind, wallet: string, chains: nat -> LiquidityChain, clock: nat -> nat,
                   steps: seq<Step<LiquidityResult>>, tried: seq<Sample>)
  {
    && |steps| >= 2 * |tried| - 1
    && forall k :: 0 <= k < |tried| ==>
         && steps[2 * k].Performed?
         && steps[2 * k].outcome == AdditionOutcome(kind, tried[k].0, tried[k].1, tried[k].2, chains(k))
         && steps[2 * k].calls == AdditionCalls(kind, tried[k].0, tried[k].1, tried[k].2, wallet, clock(k), chains(k))
  }

  /** A chain on which every addition of the default bounds goes through: an
      exchange instance, both allowances covering the largest amount, and a
      mint receipt with status 1. */
  predicate AcceptsAnyAddition(kind: DexKind, chain: LiquidityChain)
  {
    && !kind.BaseDex?
    && chain.token0.read.Ok? && chain.token0.read.value >= LiquidityMaxAmount
    && chain.token1.read.Ok? && chain.token1.read.value >= LiquidityMaxAmount
    && chain.submit.Ok? && chain.confirm.Ok? && chain.confirm.value.status == 1
  }

  /** On such a chain an addition within the bounds succeeds, on either
      exchange and whichever way Jaine orders the legs. */
  lemma AcceptedAdditionSucceeds(kind: DexKind, pair: LiquidityPair, amount0: nat, amount1: nat,
                                 chain: LiquidityChain)
    requires AcceptsAnyAddition(kind, chain) && amount0 < LiquidityMaxAmount && amount1 < LiquidityMaxAmount
    ensures AdditionOutcome(kind, pair, amount0, amount1, chain).Ok?
  {
    if kind == JaineDex {
      var legs := JaineLegs(pair, amount0, amount1);
      assert legs.0.amount < LiquidityMaxAmount && legs.1.amount < LiquidityMaxAmount;
      assert Covers(chain.token0, legs.0.amount) && Covers(chain.token1, legs.1.amount);
    }
  }

  lemma LinkedAfterCall(kind: DexKind, wallet: string, chains: nat -> LiquidityChain, clock: nat -> nat,
                        before: seq<Step<LiquidityResult>>, tried: seq<Sample>, sample: Sample,
                        calls: seq<Call>, outcome: Outcome<LiquidityResult>)
    requires Linked(kind, wallet, chains, clock, before, tried) && |before| == 2 * |tried|
    requires outcome == AdditionOutcome(kind, sample.0, sample.1, sample.2, chains(|tried|))
    requires calls == AdditionCalls(kind, sample.0, sample.1, sample.2, wallet, clock(|tried|), chains(|tried|))
    ensures Linked(kind, wallet, chains, clock, before + [Performed(|tried| + 1, calls, outcome)], tried + [sample])
  {
    var steps := before + [Performed(|tried| + 1, calls, outcome)];
    var t := tried + [sample];
    forall k | 0 <= k < |t|
      ensures && steps[2 * k].Performed?
              && steps[2 * k].outcome == AdditionOutcome(kind, t[k].0, t[k].1, t[k].2, chains(k))
              && steps[2 * k].calls == AdditionCalls(kind, t[k].0, t[k].1, t[k].2, wallet, clock(k), chains(k))
    {
      if k < |tried| {
        assert steps[2 * k] == before[2 * k];
      }
    }
  }

  lemma LinkedAfterPause(kind: DexKind, wallet: string, chains: nat -> LiquidityChain, clock: nat -> nat,
                         steps: seq<Step<LiquidityResult>>, tried: seq<Sample>)
    requires Linked(kind, wallet, chains, clock, steps, tried)
    ensures Linked(kind, wallet, chains, clock, steps + [Paused(PauseMs)], tried)
  {
    var s := steps + [Paused(PauseMs)];
    forall k | 0 <= k < |tried|
      ensures && s[2 * k].Performed?
              && s[2 * k].outcome == AdditionOutcome(kind, tried[k].0, tried[k].1, tried[k].2, chains(k))
              && s[2 * k].calls == AdditionCalls(kind, tried[k].0, tried[k].1, tried[k].2, wallet, clock(k), chains(k))
    {
      assert s[2 * k] == steps[2 * k];
    }
  }

  /** A successful call recorded after the first |additions| extends the record. */
  lemma RecordedAfterCall(before: seq<Step<LiquidityResult>>, additions: seq<LiquidityExecution>, calls: seq<Call>, e: LiquidityExecution)
    requires Recorded(before, additions) && |before| == 2 * |additions|
    ensures Recorded(before + [Performed(|additions| + 1, calls, Ok(e.result))], additions + [e])
  {
    var steps := before + [Performed(|additions| + 1, calls, Ok(e.result))];
    forall k | 0 <= k < |additions| + 1
      ensures steps[2 * k].Performed? && steps[2 * k].outcome == Ok((additions + [e])[k].result)
    {
      if k < |additions| {
        assert steps[2 * k] == before[2 * k];
      }
    }
  }

  /** A pause keeps the record. */
  lemma RecordedAfterPause(steps: seq<Step<LiquidityResult>>, additions: seq<LiquidityExecution>)
    requires Recorded(steps, additions)
    ensures Recorded(steps + [Paused(PauseMs)], additions)
  {
    var s := steps + [Paused(PauseMs)];
    forall k | 0 <= k < |additions|
      ensures s[2 * k].Performed? && s[2 * k].outcome == Ok(additions[k].result)
    {
      assert s[2 * k] == steps[2 * k];
    }
  }

  /** A failing call after the first |additions| aborts a run of more. */
  lemma FailedAfterRecorded(before: seq<Step<LiquidityResult>>, additions: seq<LiquidityExecution>, calls: seq<Call>, error: string, n: nat)
    requires Recorded(before, additions) && |before| == 2 * |additions| && |additions| < n
    ensures Aborted(before + [Performed(|additions| + 1, calls, Err(error))], error, n)
  {
    AbortedAfter(before, |additions|, n, calls, error);
  }

  /** One addition of the run: a pair and two amounts drawn from `pos` on,
      then the exchange's `performAddLiquidity` on them, whose result the
      execution records. */
  method AddOnce(kind: DexKind, reg: Registry, rng: Stream, pos: nat, wallet: string, chain: LiquidityChain,
                 nowMs: nat, number: nat)
    returns (e: LiquidityExecution, outcome: Outcome<LiquidityResult>, calls: seq<Call>, next: nat)
    requires Fair(rng, |reg|)
    ensures next > pos + 3 && e.executionNumber == number
    ensures ValidLiquidityPair(reg, e.tokenPair)
    ensures e.tokenPair == OrderForLiquidity(reg[Index(rng(pos), |reg|)], reg[Index(rng(next - 3), |reg|)])
    ensures e.amount0 == RandomAmount(rng(next - 2), LiquidityMinAmount, LiquidityMaxAmount)
    ensures e.amount1 == RandomAmount(rng(next - 1), LiquidityMinAmount, LiquidityMaxAmount)
    ensures LiquidityMinAmount <= e.amount0 < LiquidityMaxAmount && LiquidityMinAmount <= e.amount1 < LiquidityMaxAmount
    ensures outcome == AdditionOutcome(kind, e.tokenPair, e.amount0, e.amount1, chain)
    ensures calls == AdditionCalls(kind, e.tokenPair, e.amount0, e.amount1, wallet, nowMs, chain)
    ensures outcome.Ok? ==> GoodAddition(reg, e, number) && e.result == outcome.value
  {
    var pair, amount0, amount1;
    pair, amount0, amount1, next := DrawAddition(reg, rng, pos);
    outcome, calls := DexActions.PerformAddLiquidity(kind, pair, amount0, amount1, wallet, nowMs, chain);
    var placeholder := LiquidityResult("", "", "", "", "", "", "", Receipt(0, []));
    e := LiquidityExecution(number, pair, amount0, amount1, if outcome.Ok? then outcome.value else placeholder);
  }

  /** The bookkeeping of a run after `|additions|` successful additions of n,
      each followed by its pause unless it is the last: every addition
      recorded, well formed and sampled as `tried` says. */
  predicate Tally(reg: Registry, n: nat, steps: seq<Step<LiquidityResult>>, additions: seq<LiquidityExecution>,
                  tried: seq<Sample>)
  {
    var i := |additions|;
    && i <= n && |tried| == i
    && Alternating(steps)
    && |steps| == (if i == 0 then 0 else if i < n then 2 * i else 2 * i - 1)
    && Recorded(steps, additions)
    && (forall k :: 0 <= k < i ==> GoodAddition(reg, additions[k], k + 1))
    && (forall k :: 0 <= k < i ==> Sampled(additions[k], tried[k]))
  }

  /** The sample an addition was made on. */
  predicate Sampled(e: LiquidityExecution, s: Sample)
  {
    e.tokenPair == s.0 && e.amount0 == s.1 && e.amount1 == s.2
  }

  /** The run after `|additions|` successful additions of n: its bookkeeping,
      and every addition linked to its exchange call. */
  predicate Progress(kind: DexKind, reg: Registry, wallet: string, chains: nat -> LiquidityChain, clock: nat -> nat,
                     n: nat, steps: seq<Step<LiquidityResult>>, additions: seq<LiquidityExecution>,
                     tried: seq<Sample>)
  {
    Tally(reg, n, steps, additions, tried) && Linked(kind, wallet, chains, clock, steps, tried)
  }

  /** The run after `|additions|` successful additions and a failing one:
      aborted with the exchange's error on the failing addition's sample,
      which is well formed, on a chain that does not accept every addition. */
  predicate Failed(kind: DexKind, reg: Registry, wallet: string, chains: nat -> LiquidityChain, clock: nat -> nat,
                   n: nat, steps: seq<Step<LiquidityResult>>, additions: seq<LiquidityExecution>,
                   tried: seq<Sample>, error: string)
  {
    var i := |additions|;
    && i < n && |tried| == i + 1
    && Alternating(steps) && Aborted(steps, error, n) && |steps| == 2 * i + 1
    && Linked(kind, wallet, chains, clock, steps, tried)
    && (forall k :: 0 <= k < i ==> GoodAddition(reg, additions[k], k + 1))
    && (forall k :: 0 <= k < i ==> Sampled(additions[k], tried[k]))
    && ValidLiquidityPair(reg, tried[i].0)
    && LiquidityMinAmount <= tried[i].1 < LiquidityMaxAmount && LiquidityMinAmount <= tried[i].2 < LiquidityMaxAmount
    && AdditionOutcome(kind, tried[i].0, tried[i].1, tried[i].2, chains(i)) == Err(error)
    && !AcceptsAnyAddition(kind, chains(i))
  }

  /** A successful call, and its pause when more follow, extend the bookkeeping. */
  lemma TallyAfterSuccess(reg: Registry, n: nat, steps: seq<Step<LiquidityResult>>,
                          additions: seq<LiquidityExecution>, tried: seq<Sample>, e: LiquidityExecution,
                          calls: seq<Call>)
    requires Tally(reg, n, steps, additions, tried) && |additions| < n
    requires GoodAddition(reg, e, |additions| + 1)
    ensures var called := steps + [Performed(|additions| + 1, calls, Ok(e.result))];
            Tally(reg, n, if |additions| < n - 1 then called + [Paused(PauseMs)] else called,
                  additions + [e], tried + [(e.tokenPair, e.amount0, e.amount1)])
  {
    var i := |additions|;
    assert |steps| == 2 * i;
    var called := steps + [Performed(i + 1, calls, Ok(e.result))];
    AppendPerformed(steps, i, calls, Ok(e.result));
    RecordedAfterCall(steps, additions, calls, e);
    var ad := additions + [e];
    var t := tried + [(e.tokenPair, e.amount0, e.amount1)];
    forall k | 0 <= k < i + 1
      ensures GoodAddition(reg, ad[k], k + 1) && Sampled(ad[k], t[k])
    {
      if k < i {
        assert ad[k] == additions[k] && t[k] == tried[k];
      }
    }
    if i < n - 1 {
      AppendPaused(called, i);
      RecordedAfterPause(called, ad);
    }
  }

  /** A failing exchange call, already linked, after the successful ones
      aborts the run. */
  lemma FailedStep(kind: DexKind, reg: Registry, wallet: string, chains: nat -> LiquidityChain, clock: nat -> nat,
                   n: nat, steps: seq<Step<LiquidityResult>>, additions: seq<LiquidityExecution>,
                   tried: seq<Sample>, sample: Sample, calls: seq<Call>, outcome: Outcome<LiquidityResult>)
    ensures (&& Tally(reg, n, steps, additions, tried) && |additions| < n
            && ValidLiquidityPair(reg, sample.0)
            && LiquidityMinAmount <= sample.1 < LiquidityMaxAmount && LiquidityMinAmount <= sample.2 < LiquidityMaxAmount
            && outcome == AdditionOutcome(kind, sample.0, sample.1, sample.2, chains(|additions|))
            && outcome.Err?
            && Linked(kind, wallet, chains, clock, steps + [Performed(|additions| + 1, calls, outcome)],
                       tried + [sample]))
            ==> Failed(kind, reg, wallet, chains, clock, n, steps + [Performed(|additions| + 1, calls, outcome)],
                       additions, tried + [sample], outcome.error)
  {
    if Tally(reg, n, steps, additions, tried) && |additions| < n
       && ValidLiquidityPair(reg, sample.0)
       && LiquidityMinAmount <= sample.1 < LiquidityMaxAmount && LiquidityMinAmount <= sample.2 < LiquidityMaxAmount
       && outcome == AdditionOutcome(kind, sample.0, sample.1, sample.2, chains(|additions|))
       && outcome.Err?
       && Linked(kind, wallet, chains, clock, steps + [Performed(|additions| + 1, calls, outcome)],
                  tried + [sample]) {
      var i := |additions|;
      assert |steps| == 2 * i;
      AppendPerformed(steps, i, calls, outcome);
      FailedAfterRecorded(steps, additions, calls, outcome.error, n);
      if AcceptsAnyAddition(kind, chains(i)) {
        AcceptedAdditionSucceeds(kind, sample.0, sample.1, sample.2, chains(i));
        assert false;
      }
      var t := tried + [sample];
      forall k | 0 <= k < i
        ensures Sampled(additions[k], t[k])
      {
        assert t[k] == tried[k];
      }
    }
  }


  /** A successful exchange call, already linked, and its pause when more
      follow extend the run by one addition. */
  lemma SucceededStep(kind: DexKind, reg: Registry, wallet: string, chains: nat -> LiquidityChain,
                      clock: nat -> nat, n: nat, steps: seq<Step<LiquidityResult>>,
                      additions: seq<LiquidityExecution>, tried: seq<Sample>, e: LiquidityExecution,
                      calls: seq<Call>, outcome: Outcome<LiquidityResult>)
    ensures var called := steps + [Performed(|additions| + 1, calls, outcome)];
            var sample := (e.tokenPair, e.amount0, e.amount1);
            (&& Tally(reg, n, steps, additions, tried) && |additions| < n
             && GoodAddition(reg, e, |additions| + 1) && outcome == Ok(e.result)
             && Linked(kind, wallet, chains, clock, called, tried + [sample]))
            ==> Progress(kind, reg, wallet, chains, clock, n,
                         if |additions| < n - 1 then called + [Paused(PauseMs)] else called,
                         additions + [e], tried + [sample])
  {
    var called := steps + [Performed(|additions| + 1, calls, outcome)];
    var sample := (e.tokenPair, e.amount0, e.amount1);
    if && Tally(reg, n, steps, additions, tried) && |additions| < n
       && GoodAddition(reg, e, |additions| + 1) && outcome == Ok(e.result)
       && Linked(kind, wallet, chains, clock, called, tried + [sample]) {
      TallyAfterSuccess(reg, n, steps, additions, tried, e, calls);
      if |additions| < n - 1 {
        LinkedAfterPause(kind, wallet, chains, clock, called, tried + [sample]);
      }
    }
  }


  /** One iteration of the repetition loop: addition `|additions| + 1`
      against `chains(|additions|)`, and its pause when more follow. */
  method AddStep(kind: DexKind, reg: Registry, rng: Stream, pos: nat, wallet: string,
                 chains: nat -> LiquidityChain, clock: nat -> nat, n: nat,
                 steps: seq<Step<LiquidityResult>>, additions: seq<LiquidityExecution>, tried: seq<Sample>)
    returns (steps': seq<Step<LiquidityResult>>, additions': seq<LiquidityExecution>, tried': seq<Sample>,
             failure: Option<string>, next: nat)
    requires Fair(rng, |reg|)
    requires Progress(kind, reg, wallet, chains, clock, n, steps, additions, tried) && |additions| < n
    ensures failure.None? ==>
              Progress(kind, reg, wallet, chains, clock, n, steps', additions', tried') &&
              |additions'| == |additions| + 1
    ensures failure.Some? ==>
              additions' == additions &&
              Failed(kind, reg, wallet, chains, clock, n, steps', additions', tried', failure.value)
  {
    var i := |additions|;
    var e, outcome, calls;
    e, outcome, calls, next := AddOnce(kind, reg, rng, pos, wallet, chains(i), clock(i), i + 1);
    var sample := (e.tokenPair, e.amount0, e.amount1);
    steps' := steps + [Performed(i + 1, calls, outcome)];
    tried' := tried + [sample];
    LinkedAfterCall(kind, wallet, chains, clock, steps, tried, sample, calls, outcome);
    if outcome.Err? {
      FailedStep(kind, reg, wallet, chains, clock, n, steps, additions, tried, sample, calls, outcome);
      additions', failure := additions, Some(outcome.error);
    } else {
      SucceededStep(kind, reg, wallet, chains, clock, n, steps, additions, tried, e, calls, outcome);
      steps' := if i < n - 1 then steps' + [Paused(PauseMs)] else steps';
      additions', failure := additions + [e], None;
    }
  }

  /** The repetition loop of `performAction` on an initialised DEX. */
  method RunAdditions(kind: DexKind, reg: Registry, rng: Stream, pos: nat, wallet: string,
                      chains: nat -> LiquidityChain, clock: nat -> nat, n: nat)
    returns (additions: seq<LiquidityExecution>, failure: Option<string>, steps: seq<Step<LiquidityResult>>,
             tried: seq<Sample>, next: nat)
    requires Fair(rng, |reg|)
    ensures Alternating(steps)
    ensures failure.None? ==> Completed(reg, steps, additions, n)
    ensures failure.Some? ==> Aborted(steps, failure.value, n)
    ensures Linked(kind, wallet, chains, clock, steps, tried) && |tried| == (|steps| + 1) / 2
    ensures |additions| <= |tried|
    ensures forall k :: 0 <= k < |additions| ==> Sampled(additions[k], tried[k])
    ensures forall k :: 0 <= k < |tried| ==>
              && ValidLiquidityPair(reg, tried[k].0)
              && LiquidityMinAmount <= tried[k].1 < LiquidityMaxAmount
              && LiquidityMinAmount <= tried[k].2 < LiquidityMaxAmount
    ensures failure.None? ==> |tried| == n
    ensures failure.Some? ==>
              && |tried| == |additions| + 1
              && var k := |additions|;
                 AdditionOutcome(kind, tried[k].0, tried[k].1, tried[k].2, chains(k)) == Err(failure.value)
    ensures (forall k :: 0 <= k < n ==> AcceptsAnyAddition(kind, chains(k))) ==> failure.None?
  {
    next := pos;
    steps, additions, tried := [], [], [];
    while |additions| < n
      invariant Progress(kind, reg, wallet, chains, clock, n, steps, additions, tried)
      decreases n - |additions|
    {
      steps, additions, tried, failure, next :=
        AddStep(kind, reg, rng, next, wallet, chains, clock, n, steps, additions, tried);
      if failure.Some? {
        return;
      }
    }
    failure := None;
  }

  /** A sample passes the preflight when neither token is short. */
  predicate Covered(balances: string -> Outcome<TokenBalance>, s: (LiquidityPair, nat, nat))
  {
    !BalanceBelow(balances(s.0.token0Address), s.1) && !BalanceBelow(balances(s.0.token1Address), s.2)
  }

  /** The error a failing sample gives: token0's shortfall when it is short,
      token1's otherwise. */
  function SampleShortfall(balances: string -> Outcome<TokenBalance>, s: (LiquidityPair, nat, nat)): string
  {
    var read0, read1 := balances(s.0.token0Address), balances(s.0.token1Address);
    if BalanceBelow(read0, s.1) then LiquidityShortfall(s.0.token0Name, read0, s.1)
    else LiquidityShortfall(s.0.token1Name, read1, s.2)
  }

  class AddLiquidityFeature {
    const featureName: string := LiquidityFeatureName
    var dexType: string
    var dex: Option<DexKind>
    var executionCount: int
    /** How many times the factory has been asked for a DEX. */
    ghost var creations: nat

    constructor(dexType: string, executionCount: int)
      ensures this.dexType == dexType && this.executionCount == executionCount
      ensures dex == None && creations == 0
    {
      this.dexType := dexType;
      this.executionCount := executionCount;
      dex := None;
      creations := 0;
    }

    /** `initializeDex`: creates the DEX from the tag only when none is held;
        a held DEX is reused without asking the factory. */
    method InitializeDex() returns (r: Outcome<DexKind>)
      modifies this
      ensures dexType == old(dexType) && executionCount == old(executionCount)
      ensures old(dex).Some? ==> r == Ok(old(dex).value) && dex == old(dex) && creations == old(creations)
      ensures old(dex).None? ==>
                && r == CreateDexInstance(dexType)
                && dex == (if r.Ok? then Some(r.value) else None)
                && creations == old(creations) + 1
    {
      if dex.None? {
        creations := creations + 1;
        var created := CreateDexInstance(dexType);
        if created.Ok? {
          dex := Some(created.value);
        }
      }
      r := if dex.Some? then Ok(dex.value) else CreateDexInstance(dexType);
    }

    /** `setDex`: the tag is replaced first, so a tag the factory rejects is
        kept while the previous DEX stays in place and the error propagates. */
    method SetDex(newType: string) returns (r: Outcome<()>)
      modifies this
      ensures dexType == newType && executionCount == old(executionCount)
      ensures creations == old(creations) + 1
      ensures CreateDexInstance(newType).Ok? ==> dex == Some(CreateDexInstance(newType).value) && r == Ok(())
      ensures CreateDexInstance(newType).Err? ==> dex == old(dex) && r == Err(CreateDexInstance(newType).error)
    {
      dexType := newType;
      creations := creations + 1;
      var created := CreateDexInstance(newType);
      if created.Err? {
        return Err(created.error);
      }
      dex := Some(created.value);
      r := Ok(());
    }

    /** `performAction`: after the lazy initialisation, `executionCount`
        additions, each on a freshly drawn ordered pair with two fresh amounts,
        recorded in order with a pause after every addition but the last; the
        first that fails ends the run with its error. Addition i runs against
        `chains(i)` at time `clock(i)`. */
    method PerformAction(reg: Registry, rng: Stream, pos: nat, wallet: string,
                         chains: nat -> LiquidityChain, clock: nat -> nat)
      returns (r: Outcome<ActionResult>, steps: seq<Step<LiquidityResult>>, tried: seq<Sample>, next: nat)
      requires Fair(rng, |reg|)
      modifies this
      ensures dexType == old(dexType) && executionCount == old(executionCount)
      ensures old(dex).None? && CreateDexInstance(dexType).Err? ==>
                r == Err(CreateDexInstance(dexType).error) && steps == [] && dex == None
      ensures old(dex).Some? || CreateDexInstance(dexType).Ok? ==> dex.Some?
      ensures Alternating(steps)
      ensures r.Ok? ==>
                && r.value.LiquidityRun?
                && r.value.totalExecutions == executionCount
                && r.value.summary == LiquiditySummary(executionCount, dexType)
                && Completed(reg, steps, r.value.additions, Repetitions(executionCount))
      ensures r.Err? && steps != [] ==> Aborted(steps, r.error, Repetitions(executionCount))
      ensures steps == [] <==> tried == []
      ensures tried != [] ==> dex.Some? && Linked(dex.value, wallet, chains, clock, steps, tried)
      ensures r.Ok? ==>
                |r.value.additions| == |tried| &&
                forall k :: 0 <= k < |r.value.additions| ==> Sampled(r.value.additions[k], tried[k])
      ensures r.Err? && tried != [] ==>
                var k := |tried| - 1;
                AdditionOutcome(dex.value, tried[k].0, tried[k].1, tried[k].2, chains(k)) == Err(r.error)
      ensures dex.Some? &&
              (forall k :: 0 <= k < Repetitions(executionCount) ==> AcceptsAnyAddition(dex.value, chains(k))) ==>
                r.Ok?
    {
      var kind := InitializeDex();
      if kind.Err? {
        return Err(kind.error), [], [], pos;
      }
      var additions, failure;
      additions, failure, steps, tried, next :=
        RunAdditions(kind.value, reg, rng, pos, wallet, chains, clock, Repetitions(executionCount));
      if failure.Some? {
        return Err(failure.value), steps, tried, next;
      }
      r := Ok(LiquidityRun(executionCount, additions, LiquiditySummary(executionCount, dexType)));
    }

    /** `preExecutionChecks`: samples an ordered pair and two amounts per
        repetition, checks token0 and then token1, and stops at the first
        shortfall, naming that token; `balances` answers the token reads by
        token address. */
    method PreExecutionChecks(reg: Registry, rng: Stream, pos: nat, balances: string -> Outcome<TokenBalance>)
      returns (r: Outcome<bool>, samples: seq<(LiquidityPair, nat, nat)>, next: nat)
      requires Fair(rng, |reg|)
      modifies this
      ensures dexType == old(dexType) && executionCount == old(executionCount)
      ensures old(dex).None? && CreateDexInstance(dexType).Err? ==>
                r == Err(CreateDexInstance(dexType).error) && samples == []
      ensures |samples| <= Repetitions(executionCount)
      ensures forall k :: 0 <= k < |samples| ==> ValidLiquidityPair(reg, samples[k].0)
      ensures r.Ok? ==>
                && r.value
                && |samples| == Repetitions(executionCount)
                && forall k :: 0 <= k < |samples| ==> Covered(balances, samples[k])
      ensures r.Err? && samples != [] ==>
                && !Covered(balances, samples[|samples| - 1])
                && r.error == SampleShortfall(balances, samples[|samples| - 1])
                && forall k :: 0 <= k < |samples| - 1 ==> Covered(balances, samples[k])
    {
      var kind := InitializeDex();
      next := pos;
      samples := [];
      if kind.Err? {
        return Err(kind.error), samples, next;
      }
      var n := Repetitions(executionCount);
      var i := 0;
      while i < n
        invariant 0 <= i <= n && |samples| == i
        invariant dexType == old(dexType) && executionCount == old(executionCount)
        invariant forall k :: 0 <= k < i ==> ValidLiquidityPair(reg, samples[k].0)
        invariant forall k :: 0 <= k < i ==> Covered(balances, samples[k])
      {
        var pair, amount0, amount1;
        pair, amount0, amount1, next := DrawAddition(reg, rng, next);
        samples := samples + [(pair, amount0, amount1)];
        var read0 := balances(pair.token0Address);
        if BalanceBelow(read0, amount0) {
          return Err(LiquidityShortfall(pair.token0Name, read0, amount0)), samples, next;
        }
        var read1 := balances(pair.token1Address);
        if BalanceBelow(read1, amount1) {
          return Err(LiquidityShortfall(pair.token1Name, read1, amount1)), samples, next;
        }
        i := i + 1;
      }
      r := Ok(true);
    }
  }
}
