/** What the two exchanges do on chain: a swap through the router, and the
    addition of liquidity through the position manager. Every chain call is a
    collaborator whose outcome is given in advance; the calls issued are
    recorded in order. Amounts are in base units (10^-18 of a token). */
module DexActions {
  import opened Outcomes
  import opened Text
  import opened Dex
  import Config

  // ---------------------------------------------------------------------------
  // Chain collaborators

  /** A log `parseLog` could not interpret (it returned null or threw), or an
      event it decoded, with the arguments of an `IncreaseLiquidity` event. */
  datatype Log = Unparsable | Parsed(name: string, args: LiquidityEvent)

  datatype LiquidityEvent = LiquidityEvent(tokenId: nat, liquidity: nat, amount0: nat, amount1: nat)

  /** A transaction receipt: its status (1 for success) and its logs. */
  datatype Receipt = Receipt(status: int, logs: seq<Log>)

  /** The parameters of the router's `exactInputSingle`. */
  datatype SwapParams = SwapParams(tokenIn: string, tokenOut: string, fee: nat, recipient: string,
                                   deadline: int, amountIn: nat, amountOutMinimum: nat,
                                   sqrtPriceLimitX96: nat)

  /** The parameters of the position manager's `mint`. */
  datatype MintParams = MintParams(token0: string, token1: string, fee: nat, tickLower: int, tickUpper: int,
                                   amount0Desired: nat, amount1Desired: nat, amount0Min: nat,
                                   amount1Min: nat, recipient: string, deadline: int)

  /** A call made on chain, in the order it is issued. */
  datatype Call =
    | ReadAllowance(token: string, owner: string, spender: string)
    | Approve(token: string, spender: string, amount: nat)
    | ExactInputSingle(swap: SwapParams)
    | ReadFactory
    | GetPool(factory: string, tokenA: string, tokenB: string, fee: nat)
    | CreatePool(token0: string, token1: string, fee: nat, sqrtPriceX96: nat)
    | Mint(mint: MintParams)

  /** The outcomes of the allowance calls for one token: the first read, the
      approval (sent and confirmed), and the read after it. */
  datatype AllowanceChain = AllowanceChain(read: Outcome<nat>, approve: Outcome<()>, reread: Outcome<nat>)

  /** The outcomes of the calls a swap makes: the allowance calls, the router
      transaction (its hash) and its receipt. */
  datatype SwapChain = SwapChain(tokenIn: AllowanceChain, submit: Outcome<string>, confirm: Outcome<Receipt>)

  /** The outcomes of the calls an addition of liquidity makes: the allowance
      calls per token, the factory address, the pool lookup, the pool creation,
      the mint transaction (its hash) and its receipt. */
  datatype LiquidityChain = LiquidityChain(token0: AllowanceChain, token1: AllowanceChain,
                                           factory: Outcome<string>, pool: Outcome<string>,
                                           create: Outcome<()>,
                                           submit: Outcome<string>, confirm: Outcome<Receipt>)

  // ---------------------------------------------------------------------------
  // Fixed parameters

  const SwapFee: nat := 500
  const LiquidityFee: nat := 100
  const JaineTickLower: int := -887272
  const JaineTickUpper: int := 887272
  const Zer0TickLower: int := -56040
  const Zer0TickUpper: int := 55454
  const DeadlineSeconds: nat := 600
  const ZeroAddress: string := "0x0000000000000000000000000000000000000000"
  /** `parseUnits('1', 18)`, the initial square-root price of a created pool. */
  const InitialSqrtPrice: nat := 1_000_000_000_000_000_000
  const IncreaseLiquidity: string := "IncreaseLiquidity"

  const ApproveFailed: string := "Approve failed, allowance is still not enough"

  /** `Math.floor(Date.now() / 1000) + 600`. */
  function Deadline(nowMs: nat): (d: int)
    ensures d - DeadlineSeconds <= nowMs / 1000 < d - DeadlineSeconds + 1
  {
    nowMs / 1000 + DeadlineSeconds
  }

  function SwapRevert(k: DexKind): string
  {
    if k == JaineDex then "JaineDEX swap revert, status receipt is not 1"
    else "Swap revert, status receipt is not 1"
  }

  function MintRevert(k: DexKind): string
  {
    if k == JaineDex then "JaineDEX add liquidity revert, status receipt is not 1"
    else "Add liquidity revert, status receipt is not 1"
  }

  // ---------------------------------------------------------------------------
  // Allowance gating

  /** The allowance is below the amount to spend. */
  predicate Short(read: Outcome<nat>, amount: nat)
  {
    read.Ok? && read.value < amount
  }

  /** The calls of one allowance gate: a read, an approval when the allowance
      is short, and, with `recheck`, a second read once the approval succeeds. */
  function GateCalls(token: string, owner: string, spender: string, amount: nat,
                     chain: AllowanceChain, recheck: bool): seq<Call>
  {
    [ReadAllowance(token, owner, spender)]
    + (if Short(chain.read, amount) then [Approve(token, spender, amount)] else [])
    + (if Short(chain.read, amount) && chain.approve.Ok? && recheck
       then [ReadAllowance(token, owner, spender)] else [])
  }

  /** The allowance a gate ends with: the first read, or, after the approval of
      a short one, the re-read when `recheck` is set; otherwise the error of
      the first call that failed. */
  function GateResult(amount: nat, chain: AllowanceChain, recheck: bool): Outcome<nat>
  {
    if chain.read.Err? || !Short(chain.read, amount) then chain.read
    else if chain.approve.Err? then Err(chain.approve.error)
    else if recheck then chain.reread
    else chain.read
  }

  /** Reads the allowance of `spender` over `owner`'s tokens and approves
      `amount` when it is short; with `recheck`, reads it again after the
      approval. Returns the allowance last read, or the error of a failed call. */
  method GateAllowance(token: string, owner: string, spender: string, amount: nat,
                       chain: AllowanceChain, recheck: bool)
    returns (allowance: Outcome<nat>, calls: seq<Call>)
    ensures allowance == GateResult(amount, chain, recheck)
    ensures calls == GateCalls(token, owner, spender, amount, chain, recheck)
    ensures allowance.Ok? <==>
              chain.read.Ok? &&
              (!Short(chain.read, amount) || (chain.approve.Ok? && (!recheck || chain.reread.Ok?)))
    ensures chain.read.Err? ==> allowance == Err(chain.read.error)
    ensures Short(chain.read, amount) && chain.approve.Err? ==> allowance == Err(chain.approve.error)
    ensures Short(chain.read, amount) && chain.approve.Ok? && recheck && chain.reread.Err? ==>
              allowance == Err(chain.reread.error)
    ensures allowance.Ok? ==>
              allowance.value == (if Short(chain.read, amount) && recheck then chain.reread.value
                                  else chain.read.value)
  {
    calls := [ReadAllowance(token, owner, spender)];
    allowance := chain.read;
    if chain.read.Ok? && chain.read.value < amount {
      calls := calls + [Approve(token, spender, amount)];
      if chain.approve.Err? {
        allowance := Err(chain.approve.error);
      } else if recheck {
        calls := calls + [ReadAllowance(token, owner, spender)];
        allowance := chain.reread;
      }
    }
  }

  /** The gate never approves an allowance that already suffices, always
      approves one that is short, and reads again only after an approval. */
  lemma GateApprovesIffShort(token: string, owner: string, spender: string, amount: nat,
                             chain: AllowanceChain, recheck: bool)
    ensures var calls := GateCalls(token, owner, spender, amount, chain, recheck);
            && (Approve(token, spender, amount) in calls <==> Short(chain.read, amount))
            && (forall c :: c in calls && c.Approve? ==> c == Approve(token, spender, amount))
            && (|calls| == 3 <==> Short(chain.read, amount) && chain.approve.Ok? && recheck)
  {
  }

  // ---------------------------------------------------------------------------
  // Swaps

  /** The result `performSwap` returns. */
  datatype SwapResult = SwapResult(swapAmount: string, tokenIn: string, tokenOut: string,
                                   txHash: string, receipt: Receipt)

  /** The router parameters of a swap of `amount` of the pair's input token. */
  function SwapParamsFor(pair: SwapPair, amount: nat, recipient: string, nowMs: nat): (p: SwapParams)
    ensures p.tokenIn == pair.tokenInAddress && p.tokenOut == pair.tokenOutAddress
    ensures p.amountIn == amount && p.recipient == recipient
    ensures p.fee == 500 && p.amountOutMinimum == 0 && p.sqrtPriceLimitX96 == 0
    ensures p.deadline == nowMs / 1000 + 600
  {
    SwapParams(pair.tokenInAddress, pair.tokenOutAddress, SwapFee, recipient, Deadline(nowMs), amount, 0, 0)
  }

  /** The allowance suffices for the swap, after an approval if one was needed. */
  predicate SwapCleared(chain: AllowanceChain, amount: nat)
  {
    chain.read.Ok? &&
    (chain.read.value >= amount ||
     (chain.approve.Ok? && chain.reread.Ok? && chain.reread.value >= amount))
  }

  /** What `performSwap` returns or throws, step by step: the stub error of a
      plain `BaseDex`, the error of a failed allowance call, `Approve failed`
      when the allowance is still short after the approval, the error of the
      router transaction or its wait, the revert of a receipt whose status is
      not 1, and otherwise the swap's record. */
  function SwapOutcome(k: DexKind, pair: SwapPair, amount: nat, chain: SwapChain): (r: Outcome<SwapResult>)
    ensures r.Ok? <==>
              !k.BaseDex? && SwapCleared(chain.tokenIn, amount) && chain.submit.Ok? && chain.confirm.Ok? &&
              chain.confirm.value.status == 1
    ensures r.Ok? ==>
              r.value == SwapResult(DecimalText(amount, Config.TokenDecimals), pair.tokenInName,
                                    pair.tokenOutName, chain.submit.value, chain.confirm.value)
    ensures !k.BaseDex? && chain.tokenIn.read.Err? ==> r == Err(chain.tokenIn.read.error)
    ensures !k.BaseDex? && SwapCleared(chain.tokenIn, amount) && chain.submit.Err? ==> r == Err(chain.submit.error)
  {
    var gate := chain.tokenIn;
    if k.BaseDex? then Err(StubError(Member.PerformSwap))
    else if gate.read.Err? then Err(gate.read.error)
    else if Short(gate.read, amount) && gate.approve.Err? then Err(gate.approve.error)
    else if Short(gate.read, amount) && gate.reread.Err? then Err(gate.reread.error)
    else if !SwapCleared(gate, amount) then Err(ApproveFailed)
    else if chain.submit.Err? then Err(chain.submit.error)
    else if chain.confirm.Err? then Err(chain.confirm.error)
    else if chain.confirm.value.status != 1 then Err(SwapRevert(k))
    else Ok(SwapResult(DecimalText(amount, Config.TokenDecimals), pair.tokenInName, pair.tokenOutName,
                       chain.submit.value, chain.confirm.value))
  }

  /** The chain calls of `performSwap`: none on a plain `BaseDex`; otherwise
      the re-reading allowance gate on the router, then the router call once
      the allowance suffices. */
  function SwapCalls(k: DexKind, pair: SwapPair, amount: nat, recipient: string, nowMs: nat,
                     chain: SwapChain): seq<Call>
  {
    if k.BaseDex? then []
    else GateCalls(pair.tokenInAddress, recipient, SwapRouter, amount, chain.tokenIn, true)
         + (if SwapCleared(chain.tokenIn, amount)
            then [ExactInputSingle(SwapParamsFor(pair, amount, recipient, nowMs))] else [])
  }

  /** `performSwap` of Zer0 and Jaine, which differ only in the revert message;
      a plain `BaseDex` throws its stub error. */
  method PerformSwap(k: DexKind, pair: SwapPair, amount: nat, recipient: string, nowMs: nat, chain: SwapChain)
    returns (r: Outcome<SwapResult>, calls: seq<Call>)
    ensures r == SwapOutcome(k, pair, amount, chain)
    ensures calls == SwapCalls(k, pair, amount, recipient, nowMs, chain)
    ensures k.BaseDex? ==> r == Err(StubError(Member.PerformSwap)) && calls == []
    ensures !k.BaseDex? ==>
              |calls| >= 1 && calls[0] == ReadAllowance(pair.tokenInAddress, recipient, SwapRouter)
    ensures Approve(pair.tokenInAddress, SwapRouter, amount) in calls <==>
              !k.BaseDex? && Short(chain.tokenIn.read, amount)
    ensures ExactInputSingle(SwapParamsFor(pair, amount, recipient, nowMs)) in calls <==>
              !k.BaseDex? && SwapCleared(chain.tokenIn, amount)
    ensures forall c :: c in calls ==> !c.Mint? && !c.CreatePool?
    ensures (!k.BaseDex? && Short(chain.tokenIn.read, amount) && chain.tokenIn.approve.Ok? &&
             chain.tokenIn.reread.Ok? && chain.tokenIn.reread.value < amount) ==> r == Err(ApproveFailed)
    ensures (!k.BaseDex? && SwapCleared(chain.tokenIn, amount) && chain.submit.Ok? && chain.confirm.Ok? &&
             chain.confirm.value.status != 1) ==> r == Err(SwapRevert(k))
    ensures r.Ok? <==>
              !k.BaseDex? && SwapCleared(chain.tokenIn, amount) && chain.submit.Ok? && chain.confirm.Ok? &&
              chain.confirm.value.status == 1
    ensures r.Ok? ==>
              r.value == SwapResult(DecimalText(amount, Config.TokenDecimals), pair.tokenInName,
                                    pair.tokenOutName, chain.submit.value, chain.confirm.value)
  {
    if k.BaseDex? {
      return Err(StubError(Member.PerformSwap)), [];
    }
    var allowance;
    allowance, calls := GateAllowance(pair.tokenInAddress, recipient, SwapRouter, amount, chain.tokenIn, true);
    if allowance.Err? {
      return Err(allowance.error), calls;
    }
    if allowance.value < amount {
      return Err(ApproveFailed), calls;
    }
    calls := calls + [ExactInputSingle(SwapParamsFor(pair, amount, recipient, nowMs))];
    if chain.submit.Err? {
      return Err(chain.submit.error), calls;
    }
    if chain.confirm.Err? {
      return Err(chain.confirm.error), calls;
    }
    if chain.confirm.value.status != 1 {
      return Err(SwapRevert(k)), calls;
    }
    r := Ok(SwapResult(DecimalText(amount, Config.TokenDecimals), pair.tokenInName, pair.tokenOutName,
                       chain.submit.value, chain.confirm.value));
  }

  // ---------------------------------------------------------------------------
  // The receipt's logs

  predicate IsIncrease(log: Log)
  {
    log.Parsed? && log.name == IncreaseLiquidity
  }

  /** The arguments of the first `IncreaseLiquidity` event among the logs. */
  function FirstIncrease(logs: seq<Log>): Option<LiquidityEvent>
    decreases |logs|
  {
    if logs == [] then None
    else if IsIncrease(logs[0]) then Some(logs[0].args)
    else FirstIncrease(logs[1..])
  }

  /** `FirstIncrease` finds an event iff one of the logs is an
      `IncreaseLiquidity` event, and then it is the first such log's. */
  lemma {:induction false} FirstIncreaseFirst(logs: seq<Log>)
    ensures FirstIncrease(logs).None? <==> forall i :: 0 <= i < |logs| ==> !IsIncrease(logs[i])
    ensures FirstIncrease(logs).Some? ==>
              exists i :: 0 <= i < |logs| && IsIncrease(logs[i]) && logs[i].args == FirstIncrease(logs).value &&
                forall j :: 0 <= j < i ==> !IsIncrease(logs[j])
    decreases |logs|
  {
    if logs != [] && !IsIncrease(logs[0]) {
      var tail := logs[1..];
      FirstIncreaseFirst(tail);
      assert forall i :: 1 <= i < |logs| ==> logs[i] == tail[i - 1];
      if FirstIncrease(tail).Some? {
        var i :| 0 <= i < |tail| && IsIncrease(tail[i]) && tail[i].args == FirstIncrease(tail).value &&
                 forall j :: 0 <= j < i ==> !IsIncrease(tail[j]);
        assert logs[i + 1] == tail[i];
        assert forall j :: 0 <= j < i + 1 ==> !IsIncrease(logs[j]) by {
          forall j | 0 <= j < i + 1
            ensures !IsIncrease(logs[j])
          {
            if j > 0 { assert logs[j] == tail[j - 1]; }
          }
        }
      }
    }
  }

  /** The scan over `receipt.logs`: skips the logs that do not parse and those of
      other events, and stops at the first `IncreaseLiquidity` event. */
  method ScanLogs(logs: seq<Log>) returns (found: Option<LiquidityEvent>)
    ensures found == FirstIncrease(logs)
  {
    found := None;
    var i := 0;
    while i < |logs|
      invariant 0 <= i <= |logs|
      invariant FirstIncrease(logs) == FirstIncrease(logs[i..])
    {
      assert logs[i..][1..] == logs[i + 1..];
      if IsIncrease(logs[i]) {
        found := Some(logs[i].args);
        break;
      }
      i := i + 1;
    }
  }

  // ---------------------------------------------------------------------------
  // Liquidity

  /** The result `performAddLiquidity` returns. */
  datatype LiquidityResult = LiquidityResult(tokenId: string, liquidity: string, token0: string, token1: string,
                                             amount0: string, amount1: string, txHash: string, receipt: Receipt)

  /** The result built from the event found in the logs: its token id and
      liquidity as text ('unknown' without an event), and the amounts in
      decimal form, the desired ones when the event has none. */
  function LiquidityResultFrom(found: Option<LiquidityEvent>, name0: string, name1: string,
                               desired0: nat, desired1: nat, txHash: string, receipt: Receipt): (res: LiquidityResult)
    ensures found.None? ==> res.tokenId == "unknown" && res.liquidity == "unknown"
    ensures found.Some? ==> res.tokenId == NatToString(found.value.tokenId) &&
                            res.liquidity == NatToString(found.value.liquidity)
    ensures res.amount0 == FormatUnits(if found.Some? && found.value.amount0 != 0 then found.value.amount0 else desired0,
                                       Config.TokenDecimals)
    ensures res.amount1 == FormatUnits(if found.Some? && found.value.amount1 != 0 then found.value.amount1 else desired1,
                                       Config.TokenDecimals)
    ensures res.token0 == name0 && res.token1 == name1 && res.txHash == txHash && res.receipt == receipt
  {
    LiquidityResult(
      if found.Some? then NatToString(found.value.tokenId) else "unknown",
      if found.Some? then NatToString(found.value.liquidity) else "unknown",
      name0, name1,
      FormatUnits(if found.Some? && found.value.amount0 != 0 then found.value.amount0 else desired0,
                  Config.TokenDecimals),
      FormatUnits(if found.Some? && found.value.amount1 != 0 then found.value.amount1 else desired1,
                  Config.TokenDecimals),
      txHash, receipt)
  }

  /** A token id of 0 still shows as "0": `toString()` of a big integer is
      never empty, so 'unknown' means exactly that no event was found. */
  lemma UnknownMeansNoEvent(found: Option<LiquidityEvent>, name0: string, name1: string,
                            desired0: nat, desired1: nat, txHash: string, receipt: Receipt)
    ensures LiquidityResultFrom(found, name0, name1, desired0, desired1, txHash, receipt).tokenId == "unknown"
            <==> found.None?
  {
    if found.Some? {
      var t := NatToString(found.value.tokenId);
      assert IsDigit(t[0]);
      assert t != "unknown" by { assert !IsDigit("unknown"[0]); }
    }
  }

  /** What the mint step returns: the error of the transaction or of its wait,
      the revert of a receipt whose status is not 1, or the position read
      from the receipt's first increase event. */
  function MintOutcome(chain: LiquidityChain, revert: string, name0: string, name1: string,
                       amount0: nat, amount1: nat): Outcome<LiquidityResult>
  {
    if chain.submit.Err? then Err(chain.submit.error)
    else if chain.confirm.Err? then Err(chain.confirm.error)
    else if chain.confirm.value.status != 1 then Err(revert)
    else Ok(LiquidityResultFrom(FirstIncrease(chain.confirm.value.logs), name0, name1, amount0, amount1,
                                chain.submit.value, chain.confirm.value))
  }

  /** Sends the mint, waits for the receipt, rejects a reverted one and scans
      its logs; the calls before the mint are already in `before`. */
  method MintAndScan(chain: LiquidityChain, params: MintParams, revert: string, name0: string, name1: string,
                     before: seq<Call>)
    returns (r: Outcome<LiquidityResult>, calls: seq<Call>)
    ensures r == MintOutcome(chain, revert, name0, name1, params.amount0Desired, params.amount1Desired)
    ensures calls == before + [Mint(params)]
    ensures r.Ok? <==> chain.submit.Ok? && chain.confirm.Ok? && chain.confirm.value.status == 1
    ensures chain.submit.Ok? && chain.confirm.Ok? && chain.confirm.value.status != 1 ==> r == Err(revert)
    ensures chain.submit.Err? ==> r == Err(chain.submit.error)
    ensures r.Ok? ==>
              r.value == LiquidityResultFrom(FirstIncrease(chain.confirm.value.logs), name0, name1,
                                             params.amount0Desired, params.amount1Desired,
                                             chain.submit.value, chain.confirm.value)
  {
    calls := before + [Mint(params)];
    if chain.submit.Err? {
      return Err(chain.submit.error), calls;
    }
    if chain.confirm.Err? {
      return Err(chain.confirm.error), calls;
    }
    if chain.confirm.value.status != 1 {
      return Err(revert), calls;
    }
    var found := ScanLogs(chain.confirm.value.logs);
    r := Ok(LiquidityResultFrom(found, name0, name1, params.amount0Desired, params.amount1Desired,
                                chain.submit.value, chain.confirm.value));
  }

  /** The mint parameters: the tokens and amounts in the given order, the fee,
      the exchange's tick range, zero minimums and the deadline. */
  function MintParamsFor(token0: string, token1: string, amount0: nat, amount1: nat,
                         tickLower: int, tickUpper: int, recipient: string, nowMs: nat): (p: MintParams)
    ensures p.token0 == token0 && p.token1 == token1
    ensures p.amount0Desired == amount0 && p.amount1Desired == amount1
    ensures p.fee == 100 && p.amount0Min == 0 && p.amount1Min == 0
    ensures p.tickLower == tickLower && p.tickUpper == tickUpper
    ensures p.recipient == recipient && p.deadline == nowMs / 1000 + 600
  {
    MintParams(token0, token1, LiquidityFee, tickLower, tickUpper, amount0, amount1, 0, 0, recipient, Deadline(nowMs))
  }

  /** The calls of Zer0's two gates: token0's gate, then token1's once
      token0's has not failed; without a re-read. */
  function Zer0GateCalls(pair: LiquidityPair, amount0: nat, amount1: nat, recipient: string, chain: LiquidityChain): seq<Call>
  {
    GateCalls(pair.token0Address, recipient, PositionManager, amount0, chain.token0, false)
    + (if GateResult(amount0, chain.token0, false).Ok?
       then GateCalls(pair.token1Address, recipient, PositionManager, amount1, chain.token1, false) else [])
  }

  /** What Zer0's two gates return: the error of the first call that failed,
      or success. */
  function Zer0GatesOutcome(chain: LiquidityChain, amount0: nat, amount1: nat): (r: Outcome<()>)
    ensures r.Ok? <==> Zer0GatesPass(chain, amount0, amount1)
  {
    var a0 := GateResult(amount0, chain.token0, false);
    if a0.Err? then Err(a0.error)
    else
      var a1 := GateResult(amount1, chain.token1, false);
      if a1.Err? then Err(a1.error) else Ok(())
  }

  /** What Zer0's `performAddLiquidity` returns: the gates' error, or the mint's
      outcome on the pair as given. */
  function Zer0Outcome(pair: LiquidityPair, amount0: nat, amount1: nat, chain: LiquidityChain): Outcome<LiquidityResult>
  {
    var gates := Zer0GatesOutcome(chain, amount0, amount1);
    if gates.Err? then Err(gates.error)
    else MintOutcome(chain, MintRevert(Zer0Dex), pair.token0Name, pair.token1Name, amount0, amount1)
  }

  /** The chain calls of Zer0's `performAddLiquidity`: the gates, then the mint
      once both pass. */
  function Zer0Calls(pair: LiquidityPair, amount0: nat, amount1: nat, recipient: string, nowMs: nat,
                     chain: LiquidityChain): seq<Call>
  {
    Zer0GateCalls(pair, amount0, amount1, recipient, chain)
    + (if Zer0GatesPass(chain, amount0, amount1)
       then [Mint(MintParamsFor(pair.token0Address, pair.token1Address, amount0, amount1,
                                Zer0TickLower, Zer0TickUpper, recipient, nowMs))]
       else [])
  }

  /** Both Zer0 gates pass: each read answers and each needed approval succeeds. */
  predicate Zer0GatesPass(chain: LiquidityChain, amount0: nat, amount1: nat)
  {
    && chain.token0.read.Ok? && (!Short(chain.token0.read, amount0) || chain.token0.approve.Ok?)
    && chain.token1.read.Ok? && (!Short(chain.token1.read, amount1) || chain.token1.approve.Ok?)
  }

  /** Both Zer0 gates, without a re-read and without a check of the allowance
      after an approval. */
  method Zer0Gates(pair: LiquidityPair, amount0: nat, amount1: nat, recipient: string, chain: LiquidityChain)
    returns (passed: Outcome<()>, calls: seq<Call>)
    ensures passed == Zer0GatesOutcome(chain, amount0, amount1)
    ensures calls == Zer0GateCalls(pair, amount0, amount1, recipient, chain)
    ensures passed.Ok? <==> Zer0GatesPass(chain, amount0, amount1)
    ensures chain.token0.read.Err? ==>
              passed == Err(chain.token0.read.error) &&
              calls == [ReadAllowance(pair.token0Address, recipient, PositionManager)]
    ensures forall c :: c in calls ==> c.ReadAllowance? || c.Approve?
  {
    var a0, calls0 := GateAllowance(pair.token0Address, recipient, PositionManager, amount0, chain.token0, false);
    calls := calls0;
    if a0.Err? {
      return Err(a0.error), calls;
    }
    var a1, calls1 := GateAllowance(pair.token1Address, recipient, PositionManager, amount1, chain.token1, false);
    calls := calls + calls1;
    if a1.Err? {
      return Err(a1.error), calls;
    }
    passed := Ok(());
  }

  /** Zer0's `performAddLiquidity`: approves each token whose allowance is
      short, without reading it again or checking it, and mints the pair in
      the order given. */
  method Zer0AddLiquidity(pair: LiquidityPair, amount0: nat, amount1: nat, recipient: string, nowMs: nat,
                          chain: LiquidityChain)
    returns (r: Outcome<LiquidityResult>, calls: seq<Call>)
    ensures r == Zer0Outcome(pair, amount0, amount1, chain)
    ensures calls == Zer0Calls(pair, amount0, amount1, recipient, nowMs, chain)
    ensures chain.token0.read.Err? ==>
              r == Err(chain.token0.read.error) && calls == [ReadAllowance(pair.token0Address, recipient, PositionManager)]
    ensures Zer0GatesPass(chain, amount0, amount1) ==>
              calls == Zer0GateCalls(pair, amount0, amount1, recipient, chain)
                       + [Mint(MintParamsFor(pair.token0Address, pair.token1Address, amount0, amount1,
                                             Zer0TickLower, Zer0TickUpper, recipient, nowMs))]
    ensures !Zer0GatesPass(chain, amount0, amount1) ==>
              r.Err? && forall c :: c in calls ==> c.ReadAllowance? || c.Approve?
    ensures r.Ok? <==>
              Zer0GatesPass(chain, amount0, amount1) &&
              chain.submit.Ok? && chain.confirm.Ok? && chain.confirm.value.status == 1
    ensures (Zer0GatesPass(chain, amount0, amount1) &&
             chain.submit.Ok? && chain.confirm.Ok? && chain.confirm.value.status != 1) ==> r == Err(MintRevert(Zer0Dex))
    ensures r.Ok? ==>
              r.value == LiquidityResultFrom(FirstIncrease(chain.confirm.value.logs), pair.token0Name, pair.token1Name,
                                             amount0, amount1, chain.submit.value, chain.confirm.value)
  {
    var passed;
    passed, calls := Zer0Gates(pair, amount0, amount1, recipient, chain);
    if passed.Err? {
      return Err(passed.error), calls;
    }
    var params := MintParamsFor(pair.token0Address, pair.token1Address, amount0, amount1,
                                Zer0TickLower, Zer0TickUpper, recipient, nowMs);
    r, calls := MintAndScan(chain, params, MintRevert(Zer0Dex), pair.token0Name, pair.token1Name, calls);
  }

  /** One side of a Jaine addition: a token's address, its name and the amount
      to add of it. */
  datatype Leg = Leg(address: string, name: string, amount: nat)

  /** Jaine's re-sort: keep the legs when the first address sorts strictly
      first, otherwise swap them, each address with its name and amount. */
  function SortLegs(a: Leg, b: Leg): (legs: (Leg, Leg))
    ensures StrLessEq(ToLower(legs.0.address), ToLower(legs.1.address))
    ensures legs == (a, b) || legs == (b, a)
    ensures AddressBefore(a.address, b.address) ==> legs == (a, b)
    ensures !AddressBefore(a.address, b.address) ==> legs == (b, a)
  {
    StrOrder(ToLower(a.address), ToLower(b.address));
    if AddressBefore(a.address, b.address) then (a, b) else (b, a)
  }

  /** A pair from `getRandomTokenPairForLiquidity` whose lower-case addresses
      differ is already sorted, so the re-sort keeps it. */
  lemma ResortKeepsCanonical(p: LiquidityPair, amount0: nat, amount1: nat)
    requires StrLessEq(ToLower(p.token0Address), ToLower(p.token1Address))
    requires ToLower(p.token0Address) != ToLower(p.token1Address)
    ensures SortLegs(Leg(p.token0Address, p.token0Name, amount0), Leg(p.token1Address, p.token1Name, amount1))
            == (Leg(p.token0Address, p.token0Name, amount0), Leg(p.token1Address, p.token1Name, amount1))
  {
  }

  /** Two tokens whose addresses are equal up to letter case trade places on
      every re-sort, so an addition never keeps the drawn order for them. */
  lemma ResortSwapsEqualAddresses(a: Leg, b: Leg)
    requires ToLower(a.address) == ToLower(b.address)
    ensures SortLegs(a, b) == (b, a)
  {
    StrLessAsymmetric(ToLower(a.address), ToLower(b.address));
  }

  function InsufficientAllowance(name: string, allowance: nat, amount: nat): string
  {
    "Insufficient allowance for " + name + ": " + NatToString(allowance) + " < " + NatToString(amount)
  }

  /** The calls of the pool step: the factory read, the lookup when the factory
      answered, and the creation when the lookup found the zero address. */
  function PoolCalls(token0: string, token1: string, chain: LiquidityChain): seq<Call>
  {
    [ReadFactory]
    + (if chain.factory.Ok? then [GetPool(chain.factory.value, token0, token1, LiquidityFee)] else [])
    + (if chain.factory.Ok? && chain.pool == Ok(ZeroAddress)
       then [CreatePool(token0, token1, LiquidityFee, InitialSqrtPrice)] else [])
  }

  /** The pool step of a Jaine addition: read the factory, look the pool up, and
      create it only when the factory answers with the zero address. A failure
      anywhere here only ends the step. */
  method CheckPool(token0: string, token1: string, chain: LiquidityChain) returns (calls: seq<Call>)
    ensures calls == PoolCalls(token0, token1, chain)
  {
    calls := [ReadFactory];
    if chain.factory.Ok? {
      calls := calls + [GetPool(chain.factory.value, token0, token1, LiquidityFee)];
      if chain.pool.Ok? && chain.pool.value == ZeroAddress {
        calls := calls + [CreatePool(token0, token1, LiquidityFee, InitialSqrtPrice)];
      }
    }
  }

  /** A pool is created only when the lookup found none, and the step never
      fails, whatever the factory, the lookup or the creation return. */
  lemma PoolCreatedOnlyWhenMissing(token0: string, token1: string, chain: LiquidityChain)
    ensures var calls := PoolCalls(token0, token1, chain);
            && ((exists c :: c in calls && c.CreatePool?) <==> chain.factory.Ok? && chain.pool == Ok(ZeroAddress))
            && (forall c :: c in calls && c.CreatePool? ==> c == CreatePool(token0, token1, LiquidityFee, InitialSqrtPrice))
            && |calls| <= 3
  {
    var calls := PoolCalls(token0, token1, chain);
    if chain.factory.Ok? && chain.pool == Ok(ZeroAddress) {
      assert calls[2] == CreatePool(token0, token1, LiquidityFee, InitialSqrtPrice);
    }
  }

  /** The allowance a Jaine gate leaves suffices for its amount. */
  predicate Covers(chain: AllowanceChain, amount: nat)
  {
    chain.read.Ok? &&
    (chain.read.value >= amount || (chain.approve.Ok? && chain.reread.Ok? && chain.reread.value >= amount))
  }

  /** The Jaine gates pass without a failed call, whether or not the
      allowances then suffice. */
  predicate GatesAnswer(chain: AllowanceChain, amount: nat)
  {
    chain.read.Ok? && (!Short(chain.read, amount) || (chain.approve.Ok? && chain.reread.Ok?))
  }

  /** What Jaine's two gates return: the error of the first call that failed,
      then token0's and token1's shortfall, in that order, or success. */
  function JaineGatesOutcome(l0: Leg, l1: Leg, chain: LiquidityChain): (r: Outcome<()>)
    ensures r.Ok? <==> Covers(chain.token0, l0.amount) && Covers(chain.token1, l1.amount)
  {
    var a0 := GateResult(l0.amount, chain.token0, true);
    if a0.Err? then Err(a0.error)
    else
      var a1 := GateResult(l1.amount, chain.token1, true);
      if a1.Err? then Err(a1.error)
      else if a0.value < l0.amount then Err(InsufficientAllowance(l0.name, a0.value, l0.amount))
      else if a1.value < l1.amount then Err(InsufficientAllowance(l1.name, a1.value, l1.amount))
      else Ok(())
  }

  /** The calls of Jaine's two gates: token0's gate, then token1's once
      token0's has not failed; each re-reads after an approval. */
  function JaineGateCalls(l0: Leg, l1: Leg, recipient: string, chain: LiquidityChain): seq<Call>
  {
    GateCalls(l0.address, recipient, PositionManager, l0.amount, chain.token0, true)
    + (if GateResult(l0.amount, chain.token0, true).Ok?
       then GateCalls(l1.address, recipient, PositionManager, l1.amount, chain.token1, true) else [])
  }

  /** Both Jaine gates, each with a re-read after an approval, then the check
      that each allowance covers its amount; token0 is gated and checked first. */
  method JaineGates(l0: Leg, l1: Leg, recipient: string, chain: LiquidityChain)
    returns (passed: Outcome<()>, calls: seq<Call>)
    ensures passed == JaineGatesOutcome(l0, l1, chain)
    ensures calls == JaineGateCalls(l0, l1, recipient, chain)
    ensures passed.Ok? <==> Covers(chain.token0, l0.amount) && Covers(chain.token1, l1.amount)
    ensures (GatesAnswer(chain.token0, l0.amount) && GatesAnswer(chain.token1, l1.amount) &&
             !Covers(chain.token0, l0.amount)) ==>
              passed == Err(InsufficientAllowance(l0.name, chain.token0.reread.value, l0.amount))
    ensures (GatesAnswer(chain.token0, l0.amount) && Covers(chain.token0, l0.amount) &&
             GatesAnswer(chain.token1, l1.amount) && !Covers(chain.token1, l1.amount)) ==>
              passed == Err(InsufficientAllowance(l1.name, chain.token1.reread.value, l1.amount))
    ensures chain.token0.read.Err? ==> passed == Err(chain.token0.read.error)
    ensures |calls| >= 1 && calls[0] == ReadAllowance(l0.address, recipient, PositionManager)
    ensures Short(chain.token0.read, l0.amount) <==>
              |calls| >= 2 && calls[1] == Approve(l0.address, PositionManager, l0.amount)
    ensures passed.Ok? ==>
              calls == GateCalls(l0.address, recipient, PositionManager, l0.amount, chain.token0, true)
                       + GateCalls(l1.address, recipient, PositionManager, l1.amount, chain.token1, true)
    ensures forall c :: c in calls ==> c.ReadAllowance? || c.Approve?
  {
    var a0, calls0 := GateAllowance(l0.address, recipient, PositionManager, l0.amount, chain.token0, true);
    calls := calls0;
    if a0.Err? {
      return Err(a0.error), calls;
    }
    var a1, calls1 := GateAllowance(l1.address, recipient, PositionManager, l1.amount, chain.token1, true);
    calls := calls + calls1;
    if a1.Err? {
      return Err(a1.error), calls;
    }
    if a0.value < l0.amount {
      return Err(InsufficientAllowance(l0.name, a0.value, l0.amount)), calls;
    }
    if a1.value < l1.amount {
      return Err(InsufficientAllowance(l1.name, a1.value, l1.amount)), calls;
    }
    passed := Ok(());
  }

  /** What Jaine's `performAddLiquidity` returns on legs already re-sorted:
      the gates' error, or the mint's outcome. The pool step cannot fail it. */
  function JaineOutcome(l0: Leg, l1: Leg, chain: LiquidityChain): Outcome<LiquidityResult>
  {
    var gates := JaineGatesOutcome(l0, l1, chain);
    if gates.Err? then Err(gates.error)
    else MintOutcome(chain, MintRevert(JaineDex), l0.name, l1.name, l0.amount, l1.amount)
  }

  /** The chain calls of Jaine's `performAddLiquidity` on legs already
      re-sorted: the gates, then the pool step and the mint once both pass. */
  function JaineCalls(l0: Leg, l1: Leg, recipient: string, nowMs: nat, chain: LiquidityChain): seq<Call>
  {
    JaineGateCalls(l0, l1, recipient, chain)
    + (if JaineGatesOutcome(l0, l1, chain).Ok?
       then PoolCalls(l0.address, l1.address, chain)
            + [Mint(MintParamsFor(l0.address, l1.address, l0.amount, l1.amount,
                                  JaineTickLower, JaineTickUpper, recipient, nowMs))]
       else [])
  }

  /** Jaine's `performAddLiquidity` on legs already re-sorted: the gates, the
      pool step, then the mint. */
  method JaineMint(l0: Leg, l1: Leg, recipient: string, nowMs: nat, chain: LiquidityChain)
    returns (r: Outcome<LiquidityResult>, calls: seq<Call>)
    ensures r == JaineOutcome(l0, l1, chain)
    ensures calls == JaineCalls(l0, l1, recipient, nowMs, chain)
    ensures !(Covers(chain.token0, l0.amount) && Covers(chain.token1, l1.amount)) ==>
              r.Err? && forall c :: c in calls ==> c.ReadAllowance? || c.Approve?
    ensures (GatesAnswer(chain.token0, l0.amount) && GatesAnswer(chain.token1, l1.amount) &&
             !Covers(chain.token0, l0.amount)) ==>
              r == Err(InsufficientAllowance(l0.name, chain.token0.reread.value, l0.amount))
    ensures (GatesAnswer(chain.token0, l0.amount) && Covers(chain.token0, l0.amount) &&
             GatesAnswer(chain.token1, l1.amount) && !Covers(chain.token1, l1.amount)) ==>
              r == Err(InsufficientAllowance(l1.name, chain.token1.reread.value, l1.amount))
    ensures |calls| >= 1 && calls[0] == ReadAllowance(l0.address, recipient, PositionManager)
    ensures Short(chain.token0.read, l0.amount) <==>
              |calls| >= 2 && calls[1] == Approve(l0.address, PositionManager, l0.amount)
    ensures Covers(chain.token0, l0.amount) && Covers(chain.token1, l1.amount) ==>
              calls == GateCalls(l0.address, recipient, PositionManager, l0.amount, chain.token0, true)
                       + GateCalls(l1.address, recipient, PositionManager, l1.amount, chain.token1, true)
                       + PoolCalls(l0.address, l1.address, chain)
                       + [Mint(MintParamsFor(l0.address, l1.address, l0.amount, l1.amount,
                                             JaineTickLower, JaineTickUpper, recipient, nowMs))]
    ensures r.Ok? <==>
              Covers(chain.token0, l0.amount) && Covers(chain.token1, l1.amount) &&
              chain.submit.Ok? && chain.confirm.Ok? && chain.confirm.value.status == 1
    ensures (Covers(chain.token0, l0.amount) && Covers(chain.token1, l1.amount) &&
             chain.submit.Ok? && chain.confirm.Ok? && chain.confirm.value.status != 1) ==> r == Err(MintRevert(JaineDex))
    ensures r.Ok? ==>
              r.value == LiquidityResultFrom(FirstIncrease(chain.confirm.value.logs), l0.name, l1.name,
                                             l0.amount, l1.amount, chain.submit.value, chain.confirm.value)
  {
    var passed;
    passed, calls := JaineGates(l0, l1, recipient, chain);
    if passed.Err? {
      return Err(passed.error), calls;
    }
    var pool := CheckPool(l0.address, l1.address, chain);
    var params := MintParamsFor(l0.address, l1.address, l0.amount, l1.amount, JaineTickLower, JaineTickUpper,
                                recipient, nowMs);
    r, calls := MintAndScan(chain, params, MintRevert(JaineDex), l0.name, l1.name, calls + pool);
  }

  /** What Jaine's `performAddLiquidity` returns and calls on its sorted legs:
      it mints iff both final allowances cover, after both gates and the pool
      check; an uncovered allowance throws naming its token, a receipt whose
      status is not 1 throws the revert. */
  predicate JaineReported(l0: Leg, l1: Leg, recipient: string, nowMs: nat, chain: LiquidityChain,
                          r: Outcome<LiquidityResult>, calls: seq<Call>)
  {
    var covered := Covers(chain.token0, l0.amount) && Covers(chain.token1, l1.amount);
    && (r.Ok? <==> covered && chain.submit.Ok? && chain.confirm.Ok? && chain.confirm.value.status == 1)
    && (r.Ok? ==> r.value == LiquidityResultFrom(FirstIncrease(chain.confirm.value.logs), l0.name, l1.name,
                                                 l0.amount, l1.amount, chain.submit.value, chain.confirm.value))
    && ((GatesAnswer(chain.token0, l0.amount) && GatesAnswer(chain.token1, l1.amount) &&
         !Covers(chain.token0, l0.amount)) ==>
        r == Err(InsufficientAllowance(l0.name, chain.token0.reread.value, l0.amount)))
    && ((GatesAnswer(chain.token0, l0.amount) && Covers(chain.token0, l0.amount) &&
         GatesAnswer(chain.token1, l1.amount) && !Covers(chain.token1, l1.amount)) ==>
        r == Err(InsufficientAllowance(l1.name, chain.token1.reread.value, l1.amount)))
    && (covered && chain.submit.Ok? && chain.confirm.Ok? && chain.confirm.value.status != 1 ==>
        r == Err(MintRevert(JaineDex)))
    && (covered ==>
        calls == GateCalls(l0.address, recipient, PositionManager, l0.amount, chain.token0, true)
                 + GateCalls(l1.address, recipient, PositionManager, l1.amount, chain.token1, true)
                 + PoolCalls(l0.address, l1.address, chain)
                 + [Mint(MintParamsFor(l0.address, l1.address, l0.amount, l1.amount,
                                       JaineTickLower, JaineTickUpper, recipient, nowMs))])
  }

  /** What Zer0's `performAddLiquidity` returns and calls on the pair as given:
      it mints iff both gates pass; a failed first read throws its error after
      that one call, a receipt whose status is not 1 throws the revert. */
  predicate Zer0Reported(pair: LiquidityPair, amount0: nat, amount1: nat, recipient: string, nowMs: nat,
                         chain: LiquidityChain, r: Outcome<LiquidityResult>, calls: seq<Call>)
  {
    var passed := Zer0GatesPass(chain, amount0, amount1);
    && (r.Ok? <==> passed && chain.submit.Ok? && chain.confirm.Ok? && chain.confirm.value.status == 1)
    && (r.Ok? ==> r.value == LiquidityResultFrom(FirstIncrease(chain.confirm.value.logs), pair.token0Name,
                                                 pair.token1Name, amount0, amount1,
                                                 chain.submit.value, chain.confirm.value))
    && (chain.token0.read.Err? ==>
        r == Err(chain.token0.read.error) &&
        calls == [ReadAllowance(pair.token0Address, recipient, PositionManager)])
    && (passed && chain.submit.Ok? && chain.confirm.Ok? && chain.confirm.value.status != 1 ==>
        r == Err(MintRevert(Zer0Dex)))
    && (passed ==>
        calls == Zer0GateCalls(pair, amount0, amount1, recipient, chain)
                 + [Mint(MintParamsFor(pair.token0Address, pair.token1Address, amount0, amount1,
                                       Zer0TickLower, Zer0TickUpper, recipient, nowMs))])
  }

  /** The legs Jaine mints: the pair and its amounts, sorted by address. */
  function JaineLegs(pair: LiquidityPair, amount0: nat, amount1: nat): (Leg, Leg)
  {
    SortLegs(Leg(pair.token0Address, pair.token0Name, amount0), Leg(pair.token1Address, pair.token1Name, amount1))
  }

  /** What `performAddLiquidity` returns on each kind of instance: Jaine's
      outcome on the re-sorted legs, Zer0's on the pair as given, the stub
      error of a plain `BaseDex`. */
  function AdditionOutcome(k: DexKind, pair: LiquidityPair, amount0: nat, amount1: nat,
                           chain: LiquidityChain): Outcome<LiquidityResult>
  {
    match k
    case BaseDex(_) => Err(StubError(Member.PerformAddLiquidity))
    case Zer0Dex => Zer0Outcome(pair, amount0, amount1, chain)
    case JaineDex =>
      var legs := JaineLegs(pair, amount0, amount1);
      JaineOutcome(legs.0, legs.1, chain)
  }

  /** The chain calls of `performAddLiquidity` on each kind of instance. */
  function AdditionCalls(k: DexKind, pair: LiquidityPair, amount0: nat, amount1: nat, recipient: string,
                         nowMs: nat, chain: LiquidityChain): seq<Call>
  {
    match k
    case BaseDex(_) => []
    case Zer0Dex => Zer0Calls(pair, amount0, amount1, recipient, nowMs, chain)
    case JaineDex =>
      var legs := JaineLegs(pair, amount0, amount1);
      JaineCalls(legs.0, legs.1, recipient, nowMs, chain)
  }

  /** What `performAddLiquidity` returns and calls on each kind of instance. */
  predicate AdditionReported(k: DexKind, pair: LiquidityPair, amount0: nat, amount1: nat, recipient: string,
                             nowMs: nat, chain: LiquidityChain, r: Outcome<LiquidityResult>, calls: seq<Call>)
  {
    && (k.BaseDex? ==> r == Err(StubError(Member.PerformAddLiquidity)) && calls == [])
    && (k == JaineDex ==>
          JaineReported(JaineLegs(pair, amount0, amount1).0, JaineLegs(pair, amount0, amount1).1,
                        recipient, nowMs, chain, r, calls))
    && (k == Zer0Dex ==> Zer0Reported(pair, amount0, amount1, recipient, nowMs, chain, r, calls))
  }

  /** The outcome and calls of `performAddLiquidity` on every kind of instance
      are what it reports. */
  lemma AdditionOutcomeReported(k: DexKind, pair: LiquidityPair, amount0: nat, amount1: nat, recipient: string,
                                nowMs: nat, chain: LiquidityChain)
    ensures AdditionReported(k, pair, amount0, amount1, recipient, nowMs, chain,
                             AdditionOutcome(k, pair, amount0, amount1, chain),
                             AdditionCalls(k, pair, amount0, amount1, recipient, nowMs, chain))
  {
  }

  /** `performAddLiquidity` on an instance: Jaine re-sorts the pair with its
      amounts first, Zer0 takes it as given, a plain `BaseDex` throws its stub
      error. */
  method PerformAddLiquidity(k: DexKind, pair: LiquidityPair, amount0: nat, amount1: nat, recipient: string,
                             nowMs: nat, chain: LiquidityChain)
    returns (r: Outcome<LiquidityResult>, calls: seq<Call>)
    ensures r == AdditionOutcome(k, pair, amount0, amount1, chain)
    ensures calls == AdditionCalls(k, pair, amount0, amount1, recipient, nowMs, chain)
    ensures AdditionReported(k, pair, amount0, amount1, recipient, nowMs, chain, r, calls)
    ensures k.BaseDex? ==> r == Err(StubError(Member.PerformAddLiquidity))
    ensures k == JaineDex ==>
              var legs := JaineLegs(pair, amount0, amount1);
              (r.Ok? <==> Covers(chain.token0, legs.0.amount) && Covers(chain.token1, legs.1.amount) &&
                          chain.submit.Ok? && chain.confirm.Ok? && chain.confirm.value.status == 1)
    ensures k == Zer0Dex ==>
              (r.Ok? <==> Zer0GatesPass(chain, amount0, amount1) &&
                          chain.submit.Ok? && chain.confirm.Ok? && chain.confirm.value.status == 1)
  {
    match k {
      case BaseDex(_) =>
        r, calls := Err(StubError(Member.PerformAddLiquidity)), [];
      case Zer0Dex =>
        r, calls := Zer0AddLiquidity(pair, amount0, amount1, recipient, nowMs, chain);
      case JaineDex =>
        var legs := JaineLegs(pair, amount0, amount1);
        r, calls := JaineMint(legs.0, legs.1, recipient, nowMs, chain);
    }
  }
}
