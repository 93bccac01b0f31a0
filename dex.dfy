/** The DEX strategy layer shared by every exchange: the token registry, the
    random choice of a token pair, the canonical ordering of a liquidity pair,
    the factory that turns a DEX tag into an instance, and the methods an
    exchange must override. */
module Dex {
  import opened Outcomes
  import opened Text
  import opened Random

  // ---------------------------------------------------------------------------
  // Token registry

  /** One entry of the `CONTRACTS` registry: the token's key, which is also its
      display name, and its contract address. */
  datatype Token = Token(key: string, address: string)

  predicate DistinctKeys(reg: seq<Token>)
  {
    forall i, j :: 0 <= i < j < |reg| ==> reg[i].key != reg[j].key
  }

  /** `CONTRACTS` as its entries in `Object.keys` order; the keys of an object are
      distinct. */
  type Registry = r: seq<Token> | DistinctKeys(r) witness []

  /** `CONTRACTS[key]`: the address registered under a key, if any. */
  function Lookup(reg: seq<Token>, key: string): Option<string>
    decreases |reg|
  {
    if reg == [] then None
    else if reg[0].key == key then Some(reg[0].address)
    else Lookup(reg[1..], key)
  }

  /** Looking up the key of an entry finds that entry's address. */
  lemma {:induction false} LookupAt(reg: Registry, i: nat)
    requires i < |reg|
    ensures Lookup(reg, reg[i].key) == Some(reg[i].address)
    decreases i
  {
    if i > 0 {
      assert reg[0].key != reg[i].key;
      var tail: Registry := reg[1..];
      assert tail[i - 1] == reg[i];
      LookupAt(tail, i - 1);
    }
  }

  /** A key that is not registered has no address. */
  lemma {:induction false} LookupMissing(reg: seq<Token>, key: string)
    requires forall i :: 0 <= i < |reg| ==> reg[i].key != key
    ensures Lookup(reg, key) == None
    decreases |reg|
  {
    if reg != [] {
      assert reg[0].key != key;
      LookupMissing(reg[1..], key);
    }
  }

  /** `getAvailableTokens`: the registry's keys, in order. */
  function GetAvailableTokens(reg: Registry): (keys: seq<string>)
    ensures |keys| == |reg|
    ensures forall i :: 0 <= i < |reg| ==> keys[i] == reg[i].key
  {
    seq(|reg|, i requires 0 <= i < |reg| => reg[i].key)
  }

  /** The available tokens are exactly the keys the registry resolves, and no key
      is listed twice. */
  lemma AvailableTokensResolve(reg: Registry, key: string)
    ensures key in GetAvailableTokens(reg) <==> Lookup(reg, key).Some?
    ensures forall i, j :: 0 <= i < j < |reg| ==> GetAvailableTokens(reg)[i] != GetAvailableTokens(reg)[j]
  {
    var keys := GetAvailableTokens(reg);
    if key in keys {
      var i :| 0 <= i < |keys| && keys[i] == key;
      LookupAt(reg, i);
    } else {
      LookupMissing(reg, key);
    }
  }

  // ---------------------------------------------------------------------------
  // Random token pairs

  /** The pair `getRandomTokenPair` returns for a swap. */
  datatype SwapPair = SwapPair(tokenInKey: string, tokenOutKey: string,
                               tokenInAddress: string, tokenOutAddress: string,
                               tokenInName: string, tokenOutName: string)

  /** The pair `getRandomTokenPairForLiquidity` returns. */
  datatype LiquidityPair = LiquidityPair(token0Key: string, token1Key: string,
                                         token0Address: string, token1Address: string,
                                         token0Name: string, token1Name: string)

  /** The registry entries a liquidity pair names, in its order. */
  function Sides(p: LiquidityPair): (Token, Token)
  {
    (Token(p.token0Key, p.token0Address), Token(p.token1Key, p.token1Address))
  }

  /** The swap pair has two different registered tokens, each address is the
      registry's address for its key, and the names are the keys. */
  predicate ValidSwapPair(reg: Registry, p: SwapPair)
  {
    && p.tokenInKey != p.tokenOutKey
    && Lookup(reg, p.tokenInKey) == Some(p.tokenInAddress)
    && Lookup(reg, p.tokenOutKey) == Some(p.tokenOutAddress)
    && p.tokenInName == p.tokenInKey && p.tokenOutName == p.tokenOutKey
  }

  /** `getRandomTokenPair`: the first index from the draw at `pos`, the second
      redrawn until it differs; `next` is the cursor after the last draw. */
  method GetRandomTokenPair(reg: Registry, rng: Stream, pos: nat) returns (pair: SwapPair, next: nat)
    requires Fair(rng, |reg|)
    ensures next > pos + 1
    ensures Index(rng(pos), |reg|) < |reg| && Index(rng(next - 1), |reg|) < |reg|
    ensures Index(rng(pos), |reg|) != Index(rng(next - 1), |reg|)
    ensures forall r :: pos < r < next - 1 ==> Index(rng(r), |reg|) == Index(rng(pos), |reg|)
    ensures pair.tokenInKey == reg[Index(rng(pos), |reg|)].key
    ensures pair.tokenOutKey == reg[Index(rng(next - 1), |reg|)].key
    ensures ValidSwapPair(reg, pair)
  {
    var i, j;
    i, j, next := DrawDistinct(rng, pos, |reg|);
    LookupAt(reg, i);
    LookupAt(reg, j);
    var inKey, outKey := reg[i].key, reg[j].key;
    pair := SwapPair(inKey, outKey, Lookup(reg, inKey).value, Lookup(reg, outKey).value, inKey, outKey);
  }

  /** Whether the first address sorts strictly before the second once both are
      lower-cased, as JavaScript's `<` compares strings. */
  predicate AddressBefore(a: string, b: string)
  {
    StrLess(ToLower(a), ToLower(b))
  }

  /** The ordering step of `getRandomTokenPairForLiquidity`: keep the drawn order
      when the first address sorts strictly first, swap otherwise. */
  function OrderForLiquidity(first: Token, second: Token): (p: LiquidityPair)
    ensures p.token0Name == p.token0Key && p.token1Name == p.token1Key
  {
    if AddressBefore(first.address, second.address) then
      LiquidityPair(first.key, second.key, first.address, second.address, first.key, second.key)
    else
      LiquidityPair(second.key, first.key, second.address, first.address, second.key, first.key)
  }

  /** The drawn order is kept exactly when the first address is strictly
      smaller; otherwise, the equal case included, the tokens trade places with
      their addresses and names. */
  lemma OrderKeepsOrSwaps(first: Token, second: Token)
    ensures Sides(OrderForLiquidity(first, second)) == (first, second) <==>
            (AddressBefore(first.address, second.address) || first == second)
    ensures !AddressBefore(first.address, second.address) ==>
            Sides(OrderForLiquidity(first, second)) == (second, first)
  {
  }

  /** The ordered pair's addresses are in non-decreasing lower-case order. */
  lemma {:induction false} OrderSorted(first: Token, second: Token)
    ensures StrLessEq(ToLower(OrderForLiquidity(first, second).token0Address),
                      ToLower(OrderForLiquidity(first, second).token1Address))
  {
    StrOrder(ToLower(first.address), ToLower(second.address));
  }

  /** The ordered pair holds the two drawn tokens, each key still with its own
      address and name. */
  lemma OrderPermutes(first: Token, second: Token)
    ensures var p := OrderForLiquidity(first, second);
            multiset{Sides(p).0, Sides(p).1} == multiset{first, second}
  {
  }

  /** The liquidity pair names two different registered tokens, in canonical
      order, with addresses from the registry and names equal to the keys. */
  predicate ValidLiquidityPair(reg: Registry, p: LiquidityPair)
  {
    && p.token0Key != p.token1Key
    && Lookup(reg, p.token0Key) == Some(p.token0Address)
    && Lookup(reg, p.token1Key) == Some(p.token1Address)
    && p.token0Name == p.token0Key && p.token1Name == p.token1Key
    && StrLessEq(ToLower(p.token0Address), ToLower(p.token1Address))
  }

  /** `getRandomTokenPairForLiquidity`: the same two draws as
      `GetRandomTokenPair`, then the canonical ordering. */
  method GetRandomTokenPairForLiquidity(reg: Registry, rng: Stream, pos: nat) returns (pair: LiquidityPair, next: nat)
    requires Fair(rng, |reg|)
    ensures next > pos + 1
    ensures Index(rng(pos), |reg|) < |reg| && Index(rng(next - 1), |reg|) < |reg|
    ensures Index(rng(pos), |reg|) != Index(rng(next - 1), |reg|)
    ensures forall r :: pos < r < next - 1 ==> Index(rng(r), |reg|) == Index(rng(pos), |reg|)
    ensures pair == OrderForLiquidity(reg[Index(rng(pos), |reg|)], reg[Index(rng(next - 1), |reg|)])
    ensures ValidLiquidityPair(reg, pair)
  {
    var i, j;
    i, j, next := DrawDistinct(rng, pos, |reg|);
    LookupAt(reg, i);
    LookupAt(reg, j);
    var first := Token(reg[i].key, Lookup(reg, reg[i].key).value);
    var second := Token(reg[j].key, Lookup(reg, reg[j].key).value);
    pair := OrderForLiquidity(first, second);
    OrderSorted(first, second);
    OrderPermutes(first, second);
  }

  // ---------------------------------------------------------------------------
  // DEX instances

  /** An instance of `BaseDex` or of one of its exchanges. */
  datatype DexKind = BaseDex(name: string) | Zer0Dex | JaineDex

  /** `dexName`, as each constructor passes it to `BaseDex`. */
  function DexName(k: DexKind): string
  {
    match k
    case BaseDex(name) => name
    case Zer0Dex => "Zer0"
    case JaineDex => "Jaine"
  }

  /** The `featureName` `BaseDex` gives itself: the DEX name and " DEX". */
  function DexFeatureName(k: DexKind): (name: string)
    ensures name == DexName(k) + " DEX"
  {
    DexName(k) + " DEX"
  }

  const Zer0Tag: string := "zer0"
  const JaineTag: string := "jaine"

  /** `createDexInstance`: the tag, lower-cased, chooses the exchange; any
      other tag is rejected with its original spelling in the message. */
  function CreateDexInstance(dexType: string): (r: Outcome<DexKind>)
    ensures r == Ok(Zer0Dex) <==> ToLower(dexType) == Zer0Tag
    ensures r == Ok(JaineDex) <==> ToLower(dexType) == JaineTag
    ensures r.Err? <==> ToLower(dexType) != Zer0Tag && ToLower(dexType) != JaineTag
    ensures r.Err? ==> r.error == "Unsupported DEX type: " + dexType
  {
    var tag := ToLower(dexType);
    if tag == Zer0Tag then Ok(Zer0Dex)
    else if tag == JaineTag then Ok(JaineDex)
    else Err("Unsupported DEX type: " + dexType)
  }

  /** Tags that differ only in letter case create the same instance. */
  lemma CreateIgnoresCase(a: string, b: string)
    requires |a| == |b| && forall i :: 0 <= i < |a| ==> LowerChar(a[i]) == LowerChar(b[i])
    ensures CreateDexInstance(a).Ok? ==> CreateDexInstance(a) == CreateDexInstance(b)
  {
    assert ToLower(a) == ToLower(b);
  }

  /** The upper-case spellings are accepted too. */
  lemma UpperCaseTagsAccepted()
    ensures CreateDexInstance("ZER0") == Ok(Zer0Dex)
    ensures CreateDexInstance("JAINE") == Ok(JaineDex)
  {
    assert ToLower("ZER0") == Zer0Tag;
    assert ToLower("JAINE") == JaineTag;
  }

  /** `AVAILABLE_DEX`: each supported tag with its display name. */
  const AvailableDex: seq<(string, string)> := [(Zer0Tag, "Zer0 DEX"), (JaineTag, "Jaine DEX")]

  /** The tags `AVAILABLE_DEX` lists are exactly the lower-case tags the factory
      accepts, and each display name is the feature name of the instance made. */
  lemma AvailableDexMatchesFactory(tag: string)
    requires tag == ToLower(tag)
    ensures CreateDexInstance(tag).Ok? <==> exists e :: e in AvailableDex && e.0 == tag
    ensures forall e :: e in AvailableDex ==>
              CreateDexInstance(e.0).Ok? && e.1 == DexFeatureName(CreateDexInstance(e.0).value)
  {
    assert ToLower(Zer0Tag) == Zer0Tag;
    assert ToLower(JaineTag) == JaineTag;
    if CreateDexInstance(tag).Ok? {
      assert tag == Zer0Tag || tag == JaineTag;
      assert tag == AvailableDex[0].0 || tag == AvailableDex[1].0;
    }
  }

  // ---------------------------------------------------------------------------
  // Overridable members

  /** The members `BaseDex` declares for its exchanges to override. */
  datatype Member = GetSwapContract | GetLiquidityContract | GetSwapAbi | GetLiquidityAbi
                  | PerformSwap | PerformAddLiquidity

  function MemberName(m: Member): string
  {
    match m
    case GetSwapContract => "getSwapContract"
    case GetLiquidityContract => "getLiquidityContract"
    case GetSwapAbi => "getSwapAbi"
    case GetLiquidityAbi => "getLiquidityAbi"
    case PerformSwap => "performSwap"
    case PerformAddLiquidity => "performAddLiquidity"
  }

  /** The error a `BaseDex` member throws when the instance does not override it. */
  function StubError(m: Member): (e: string)
    ensures e == MemberName(m) + " method must be implemented by child class"
  {
    MemberName(m) + " method must be implemented by child class"
  }

  /** Both exchanges override every member; a plain `BaseDex` overrides none. */
  predicate Overrides(k: DexKind, m: Member)
  {
    !k.BaseDex?
  }

  const SwapRouter: string := "0xb95B5953FF8ee5D5d9818CdbEfE363ff2191318c"
  const PositionManager: string := "0x44f24B66b3BAa3A784dBeee9bFE602f15A2Cc5d9"

  /** `getSwapContract` on an instance: an exchange's router address, or the stub
      error. */
  function SwapContract(k: DexKind): (r: Outcome<string>)
    ensures r.Err? <==> !Overrides(k, GetSwapContract)
    ensures r.Err? ==> r.error == StubError(GetSwapContract)
  {
    if k.BaseDex? then Err(StubError(GetSwapContract)) else Ok(SwapRouter)
  }

  /** `getLiquidityContract` on an instance: an exchange's position manager
      address, or the stub error. */
  function LiquidityContract(k: DexKind): (r: Outcome<string>)
    ensures r.Err? <==> !Overrides(k, GetLiquidityContract)
    ensures r.Err? ==> r.error == StubError(GetLiquidityContract)
  {
    if k.BaseDex? then Err(StubError(GetLiquidityContract)) else Ok(PositionManager)
  }
}
