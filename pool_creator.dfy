/**
 * lib/memecore/pool-creator.ts: the server-side script that pairs a wiki
 * token with M on the constant-product exchange and seeds it with
 * liquidity from the deployer's account, plus two read-only helpers.
 */
module PoolCreator {
  import opened Wrappers
  import opened Ledger
  import Strings
  import TradeBounds
  import MemecoreConfig
  import PoolService
  import SwapService

  /** 10^18: both M and wiki tokens have 18 decimals. */
  const WEI_PER_TOKEN: nat := 1_000_000_000_000_000_000

  /** `DEFAULT_LIQUIDITY_M` without an override: 100 M. */
  const DEFAULT_LIQUIDITY_M: nat := 100 * WEI_PER_TOKEN

  /** `DEFAULT_LIQUIDITY_TOKENS` without an override: 500000 tokens. */
  const DEFAULT_LIQUIDITY_TOKENS: nat := 500_000 * WEI_PER_TOKEN

  /** The server's environment. Unset addresses and keys are "". */
  datatype CreatorConfig = CreatorConfig(
    factory: Address,
    router: Address,
    mToken: Address,
    privateKey: string,
    initialLiquidityM: Option<nat>,
    initialLiquidityTokens: Option<nat>,
    memecoreNetwork: string)

  datatype PoolCreationParams = PoolCreationParams(
    tokenAddress: Address,
    liquidityM: Option<nat>,
    liquidityTokens: Option<nat>,
    network: Option<MemecoreConfig.Network>)

  datatype PoolCreationResult = PoolCreationResult(
    poolAddress: Address,
    liquidityM: nat,
    liquidityTokens: nat,
    lpTokensReceived: nat,
    transactionHash: string,
    network: MemecoreConfig.Network,
    explorerUrl: string)

  datatype CreatorError =
    | NotConfigured       // "AMM contracts not configured..."
    | NoPrivateKey        // "MEMECORE_PRIVATE_KEY not configured"
    | UnknownNetwork      // a network name with no table entry: reading its fields throws
    | ReadFailed          // an RPC read threw
    | BadArgument         // an argument that does not encode as uint256
    | WalletRefused       // the wallet refused the write
    | PoolCreationFailed  // "Pool creation failed"
    | AddLiquidityFailed  // "Add liquidity failed"

  /** `params.network || DEFAULT_NETWORK`. */
  function ResolveNetwork(given: Option<MemecoreConfig.Network>, env: string): (n: Option<MemecoreConfig.Network>)
    ensures given.Some? ==> n == given
    ensures given.None? && env == "" ==> n == Some(MemecoreConfig.Insectarium)
  {
    if given.Some? then given else MemecoreConfig.DefaultNetwork(env)
  }

  /** An amount parameter, else its environment override, else the built-in default. */
  function ChosenAmount(given: Option<nat>, env: Option<nat>, builtIn: nat): (amount: nat)
    ensures given.Some? ==> amount == given.value
    ensures given.None? && env.Some? ==> amount == env.value
    ensures given.None? && env.None? ==> amount == builtIn
  {
    given.GetOr(env.GetOr(builtIn))
  }

  /** The checks made before any client is created or any chain call made. */
  function Guard(cfg: CreatorConfig): (r: Option<CreatorError>)
    ensures r.None? <==> IsSet(cfg.factory) && IsSet(cfg.router) && IsSet(cfg.mToken)
                         && Strings.StartsWith(cfg.privateKey, "0x")
    ensures !(IsSet(cfg.factory) && IsSet(cfg.router) && IsSet(cfg.mToken)) ==> r == Some(NotConfigured)
  {
    if !(IsSet(cfg.factory) && IsSet(cfg.router) && IsSet(cfg.mToken)) then Some(NotConfigured)
    else if !Strings.StartsWith(cfg.privateKey, "0x") then Some(NoPrivateKey)
    else None
  }

  /** The environment's answers during one run; `nowMs` is `Date.now()`. */
  datatype CreatorEnv = CreatorEnv(
    existingPair: Read<Address>,
    createTx: TxOutcome,
    createdPair: Read<Address>,
    approveMTx: TxOutcome,
    approveTokenTx: TxOutcome,
    addLiquidityTx: TxOutcome,
    nowMs: nat)

  /**
   * The pool the run goes on to fund: the existing pair when `getPair`
   * answers with a non-zero address, else the pair read back after a
   * successful `createPair`.
   */
  function PoolToFund(cfg: CreatorConfig, token: Address, env: CreatorEnv): (pool: Option<Address>)
    ensures env.existingPair.Threw? ==> pool.None?
    ensures env.existingPair.Answer? && env.existingPair.value != ZERO_ADDRESS ==>
      pool == Some(env.existingPair.value)
    ensures pool.Some? && env.existingPair.value == ZERO_ADDRESS ==>
      && Sent(CreatePair(cfg.factory, token, cfg.mToken), env.createTx) && env.createTx.success
      && env.createdPair.Answer? && pool == Some(env.createdPair.value)
  {
    match env.existingPair
    case Threw => None
    case Answer(existing) =>
      if existing != ZERO_ADDRESS then Some(existing)
      else if !Sent(CreatePair(cfg.factory, token, cfg.mToken), env.createTx) || !env.createTx.success then None
      else if env.createdPair.Threw? then None
      else Some(env.createdPair.value)
  }

  /**
   * The router call that seeds the pool: the wiki token as token A and M as
   * token B, the desired amounts in that order, each minimum 1% below its
   * amount, the LP tokens to the deployer, and a twenty-minute deadline.
   */
  function AddLiquidityCall(cfg: CreatorConfig, token: Address, liquidityM: nat,
                            liquidityTokens: nat, account: Address, nowMs: nat): (c: Call)
    ensures c.AddLiquidity? && c.router == cfg.router && c.to == account
    ensures c.tokenA == token && c.tokenB == cfg.mToken
    ensures c.amountADesired == liquidityTokens && c.amountBDesired == liquidityM
    ensures c.amountAMin <= c.amountADesired && 100 * c.amountAMin >= 99 * c.amountADesired
    ensures c.amountBMin <= c.amountBDesired && 100 * c.amountBMin >= 99 * c.amountBDesired
    ensures c.deadline == TradeBounds.Deadline(nowMs)
  {
    AddLiquidity(cfg.router, token, cfg.mToken, liquidityTokens, liquidityM,
                 TradeBounds.LiquidityMin(liquidityTokens), TradeBounds.LiquidityMin(liquidityM),
                 account, TradeBounds.Deadline(nowMs))
  }

  /**
   * `createPoolAndAddLiquidity`, run by `account` (the key's address):
   * reuse the pair or create it, approve the router for exactly the two
   * liquidity amounts (the approvals' receipts are awaited but their
   * status is not checked), then add the liquidity and check its receipt.
   */
  method CreatePoolAndAddLiquidity(chain: Chain, cfg: CreatorConfig, params: PoolCreationParams,
                                   account: Address, env: CreatorEnv)
    returns (r: Result<PoolCreationResult, CreatorError>)
    requires chain.Valid()
    modifies chain
    ensures chain.Valid()
    ensures Guard(cfg).Some? ==> r == Err(Guard(cfg).value) && chain.history == old(chain.history)
    ensures Guard(cfg).None? && ResolveNetwork(params.network, cfg.memecoreNetwork).None? ==>
      r == Err(UnknownNetwork) && chain.history == old(chain.history)
    ensures Guard(cfg).None? && ResolveNetwork(params.network, cfg.memecoreNetwork).Some? ==>
      var token := params.tokenAddress;
      var liqM := ChosenAmount(params.liquidityM, cfg.initialLiquidityM, DEFAULT_LIQUIDITY_M);
      var liqT := ChosenAmount(params.liquidityTokens, cfg.initialLiquidityTokens, DEFAULT_LIQUIDITY_TOKENS);
      var create := CreatePair(cfg.factory, token, cfg.mToken);
      var approveM := Approve(cfg.mToken, cfg.router, liqM);
      var approveT := Approve(token, cfg.router, liqT);
      var add := AddLiquidityCall(cfg, token, liqM, liqT, account, env.nowMs);
      var creates := env.existingPair == Answer(ZERO_ADDRESS);
      var funds := PoolToFund(cfg, token, env).Some?;
      var approvedM := funds && Sent(approveM, env.approveMTx);
      var approvedT := approvedM && Sent(approveT, env.approveTokenTx);
      && chain.history == old(chain.history)
                          + (if creates then Written(account, create, env.createTx) else [])
                          + (if funds then Written(account, approveM, env.approveMTx) else [])
                          + (if approvedM then Written(account, approveT, env.approveTokenTx) else [])
                          + (if approvedT then Written(account, add, env.addLiquidityTx) else [])
      && (r.Ok? <==> approvedT && Sent(add, env.addLiquidityTx) && env.addLiquidityTx.success)
      && (r.Ok? ==>
            var pool := PoolToFund(cfg, token, env).value;
            var network := ResolveNetwork(params.network, cfg.memecoreNetwork).value;
            r.value == PoolCreationResult(pool, liqM, liqT, 0, env.addLiquidityTx.hash, network,
                                          MemecoreConfig.GetExplorerUrl(network, pool)))
  {
    var network := ResolveNetwork(params.network, cfg.memecoreNetwork);
    var guard := Guard(cfg);
    if guard.Some? {
      return Err(guard.value);
    }
    var liqM := ChosenAmount(params.liquidityM, cfg.initialLiquidityM, DEFAULT_LIQUIDITY_M);
    var liqT := ChosenAmount(params.liquidityTokens, cfg.initialLiquidityTokens, DEFAULT_LIQUIDITY_TOKENS);
    if network.None? {
      return Err(UnknownNetwork);
    }
    var token := params.tokenAddress;
    var pool := ObtainPool(chain, cfg, token, account, env);
    if pool.Err? {
      return Err(pool.error);
    }
    var hash := FundPool(chain, cfg, token, liqM, liqT, account, env);
    if hash.Err? {
      return Err(hash.error);
    }
    r := Ok(PoolCreationResult(pool.value, liqM, liqT, 0, hash.value, network.value,
                               MemecoreConfig.GetExplorerUrl(network.value, pool.value)));
  }

  /**
   * The first half of `createPoolAndAddLiquidity`: reuse the pair `getPair`
   * names, or create it and read it back; a failed creation receipt throws.
   */
  method ObtainPool(chain: Chain, cfg: CreatorConfig, token: Address, account: Address,
                    env: CreatorEnv)
    returns (r: Result<Address, CreatorError>)
    requires chain.Valid()
    modifies chain
    ensures chain.Valid()
    ensures chain.history == old(chain.history)
      + (if env.existingPair == Answer(ZERO_ADDRESS)
         then Written(account, CreatePair(cfg.factory, token, cfg.mToken), env.createTx) else [])
    ensures r.Ok? <==> PoolToFund(cfg, token, env).Some?
    ensures r.Ok? ==> r.value == PoolToFund(cfg, token, env).value
  {
    if env.existingPair.Threw? {
      return Err(ReadFailed);
    }
    if env.existingPair.value != ZERO_ADDRESS {
      return Ok(env.existingPair.value);
    }
    var c := chain.Submit(account, CreatePair(cfg.factory, token, cfg.mToken), env.createTx);
    if c.NotEncodable? {
      return Err(BadArgument);
    } else if c.NotSent? {
      return Err(WalletRefused);
    } else if !c.success {
      return Err(PoolCreationFailed);
    }
    if env.createdPair.Threw? {
      return Err(ReadFailed);
    }
    r := Ok(env.createdPair.value);
  }

  /**
   * The second half: approve the router for exactly the two amounts, M
   * first (each receipt awaited, its status not checked), then add the
   * liquidity and check that receipt; the result is its hash.
   */
  method FundPool(chain: Chain, cfg: CreatorConfig, token: Address, liqM: nat, liqT: nat,
                  account: Address, env: CreatorEnv)
    returns (r: Result<string, CreatorError>)
    requires chain.Valid()
    modifies chain
    ensures chain.Valid()
    ensures
      var approveM := Approve(cfg.mToken, cfg.router, liqM);
      var approveT := Approve(token, cfg.router, liqT);
      var add := AddLiquidityCall(cfg, token, liqM, liqT, account, env.nowMs);
      var approvedM := Sent(approveM, env.approveMTx);
      var approvedT := approvedM && Sent(approveT, env.approveTokenTx);
      && chain.history == old(chain.history)
                          + Written(account, approveM, env.approveMTx)
                          + (if approvedM then Written(account, approveT, env.approveTokenTx) else [])
                          + (if approvedT then Written(account, add, env.addLiquidityTx) else [])
      && (r.Ok? <==> approvedT && Sent(add, env.addLiquidityTx) && env.addLiquidityTx.success)
      && (r.Ok? ==> r.value == env.addLiquidityTx.hash)
  {
    var a := chain.Submit(account, Approve(cfg.mToken, cfg.router, liqM), env.approveMTx);
    if a.NotEncodable? {
      return Err(BadArgument);
    } else if a.NotSent? {
      return Err(WalletRefused);
    }
    var b := chain.Submit(account, Approve(token, cfg.router, liqT), env.approveTokenTx);
    if b.NotEncodable? {
      return Err(BadArgument);
    } else if b.NotSent? {
      return Err(WalletRefused);
    }
    var s := chain.Submit(account, AddLiquidityCall(cfg, token, liqM, liqT, account, env.nowMs),
                          env.addLiquidityTx);
    match s
    case NotEncodable => r := Err(BadArgument);
    case NotSent => r := Err(WalletRefused);
    case Receipt(hash, success) =>
      r := if success then Ok(hash) else Err(AddLiquidityFailed);
  }

  /** `getPoolInfo`'s answer, without the floating-point `priceInM`. */
  datatype PoolInfo = PoolInfo(
    poolAddress: Address,
    token0: Address,
    token1: Address,
    reserve0: nat,
    reserve1: nat,
    reserveM: nat,
    reserveToken: nat,
    blockTimestampLast: nat)

  /** The pair's `getReserves`, `token0` and `token1`, read together. */
  datatype PairInfoReads = PairInfoReads(reserves: Read<(nat, nat, nat)>, token0: Read<Address>,
                                         token1: Read<Address>)

  /**
   * `getPoolInfo`: null for a zero pair; otherwise the raw reserves and the
   * reserves by side, oriented as `getPoolReserves` orients them.
   */
  function GetPoolInfo(cfg: CreatorConfig, network: Option<MemecoreConfig.Network>,
                       pair: Read<Address>, infoReads: PairInfoReads)
    : (r: Result<Option<PoolInfo>, CreatorError>)
    ensures ResolveNetwork(network, cfg.memecoreNetwork).None? ==> r == Err(UnknownNetwork)
    ensures (ResolveNetwork(network, cfg.memecoreNetwork).Some?
             && !(IsSet(cfg.factory) && IsSet(cfg.mToken))) ==> r == Err(NotConfigured)
    ensures r == Ok(None) <==> ResolveNetwork(network, cfg.memecoreNetwork).Some?
                               && IsSet(cfg.factory) && IsSet(cfg.mToken)
                               && pair == Answer(ZERO_ADDRESS)
    ensures (ResolveNetwork(network, cfg.memecoreNetwork).Some? && IsSet(cfg.factory) && IsSet(cfg.mToken)
             && (pair.Threw? || (pair != Answer(ZERO_ADDRESS)
                                 && (infoReads.reserves.Threw? || infoReads.token0.Threw?
                                     || infoReads.token1.Threw?)))) ==> r == Err(ReadFailed)
    ensures (ResolveNetwork(network, cfg.memecoreNetwork).Some? && IsSet(cfg.factory) && IsSet(cfg.mToken)
             && pair.Answer? && pair.value != ZERO_ADDRESS && infoReads.reserves.Answer?
             && infoReads.token0.Answer? && infoReads.token1.Answer?) <==> r.Ok? && r.value.Some?
    ensures r.Ok? && r.value.Some? ==>
      var info := r.value.value;
      && pair.Answer? && info.poolAddress == pair.value != ZERO_ADDRESS
      && infoReads.reserves == Answer((info.reserve0, info.reserve1, info.blockTimestampLast))
      && infoReads.token0 == Answer(info.token0) && infoReads.token1 == Answer(info.token1)
      && multiset{info.reserveM, info.reserveToken} == multiset{info.reserve0, info.reserve1}
      && (info.reserveM, info.reserveToken)
         == PoolService.Orient(PoolService.IsToken0M(info.token0, cfg.mToken), info.reserve0, info.reserve1)
  {
    if ResolveNetwork(network, cfg.memecoreNetwork).None? then Err(UnknownNetwork)
    else if !(IsSet(cfg.factory) && IsSet(cfg.mToken)) then Err(NotConfigured)
    else match pair
      case Threw => Err(ReadFailed)
      case Answer(pool) =>
        if pool == ZERO_ADDRESS then Ok(None)
        else if infoReads.reserves.Threw? || infoReads.token0.Threw? || infoReads.token1.Threw?
        then Err(ReadFailed)
        else
          var (reserve0, reserve1, timestamp) := infoReads.reserves.value;
          var token0 := infoReads.token0.value;
          var (reserveM, reserveToken) :=
            PoolService.Orient(PoolService.IsToken0M(token0, cfg.mToken), reserve0, reserve1);
          Ok(Some(PoolInfo(pool, token0, infoReads.token1.value, reserve0, reserve1,
                           reserveM, reserveToken, timestamp)))
  }

  /**
   * `getPoolInfo` and `getPoolReserves` agree on the sides when they read the
   * same pair state: the same pair address, the same reserves and the same
   * `token0`.
   */
  lemma PoolInfoAgreesWithReserves(cfg: CreatorConfig, network: Option<MemecoreConfig.Network>,
                                   pair: Read<Address>, infoReads: PairInfoReads,
                                   pairReads: PoolService.PairReads)
    requires GetPoolInfo(cfg, network, pair, infoReads).Ok?
    requires GetPoolInfo(cfg, network, pair, infoReads).value.Some?
    requires pairReads.reserves == Answer((infoReads.reserves.value.0, infoReads.reserves.value.1))
    requires pairReads.token0 == infoReads.token0
    ensures var info := GetPoolInfo(cfg, network, pair, infoReads).value.value;
      var reserves := PoolService.GetPoolReserves(
        PoolService.PoolConfig(cfg.factory, cfg.mToken), pair, pairReads);
      && reserves.poolExists
      && reserves.reserveM == info.reserveM && reserves.reserveWiki == info.reserveToken
  {
  }

  /** `getSwapQuote`'s answer: the router's `amounts[0]` and `amounts[1]`, and the path. */
  datatype CreatorQuote = CreatorQuote(amountIn: nat, amountOut: nat, path: seq<Address>, priceImpact: real)

  /**
   * The router's `getAmountsOut(amountIn, path)` read in full: `amounts[0]`
   * and `amounts[1]` for an input amount along a path, or a read that throws.
   */
  type RouterAmounts = (nat, seq<Address>) -> Read<(nat, nat)>

  /**
   * `getSwapQuote`: the router's amounts for `amountIn` along the same path
   * rule as the client-side swap service; the price impact is 0. A read that
   * throws is not caught.
   */
  function GetSwapQuote(cfg: CreatorConfig, network: Option<MemecoreConfig.Network>,
                        amountIn: nat, from: SwapService.Side, token: Address,
                        getAmountsOut: RouterAmounts)
    : (r: Result<CreatorQuote, CreatorError>)
    ensures var path := if from == SwapService.M then [cfg.mToken, token] else [token, cfg.mToken];
      r.Ok? <==> && ResolveNetwork(network, cfg.memecoreNetwork).Some?
                 && IsSet(cfg.router) && IsSet(cfg.mToken) && getAmountsOut(amountIn, path).Answer?
    ensures r.Ok? ==>
      && r.value.path == (if from == SwapService.M then [cfg.mToken, token] else [token, cfg.mToken])
      && getAmountsOut(amountIn, r.value.path) == Answer((r.value.amountIn, r.value.amountOut))
      && r.value.priceImpact == 0.0
  {
    if ResolveNetwork(network, cfg.memecoreNetwork).None? then Err(UnknownNetwork)
    else if !(IsSet(cfg.router) && IsSet(cfg.mToken)) then Err(NotConfigured)
    else
      var path := SwapService.SwapPath(SwapService.SwapConfig(cfg.router, cfg.mToken), from, token);
      match getAmountsOut(amountIn, path)
      case Threw => Err(ReadFailed)
      case Answer((quotedIn, quotedOut)) => Ok(CreatorQuote(quotedIn, quotedOut, path, 0.0))
  }

  /** The client-side view of the same router: `amounts[1]` only. */
  function OutputOf(getAmountsOut: RouterAmounts): (out: SwapService.AmountsOut)
    ensures forall a, p :: out(a, p).Answer? <==> getAmountsOut(a, p).Answer?
  {
    (a: nat, p: seq<Address>) =>
      match getAmountsOut(a, p)
      case Threw => Threw
      case Answer((_, amountOut)) => Answer(amountOut)
  }

  /**
   * Against the same router, the server-side quote and the client-side quote
   * read the same path and report the same output amount.
   */
  lemma QuoteAgreesWithSwapService(cfg: CreatorConfig, network: Option<MemecoreConfig.Network>,
                                   amountIn: nat, from: SwapService.Side, token: Address,
                                   getAmountsOut: RouterAmounts)
    requires GetSwapQuote(cfg, network, amountIn, from, token, getAmountsOut).Ok?
    ensures var q := GetSwapQuote(cfg, network, amountIn, from, token, getAmountsOut).value;
      var client := SwapService.SwapConfig(cfg.router, cfg.mToken);
      && q.path == SwapService.SwapPath(client, from, token)
      && SwapService.GetSwapQuote(client, from, token, amountIn, OutputOf(getAmountsOut))
         == Ok(SwapService.SwapQuote(q.amountOut, 0.1))
  {
  }
}
