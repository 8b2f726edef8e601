/**
 * lib/memecore/swap-service.ts: trades against the constant-product pool
 * through the router, signed by the user's wallet. The router address and
 * the wrapped M token address come from the environment and may be unset.
 */
module SwapService {
  import opened Wrappers
  import opened Ledger
  import TradeBounds

  /** `NEXT_PUBLIC_MEMESWAP_ROUTER_ADDRESS` and `NEXT_PUBLIC_M_TOKEN_ADDRESS`. */
  datatype SwapConfig = SwapConfig(router: Address, mToken: Address) {
    predicate Configured() { IsSet(router) && IsSet(mToken) }
  }

  /** `'M' | 'TOKEN'`: the side of the pair a swap sells. */
  datatype Side = M | Token {
    function Other(): (o: Side)
      ensures o != this
    {
      if this == M then Token else M
    }
  }

  datatype SwapError =
    | NotConfigured   // "Swap contracts not configured" / "Router address not configured"
    | QuoteFailed     // "Failed to get swap quote. Pool may not exist."
    | ReadFailed      // an RPC read threw
    | BadArgument     // an argument that does not encode as uint256
    | WalletRefused   // the wallet refused the write
    | Reverted        // "Swap transaction failed"

  /** `SwapResult` with wei amounts in place of formatted strings. */
  datatype SwapReport = SwapReport(hash: string, amountIn: nat, amountOut: nat,
                                   fromToken: Side, toToken: Side)

  /** The token contract for one side of the pair. */
  function TokenOf(cfg: SwapConfig, side: Side, token: Address): Address {
    if side == M then cfg.mToken else token
  }

  /** The router path: from the sold token to the bought one. */
  function SwapPath(cfg: SwapConfig, from: Side, token: Address): (path: seq<Address>)
    ensures |path| == 2
    ensures path[0] == TokenOf(cfg, from, token)
    ensures path[1] == TokenOf(cfg, from.Other(), token)
    ensures from == M ==> path == [cfg.mToken, token]
    ensures from == Token ==> path == [token, cfg.mToken]
  {
    if from == M then [cfg.mToken, token] else [token, cfg.mToken]
  }

  /** Swapping the other way walks the same pair in reverse. */
  lemma ReversedPath(cfg: SwapConfig, from: Side, token: Address)
    ensures var p := SwapPath(cfg, from, token);
      SwapPath(cfg, from.Other(), token) == [p[1], p[0]]
  {
  }

  /**
   * The router's `getAmountsOut(amountIn, path)`: the output amount
   * (`amounts[1]`) for an input amount along a path, or a read that throws.
   */
  type AmountsOut = (nat, seq<Address>) -> Read<nat>

  /** The environment's answers during one swap; `nowMs` is `Date.now()`. */
  datatype SwapEnv = SwapEnv(
    getAmountsOut: AmountsOut,
    allowanceReadOk: bool,
    approveTx: TxOutcome,
    swapTx: TxOutcome,
    nowMs: nat)

  /** The router call `executeSwap` submits. */
  function SwapCall(cfg: SwapConfig, from: Side, token: Address, amountIn: nat,
                    quote: nat, s: real, user: Address, nowMs: nat): (c: Call)
    ensures c.SwapExactTokensForTokens? && c.router == cfg.router && c.to == user
    ensures c.amountIn == amountIn && c.path == SwapPath(cfg, from, token)
    ensures 0.0 <= s <= 100.0 ==> 0 <= c.amountOutMin <= quote
    ensures c.deadline == TradeBounds.Deadline(nowMs)
  {
    SwapExactTokensForTokens(cfg.router, amountIn, TradeBounds.MinOut(quote, s),
                             SwapPath(cfg, from, token), user, TradeBounds.Deadline(nowMs))
  }

  /**
   * `executeSwap`: quote `amountIn` along the swap path through the router,
   * approve the router for exactly
   * `amountIn` of the sold token when its allowance is lower (waiting for
   * that approval, whose status is not checked), then swap with the quote
   * lowered by the tolerance as the minimum output and a twenty-minute
   * deadline.
   */
  method ExecuteSwap(chain: Chain, cfg: SwapConfig, from: Side, token: Address, amountIn: nat,
                     slippage: Option<real>, user: Address, env: SwapEnv)
    returns (r: Result<SwapReport, SwapError>)
    requires chain.Valid()
    modifies chain
    ensures chain.Valid()
    ensures !cfg.Configured() ==> r == Err(NotConfigured) && chain.history == old(chain.history)
    ensures env.getAmountsOut(amountIn, SwapPath(cfg, from, token)).Threw? || !env.allowanceReadOk ==>
      r.Err? && chain.history == old(chain.history)
    ensures r.Ok? ==> GetSwapQuote(cfg, from, token, amountIn, env.getAmountsOut)
                      == Ok(SwapQuote(r.value.amountOut, 0.1))
    ensures var quote := env.getAmountsOut(amountIn, SwapPath(cfg, from, token));
      cfg.Configured() && quote.Answer? && env.allowanceReadOk ==>
      var sold := TokenOf(cfg, from, token);
      var needsApproval := old(chain.AllowanceOf(user, cfg.router, sold)) < amountIn;
      var approve := Approve(sold, cfg.router, amountIn);
      var swap := SwapCall(cfg, from, token, amountIn, quote.value,
                           slippage.GetOr(TradeBounds.DEFAULT_TOLERANCE), user, env.nowMs);
      var approved := needsApproval ==> Sent(approve, env.approveTx);
      && chain.history == old(chain.history)
                          + (if needsApproval then Written(user, approve, env.approveTx) else [])
                          + (if approved then Written(user, swap, env.swapTx) else [])
      && (approved && Sent(swap, env.swapTx) && env.swapTx.success <==> r.Ok?)
      && (r.Ok? ==> r.value == SwapReport(env.swapTx.hash, amountIn, quote.value,
                                          from, from.Other()))
  {
    if !cfg.Configured() {
      return Err(NotConfigured);
    }
    var quote := env.getAmountsOut(amountIn, SwapPath(cfg, from, token));
    if quote.Threw? {
      return Err(ReadFailed);
    }
    var amountOut := quote.value;
    var s := slippage.GetOr(TradeBounds.DEFAULT_TOLERANCE);
    var sold := TokenOf(cfg, from, token);
    if !env.allowanceReadOk {
      return Err(ReadFailed);
    }
    var current := chain.AllowanceOf(user, cfg.router, sold);
    if current < amountIn {
      var a := chain.Submit(user, Approve(sold, cfg.router, amountIn), env.approveTx);
      if a.NotEncodable? {
        return Err(BadArgument);
      } else if a.NotSent? {
        return Err(WalletRefused);
      }
    }
    var t := chain.Submit(user, SwapCall(cfg, from, token, amountIn, amountOut, s, user, env.nowMs),
                          env.swapTx);
    match t
    case NotEncodable => r := Err(BadArgument);
    case NotSent => r := Err(WalletRefused);
    case Receipt(hash, success) =>
      if success {
        r := Ok(SwapReport(hash, amountIn, amountOut, from, from.Other()));
      } else {
        r := Err(Reverted);
      }
  }

  /** `getSwapQuote`'s answer, with the output in wei. */
  datatype SwapQuote = SwapQuote(amountOut: nat, priceImpact: real)

  /**
   * `getSwapQuote`: the router's output for `amountIn` along the path from
   * the sold side to the bought one, with a fixed price impact of 0.1.
   */
  function GetSwapQuote(cfg: SwapConfig, from: Side, token: Address, amountIn: nat,
                        getAmountsOut: AmountsOut): (r: Result<SwapQuote, SwapError>)
    ensures !cfg.Configured() ==> r == Err(NotConfigured)
    ensures cfg.Configured() ==>
      var path := if from == M then [cfg.mToken, token] else [token, cfg.mToken];
      && (getAmountsOut(amountIn, path).Threw? <==> r == Err(QuoteFailed))
      && (getAmountsOut(amountIn, path).Answer? <==> r.Ok?)
      && (r.Ok? ==> r.value.amountOut == getAmountsOut(amountIn, path).value
                    && r.value.priceImpact == 0.1)
  {
    if !cfg.Configured() then Err(NotConfigured)
    else
      var amountOut := getAmountsOut(amountIn, SwapPath(cfg, from, token));
      if amountOut.Threw? then Err(QuoteFailed)
      else Ok(SwapQuote(amountOut.value, 0.1))
  }

  /** `getTokenBalance`: unlike the curve service's, a failed read propagates. */
  function GetTokenBalance(balance: Read<nat>): (r: Result<nat, SwapError>)
    ensures r.Ok? <==> balance.Answer?
    ensures r.Ok? ==> r.value == balance.value
  {
    match balance
    case Threw => Err(ReadFailed)
    case Answer(v) => Ok(v)
  }

  /** `checkAllowance`: whether the router may already move `amount` of `user`'s `token`. */
  method CheckAllowance(chain: Chain, cfg: SwapConfig, token: Address, user: Address,
                        amount: nat, readOk: bool)
    returns (r: Result<bool, SwapError>)
    ensures !IsSet(cfg.router) ==> r == Err(NotConfigured)
    ensures r.Ok? <==> IsSet(cfg.router) && readOk
    ensures r.Ok? ==> (r.value <==> chain.AllowanceOf(user, cfg.router, token) >= amount)
  {
    if !IsSet(cfg.router) {
      return Err(NotConfigured);
    }
    if !readOk {
      return Err(ReadFailed);
    }
    var allowance := chain.AllowanceOf(user, cfg.router, token);
    r := Ok(allowance >= amount);
  }

  /**
   * `approveToken`: approve the router for `amount` of `token` and wait for
   * the receipt; the hash is returned whatever the receipt's status. Only
   * the router must be configured.
   */
  method ApproveToken(chain: Chain, cfg: SwapConfig, user: Address, token: Address,
                      amount: int, tx: TxOutcome)
    returns (r: Result<string, SwapError>)
    requires chain.Valid()
    modifies chain
    ensures chain.Valid()
    ensures !IsSet(cfg.router) ==> r == Err(NotConfigured) && chain.history == old(chain.history)
    ensures IsSet(cfg.router) ==>
      && chain.history == old(chain.history) + Written(user, Approve(token, cfg.router, amount), tx)
      && (r.Ok? <==> Sent(Approve(token, cfg.router, amount), tx))
    ensures r.Ok? ==> r.value == tx.hash
    ensures r.Ok? && tx.success ==> chain.AllowanceOf(user, cfg.router, token) == amount
  {
    if !IsSet(cfg.router) {
      return Err(NotConfigured);
    }
    var s := chain.Submit(user, Approve(token, cfg.router, amount), tx);
    match s
    case NotEncodable => r := Err(BadArgument);
    case NotSent => r := Err(WalletRefused);
    case Receipt(hash, _) => r := Ok(hash);
  }

  /**
   * After a successful swap that needed an approval, the router's allowance
   * on the sold token is whatever that approval's receipt decided: exactly
   * `amountIn` when it succeeded. The swap itself is not modelled as
   * spending it.
   */
  method SwapLeavesApprovedAllowance(chain: Chain, cfg: SwapConfig, from: Side, token: Address,
                                     amountIn: nat, slippage: Option<real>, user: Address,
                                     env: SwapEnv)
    returns (r: Result<SwapReport, SwapError>)
    requires chain.Valid()
    modifies chain
    ensures chain.Valid()
    ensures r.Ok? ==>
      var sold := TokenOf(cfg, from, token);
      chain.AllowanceOf(user, cfg.router, sold) ==
        if old(chain.AllowanceOf(user, cfg.router, sold)) >= amountIn
        then old(chain.AllowanceOf(user, cfg.router, sold))
        else if env.approveTx.Mined? && env.approveTx.success then amountIn
        else old(chain.AllowanceOf(user, cfg.router, sold))
  {
    ghost var before := chain.history;
    r := ExecuteSwap(chain, cfg, from, token, amountIn, slippage, user, env);
    if r.Ok? {
      var sold := TokenOf(cfg, from, token);
      var quote := env.getAmountsOut(amountIn, SwapPath(cfg, from, token));
      var swap := SwapCall(cfg, from, token, amountIn, quote.value,
                           slippage.GetOr(TradeBounds.DEFAULT_TOLERANCE), user, env.nowMs);
      var tail := MinedTx(user, swap, env.swapTx.hash, env.swapTx.success);
      var withApproval := chain.history[..|chain.history| - 1];
      assert chain.history == withApproval + [tail];
      ReplayAppend(chain.initial, withApproval, tail);
      if old(chain.AllowanceOf(user, cfg.router, sold)) < amountIn {
        var approval := MinedTx(user, Approve(sold, cfg.router, amountIn),
                                env.approveTx.hash, env.approveTx.success);
        assert withApproval == before + [approval];
        ReplayAppend(chain.initial, before, approval);
      } else {
        assert withApproval == before;
      }
    }
  }
}
