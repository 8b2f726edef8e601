/**
 * The client side of lib/memecore/native-bonding-curve-service.ts. Buying
 * pays the curve in the native M asset; selling pays it in the wiki token,
 * which the curve may only pull after an EIP-20 approval. Prices come from
 * the curve contract (`calculateBuyCost`, `calculateSellReturn`) and enter
 * the model as quoted wei amounts.
 */
module NativeBondingCurve {
  import opened Wrappers
  import opened Ledger
  import JsMath
  import TradeBounds

  datatype TradeError =
    | QuoteFailed     // "Failed to calculate buy cost" / "Failed to calculate sell return"
    | ReadFailed      // an RPC read threw
    | NotAnInteger    // `BigInt(x)` of a number with a fractional part (as-written bounds only)
    | BadArgument     // an argument that does not encode as uint256
    | WalletRefused   // the wallet refused the write
    | Reverted        // "Buy transaction failed" / "Sell transaction failed"

  /** `BuySellResult` without the display formatting: wei amounts. */
  datatype TradeReport = TradeReport(hash: string, amountIn: nat, amountOut: nat)

  /** How a trade write ends, given its submission and the figures to report. */
  function Settle(s: Submission, amountIn: nat, amountOut: nat): (r: Result<TradeReport, TradeError>)
    ensures r.Ok? <==> s.Receipt? && s.success
    ensures r.Ok? ==> r.value == TradeReport(s.hash, amountIn, amountOut)
  {
    match s
    case NotEncodable => Err(BadArgument)
    case NotSent => Err(WalletRefused)
    case Receipt(hash, success) => if success then Ok(TradeReport(hash, amountIn, amountOut)) else Err(Reverted)
  }

  // ----- Slippage bounds as written -----

  lemma WholeShift(s: real)
    ensures JsMath.IsInteger(100.0 + s) <==> JsMath.IsInteger(s)
    ensures JsMath.IsInteger(100.0 - s) <==> JsMath.IsInteger(s)
    ensures (100.0 + s).Floor == 100 + s.Floor
    ensures (100.0 - s).Floor == 100 - s.Floor || !JsMath.IsInteger(s)
  {
  }

  /**
   * Line 228 of the source: `mCost * BigInt(100 + s) / 100n`. `BigInt`
   * throws for a tolerance with a fractional part.
   */
  function MaxMInAsWritten(mCost: nat, s: real): (r: Result<int, TradeError>)
    ensures r.Ok? <==> JsMath.IsInteger(s)
    ensures r.Ok? && s >= -100.0 ==>
      0 <= r.value && r.value * 100 <= mCost * (100 + s.Floor) < r.value * 100 + 100
    ensures r.Ok? && s >= 0.0 ==> mCost <= r.value
  {
    if !JsMath.IsInteger(100.0 + s) then Err(NotAnInteger)
    else
      var f := (100.0 + s).Floor;
      WholeShift(s);
      if f >= 0 then TradeBounds.ScaledQuotientBounds(mCost, f, 100); Ok(JsMath.TruncDiv(mCost * f, 100))
      else Ok(JsMath.TruncDiv(mCost * f, 100))
  }

  /** Line 275 of the source: `mReturn * BigInt(100 - s) / 100n`. */
  function MinMOutAsWritten(mReturn: nat, s: real): (r: Result<int, TradeError>)
    ensures r.Ok? <==> JsMath.IsInteger(s)
    ensures r.Ok? && s <= 100.0 ==>
      0 <= r.value && r.value * 100 <= mReturn * (100 - s.Floor) < r.value * 100 + 100
    ensures r.Ok? && 0.0 <= s <= 100.0 ==> r.value <= mReturn
  {
    if !JsMath.IsInteger(100.0 - s) then Err(NotAnInteger)
    else
      var f := (100.0 - s).Floor;
      WholeShift(s);
      if f >= 0 then TradeBounds.ScaledQuotientBounds(mReturn, f, 100); Ok(JsMath.TruncDiv(mReturn * f, 100))
      else Ok(JsMath.TruncDiv(mReturn * f, 100))
  }

  /**
   * The trading panel offers a 0.5% tolerance, and with it both bounds
   * throw before any transaction is sent.
   */
  lemma HalfPercentToleranceThrows(mCost: nat, mReturn: nat)
    ensures MaxMInAsWritten(mCost, 0.5) == Err(NotAnInteger)
    ensures MinMOutAsWritten(mReturn, 0.5) == Err(NotAnInteger)
  {
  }

  lemma ScaledQuotient(a: int)
    ensures JsMath.TruncDiv(a * 100, 10000) == JsMath.TruncDiv(a, 100)
  {
    if a >= 0 {
      assert (a * 100) / 10000 == a / 100;
    } else {
      assert ((-a) * 100) / 10000 == (-a) / 100;
    }
  }

  /** For a whole-number tolerance the basis-point bounds equal the bounds as written. */
  lemma {:induction false} BoundsAgreeOnWholeTolerances(quote: nat, s: real)
    requires JsMath.IsInteger(s)
    ensures MaxMInAsWritten(quote, s) == Ok(TradeBounds.MaxIn(quote, s))
    ensures MinMOutAsWritten(quote, s) == Ok(TradeBounds.MinOut(quote, s))
  {
    var k := s.Floor;
    assert TradeBounds.BasisPoints(100.0 + s) == (100 + k) * 100;
    assert TradeBounds.BasisPoints(100.0 - s) == (100 - k) * 100;
    assert (100.0 + s).Floor == 100 + k;
    assert (100.0 - s).Floor == 100 - k;
    ScaledQuotient(quote * (100 + k));
    ScaledQuotient(quote * (100 - k));
    assert quote * ((100 + k) * 100) == quote * (100 + k) * 100;
    assert quote * ((100 - k) * 100) == quote * (100 - k) * 100;
  }

  // ----- Reads -----

  /** `getTokenBalance`: the balance in wei, or zero when the read throws. */
  function TokenBalanceOrZero(balance: Read<nat>): (r: nat)
    ensures balance.Threw? ==> r == 0
    ensures balance.Answer? ==> r == balance.value
  {
    match balance
    case Threw => 0
    case Answer(v) => v
  }

  /** `checkAllowance`: whether `curve` may already move `amount` of `user`'s `token`. */
  method CheckAllowance(chain: Chain, token: Address, user: Address, curve: Address,
                        amount: int, readOk: bool)
    returns (r: Result<bool, TradeError>)
    ensures r.Ok? <==> readOk
    ensures r.Ok? ==> (r.value <==> chain.AllowanceOf(user, curve, token) >= amount)
  {
    if !readOk {
      return Err(ReadFailed);
    }
    var allowance := chain.AllowanceOf(user, curve, token);
    r := Ok(allowance >= amount);
  }

  /**
   * `approveToken`: approve `curve` for `amount` of `token` and wait for the
   * receipt. The hash is returned whatever the receipt's status.
   */
  method ApproveToken(chain: Chain, user: Address, token: Address, curve: Address,
                      amount: int, tx: TxOutcome)
    returns (r: Result<string, TradeError>)
    requires chain.Valid()
    modifies chain
    ensures chain.Valid()
    ensures chain.history == old(chain.history) + Written(user, Approve(token, curve, amount), tx)
    ensures r.Ok? <==> Sent(Approve(token, curve, amount), tx)
    ensures r.Ok? ==> r.value == tx.hash
    ensures r.Ok? && tx.success ==> chain.AllowanceOf(user, curve, token) == amount
  {
    var s := chain.Submit(user, Approve(token, curve, amount), tx);
    match s
    case NotEncodable => r := Err(BadArgument);
    case NotSent => r := Err(WalletRefused);
    case Receipt(hash, _) => r := Ok(hash);
  }

  // ----- Trades -----

  /** The environment's answers during one buy. */
  datatype BuyEnv = BuyEnv(quote: Read<nat>, buyTx: TxOutcome)

  /**
   * `buyFromCurve`: quote the cost of `tokensOut`, raise it by the tolerance
   * as the source writes it, and send that bound both as `maxMIn` and as the
   * native value. A tolerance with a fractional part throws before anything
   * is sent. No allowance is read or written. The report carries the quoted
   * cost, not the bound.
   */
  method BuyFromCurve(chain: Chain, user: Address, curve: Address, tokensOut: nat,
                      slippage: Option<real>, env: BuyEnv)
    returns (r: Result<TradeReport, TradeError>)
    requires chain.Valid()
    modifies chain
    ensures chain.Valid()
    ensures chain.allowance == old(chain.allowance)
    ensures env.quote.Threw? ==> r == Err(QuoteFailed) && chain.history == old(chain.history)
    ensures !JsMath.IsInteger(slippage.GetOr(TradeBounds.DEFAULT_TOLERANCE)) ==>
      r.Err? && chain.history == old(chain.history)
    ensures env.quote.Answer? && JsMath.IsInteger(slippage.GetOr(TradeBounds.DEFAULT_TOLERANCE)) ==>
      var maxMIn := MaxMInAsWritten(env.quote.value, slippage.GetOr(TradeBounds.DEFAULT_TOLERANCE)).value;
      var buy := CurveBuy(curve, tokensOut, maxMIn, maxMIn);
      && chain.history == old(chain.history) + Written(user, buy, env.buyTx)
      && r == Settle(SubmissionOf(buy, env.buyTx), env.quote.value, tokensOut)
  {
    if env.quote.Threw? {
      return Err(QuoteFailed);
    }
    var mCost := env.quote.value;
    var bound := MaxMInAsWritten(mCost, slippage.GetOr(TradeBounds.DEFAULT_TOLERANCE));
    if bound.Err? {
      return Err(bound.error);
    }
    var maxMIn := bound.value;
    var s := chain.Submit(user, CurveBuy(curve, tokensOut, maxMIn, maxMIn), env.buyTx);
    r := Settle(s, mCost, tokensOut);
  }

  /** The environment's answers during one sell. */
  datatype SellEnv = SellEnv(
    wikiToken: Read<Address>,
    quote: Read<nat>,
    allowanceReadOk: bool,
    approveTx: TxOutcome,
    sellTx: TxOutcome)

  /**
   * `sellToCurve`: find the wiki token, quote the return, lower it by the
   * tolerance as the source writes it (a fractional tolerance throws there,
   * before any allowance read or write), and approve the curve for exactly `tokensIn` when the current
   * allowance is below it, waiting for that approval before the sell is
   * submitted. The approval's receipt status is not checked. The report
   * carries the quoted return, not the bound.
   */
  method SellToCurve(chain: Chain, user: Address, curve: Address, tokensIn: nat,
                     slippage: Option<real>, env: SellEnv)
    returns (r: Result<TradeReport, TradeError>)
    requires chain.Valid()
    modifies chain
    ensures chain.Valid()
    ensures env.wikiToken.Threw? || env.quote.Threw? || !env.allowanceReadOk ==>
      r.Err? && chain.history == old(chain.history)
    ensures env.wikiToken.Answer? && env.quote.Answer? && !JsMath.IsInteger(slippage.GetOr(TradeBounds.DEFAULT_TOLERANCE)) ==>
      r == Err(NotAnInteger) && chain.history == old(chain.history)
    ensures && env.wikiToken.Answer? && env.quote.Answer? && env.allowanceReadOk
            && JsMath.IsInteger(slippage.GetOr(TradeBounds.DEFAULT_TOLERANCE)) ==>
      var token := env.wikiToken.value;
      var needsApproval := old(chain.AllowanceOf(user, curve, token)) < tokensIn;
      var approve := Approve(token, curve, tokensIn);
      var minMOut := MinMOutAsWritten(env.quote.value, slippage.GetOr(TradeBounds.DEFAULT_TOLERANCE)).value;
      var sell := CurveSell(curve, tokensIn, minMOut);
      var approved := needsApproval ==> Sent(approve, env.approveTx);
      && chain.history == old(chain.history)
                          + (if needsApproval then Written(user, approve, env.approveTx) else [])
                          + (if approved then Written(user, sell, env.sellTx) else [])
      && (approved ==> r == Settle(SubmissionOf(sell, env.sellTx), tokensIn, env.quote.value))
      && (!approved ==> r.Err?)
  {
    if env.wikiToken.Threw? {
      return Err(ReadFailed);
    }
    var token := env.wikiToken.value;
    if env.quote.Threw? {
      return Err(QuoteFailed);
    }
    var mReturn := env.quote.value;
    var bound := MinMOutAsWritten(mReturn, slippage.GetOr(TradeBounds.DEFAULT_TOLERANCE));
    if bound.Err? {
      return Err(bound.error);
    }
    var minMOut := bound.value;
    if !env.allowanceReadOk {
      return Err(ReadFailed);
    }
    var current := chain.AllowanceOf(user, curve, token);
    if current < tokensIn {
      var a := chain.Submit(user, Approve(token, curve, tokensIn), env.approveTx);
      if a.NotEncodable? {
        return Err(BadArgument);
      } else if a.NotSent? {
        return Err(WalletRefused);
      }
    }
    var s := chain.Submit(user, CurveSell(curve, tokensIn, minMOut), env.sellTx);
    r := Settle(s, tokensIn, mReturn);
  }

  /**
   * A sell that succeeds was submitted either under an allowance that
   * already covered `tokensIn`, or right after an approval of exactly
   * `tokensIn` to the curve on the wiki token was mined.
   */
  method SellAfterApproval(chain: Chain, user: Address, curve: Address, tokensIn: nat,
                           slippage: Option<real>, env: SellEnv)
    returns (r: Result<TradeReport, TradeError>)
    requires chain.Valid()
    modifies chain
    ensures chain.Valid()
    ensures r.Ok? ==>
      && env.wikiToken.Answer? && env.quote.Answer?
      && JsMath.IsInteger(slippage.GetOr(TradeBounds.DEFAULT_TOLERANCE))
      && |chain.history| > |old(chain.history)|
      && chain.history[|chain.history| - 1].call
         == CurveSell(curve, tokensIn, MinMOutAsWritten(env.quote.value, slippage.GetOr(TradeBounds.DEFAULT_TOLERANCE)).value)
      && (old(chain.AllowanceOf(user, curve, env.wikiToken.value)) >= tokensIn
          || (env.approveTx.Mined? && chain.history[|old(chain.history)|]
             == MinedTx(user, Approve(env.wikiToken.value, curve, tokensIn), env.approveTx.hash, env.approveTx.success)))
  {
    r := SellToCurve(chain, user, curve, tokensIn, slippage, env);
  }
}
