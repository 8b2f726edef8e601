// The buy/sell panel of a wiki page (components/wiki/trading-panel.tsx):
// which back-end trades, whether an approval is needed, the balance check,
// the Max button, the action button's priority, and the two click handlers.
// Amounts the user types are exact wei integers instead of `parseFloat`
// strings; React state is the fields of class `Panel`.

module TradingPanel {
  import opened Wrappers
  import opened Ledger
  import NativeBondingCurve
  import SwapService
  import TradeBounds
  import JsMath

  /** The component's props. */
  datatype Props = Props(
    tokenAddress: Address,
    tokenSymbol: string,
    poolAddress: Option<Address>,
    bondingCurveAddress: Option<Address>)

  /** JavaScript `!!x` on an optional address: present and not empty. */
  predicate Given(a: Option<Address>) {
    a.Some? && IsSet(a.value)
  }

  function UseBondingCurve(p: Props): bool {
    Given(p.bondingCurveAddress)
  }

  function UseAMM(p: Props): bool {
    Given(p.poolAddress) && p.poolAddress.value != ZERO_ADDRESS && !UseBondingCurve(p)
  }

  /** Which service the panel's handlers dispatch to. */
  datatype Backend = Curve(curve: Address) | Amm | NoBackend

  function BackendOf(p: Props): (b: Backend)
    ensures b.Curve? <==> UseBondingCurve(p)
    ensures b.Curve? ==> p.bondingCurveAddress == Some(b.curve)
    ensures b.Amm? <==> UseAMM(p)
    ensures b.NoBackend? <==> !UseBondingCurve(p) && !UseAMM(p)
    ensures p.poolAddress.None? || p.poolAddress == Some(ZERO_ADDRESS) ==> !b.Amm?
  {
    if UseBondingCurve(p) then Curve(p.bondingCurveAddress.value)
    else if UseAMM(p) then Amm
    else NoBackend
  }

  /** A bonding curve is always tradable; a pool needs the router and the M token configured. */
  function TradingAvailable(p: Props, cfg: SwapService.SwapConfig): (available: bool)
    ensures UseBondingCurve(p) ==> available
    ensures !UseBondingCurve(p) ==> (available <==> UseAMM(p) && cfg.Configured())
  {
    UseBondingCurve(p) || (UseAMM(p) && cfg.Configured())
  }

  /** Without a curve, a missing or zero pool address leaves nothing to trade. */
  lemma NoCurveZeroPoolUnavailable(p: Props, cfg: SwapService.SwapConfig)
    requires !UseBondingCurve(p)
    requires p.poolAddress.None? || p.poolAddress == Some(ZERO_ADDRESS)
    ensures !TradingAvailable(p, cfg)
    ensures BackendOf(p).NoBackend?
  {
    var b := BackendOf(p);
  }

  datatype Mode = Buy | Sell

  /**
   * An amount field: empty, or a decimal the user typed, read as wei.
   * `parseUnits('')` is 0, so an empty field counts as zero wei.
   */
  datatype Amount = Empty | Entered(wei: int) {
    /** The negation of `!amount || parseFloat(amount) <= 0`. */
    predicate Positive() {
      Entered? && wei > 0
    }

    function Wei(): int {
      if Entered? then wei else 0
    }
  }

  /**
   * The error the panel shows: the approval threw, or the trade threw. The
   * message text itself (the exception's, or a fallback) is not modelled.
   */
  datatype Failure = ApprovalFailed | TradeFailed

  /** The React state the decision rules read. */
  datatype PanelState = PanelState(
    mode: Mode,
    amountIn: Amount,
    amountOut: Amount,
    isLoading: bool,
    needsApproval: bool,
    balanceM: nat,
    balanceToken: nat)

  /** The slippage presets offered in the settings (percent). */
  const SLIPPAGE_PRESETS: seq<real> := [0.5, 1.0, 2.0]

  /**
   * The first preset cannot be used on a bonding curve as its bounds are
   * written (`BigInt(100 ± 0.5)` throws); the other two can.
   */
  lemma CurveRejectsFirstPreset(mCost: nat, mReturn: nat)
    ensures NativeBondingCurve.MaxMInAsWritten(mCost, SLIPPAGE_PRESETS[0]).Err?
    ensures NativeBondingCurve.MinMOutAsWritten(mReturn, SLIPPAGE_PRESETS[0]).Err?
    ensures forall i :: 1 <= i < |SLIPPAGE_PRESETS| ==>
      && NativeBondingCurve.MaxMInAsWritten(mCost, SLIPPAGE_PRESETS[i]).Ok?
      && NativeBondingCurve.MinMOutAsWritten(mReturn, SLIPPAGE_PRESETS[i]).Ok?
  {
    NativeBondingCurve.HalfPercentToleranceThrows(mCost, mReturn);
    NativeBondingCurve.BoundsAgreeOnWholeTolerances(mCost, 1.0);
    NativeBondingCurve.BoundsAgreeOnWholeTolerances(mReturn, 1.0);
    NativeBondingCurve.BoundsAgreeOnWholeTolerances(mCost, 2.0);
    NativeBondingCurve.BoundsAgreeOnWholeTolerances(mReturn, 2.0);
  }

  // ----- Balances and the Max button -----

  /** The balance the user gives up in this mode: M when buying, the wiki token when selling. */
  function PaidBalance(s: PanelState): nat {
    if s.mode == Buy then s.balanceM else s.balanceToken
  }

  /**
   * `insufficientBalance`: a bonding-curve buy compares the quoted M cost
   * (`amountOut`) with the M balance and is false without a quote; every
   * other trade compares `amountIn` with the balance it spends.
   */
  function InsufficientBalance(p: Props, s: PanelState): (insufficient: bool)
    ensures !s.amountIn.Positive() ==> !insufficient
    ensures UseBondingCurve(p) && s.mode == Buy ==>
      (insufficient <==> s.amountIn.Positive() && s.amountOut.Positive()
                         && s.amountOut.wei > s.balanceM)
    ensures !(UseBondingCurve(p) && s.mode == Buy) ==>
      (insufficient <==> s.amountIn.Positive() && s.amountIn.wei > PaidBalance(s))
  {
    if !s.amountIn.Positive() then false
    else if UseBondingCurve(p) then
      if s.mode == Buy then
        if !s.amountOut.Positive() then false else s.amountOut.wei > s.balanceM
      else s.amountIn.wei > s.balanceToken
    else
      var balance := if s.mode == Buy then s.balanceM else s.balanceToken;
      s.amountIn.wei > balance
  }

  /**
   * `handleMaxClick`: a bonding curve takes the wiki-token amount in both
   * modes, so Max always fills the token balance; a pool takes the amount
   * paid, so Max fills the M balance on buy and the token balance on sell.
   */
  function MaxAmount(p: Props, s: PanelState): (a: Amount)
    ensures a.Entered? && a.wei >= 0
    ensures UseBondingCurve(p) ==> a.wei == s.balanceToken
    ensures !UseBondingCurve(p) ==> a.wei == PaidBalance(s)
  {
    if UseBondingCurve(p) then Entered(s.balanceToken)
    else if s.mode == Buy then Entered(s.balanceM) else Entered(s.balanceToken)
  }

  /**
   * Max never produces an amount the balance check refuses, except on a
   * bonding-curve buy, where the check is about the quoted M cost.
   */
  lemma {:induction false} MaxIsNeverInsufficient(p: Props, s: PanelState)
    requires !(UseBondingCurve(p) && s.mode == Buy)
    ensures !InsufficientBalance(p, s.(amountIn := MaxAmount(p, s)))
  {
    var t := s.(amountIn := MaxAmount(p, s));
    assert PaidBalance(t) == PaidBalance(s);
    if UseBondingCurve(p) {
      assert s.mode == Sell;
      assert MaxAmount(p, s).wei == PaidBalance(s);
    }
  }

  /** On a bonding-curve buy a zero M balance is enough only while no cost is quoted. */
  lemma CurveBuyNeedsAQuote(p: Props, s: PanelState)
    requires UseBondingCurve(p) && s.mode == Buy && s.amountIn.Positive()
    requires s.balanceM == 0
    ensures InsufficientBalance(p, s) <==> s.amountOut.Positive()
  {
  }

  // ----- The approval check -----

  /** What the approval effect asks the chain, or decides without asking. */
  datatype ApprovalQuery =
    | NotNeeded
    | CurveAllowance(token: Address, owner: Address, curve: Address, amount: nat)
    | RouterAllowance(token: Address, owner: Address, amount: nat)
    | NoQuery

  /**
   * The approval effect: nothing is needed without an address or a
   * positive amount, or on a bonding-curve buy (paid in the native asset);
   * a bonding-curve sell asks for the wiki token's allowance to the curve;
   * a pool asks for the router's allowance on M (buy) or the token (sell);
   * with neither back-end the flag is left as it is.
   */
  function ApprovalQueryOf(p: Props, cfg: SwapService.SwapConfig, address: Option<Address>,
                           s: PanelState): (q: ApprovalQuery)
    ensures address.None? || !s.amountIn.Positive() ==> q == NotNeeded
    ensures UseBondingCurve(p) && s.mode == Buy ==> q == NotNeeded
    ensures q.CurveAllowance? ==>
      && UseBondingCurve(p) && s.mode == Sell && s.amountIn.Positive()
      && q == CurveAllowance(p.tokenAddress, address.value, p.bondingCurveAddress.value, s.amountIn.wei)
    ensures q.RouterAllowance? ==>
      && UseAMM(p) && s.amountIn.Positive() && address.Some?
      && q == RouterAllowance(if s.mode == Buy then cfg.mToken else p.tokenAddress,
                              address.value, s.amountIn.wei)
    ensures q.NoQuery? <==>
      address.Some? && s.amountIn.Positive() && BackendOf(p).NoBackend?
  {
    if address.None? || !s.amountIn.Positive() then NotNeeded
    else match BackendOf(p)
      case Curve(curve) =>
        (match s.mode
         case Buy => NotNeeded
         case Sell => CurveAllowance(p.tokenAddress, address.value, curve, s.amountIn.wei))
      case Amm =>
        RouterAllowance(if s.mode == Buy then cfg.mToken else p.tokenAddress,
                        address.value, s.amountIn.wei)
      case NoBackend => NoQuery
  }

  // ----- The Approve handler -----

  /**
   * The approval `handleApprove` writes: none on a bonding-curve buy, the
   * wiki token to the curve on a bonding-curve sell, and otherwise (pool or
   * no back-end) M or the token to the router.
   */
  function ApproveCallOf(p: Props, cfg: SwapService.SwapConfig, s: PanelState): (c: Option<Call>)
    ensures c.None? <==> UseBondingCurve(p) && s.mode == Buy
    ensures c.Some? ==> c.value.Approve? && c.value.amount == s.amountIn.Wei()
    ensures c.Some? && UseBondingCurve(p) ==>
      c.value == Approve(p.tokenAddress, p.bondingCurveAddress.value, s.amountIn.Wei())
    ensures c.Some? && !UseBondingCurve(p) ==>
      c.value == Approve(if s.mode == Buy then cfg.mToken else p.tokenAddress, cfg.router,
                         s.amountIn.Wei())
  {
    match BackendOf(p)
    case Curve(curve) =>
      if s.mode == Buy then None else Some(Approve(p.tokenAddress, curve, s.amountIn.Wei()))
    case _ =>
      Some(Approve(if s.mode == Buy then cfg.mToken else p.tokenAddress, cfg.router, s.amountIn.Wei()))
  }

  /**
   * Whenever the approval check asks about an allowance, the Approve
   * button writes exactly that allowance: same token, owner's spender and
   * amount.
   */
  lemma ApproveMatchesQuery(p: Props, cfg: SwapService.SwapConfig, address: Option<Address>,
                            s: PanelState)
    ensures ApprovalQueryOf(p, cfg, address, s).CurveAllowance? ==>
      var q := ApprovalQueryOf(p, cfg, address, s);
      ApproveCallOf(p, cfg, s) == Some(Approve(q.token, q.curve, q.amount))
    ensures ApprovalQueryOf(p, cfg, address, s).RouterAllowance? ==>
      var q := ApprovalQueryOf(p, cfg, address, s);
      ApproveCallOf(p, cfg, s) == Some(Approve(q.token, cfg.router, q.amount))
  {
    var q := ApprovalQueryOf(p, cfg, address, s);
    var c := ApproveCallOf(p, cfg, s);
    if q.RouterAllowance? {
      assert !UseBondingCurve(p);
    }
  }

  // ----- The action button -----

  datatype Button =
    | Unavailable
    | LogIn
    | Insufficient
    | ApproveButton(text: string, enabled: bool)
    | TradeButton(text: string, enabled: bool)

  /** The Approve label names M on a buy and the wiki token on a sell, whatever the back-end. */
  function ApproveLabel(p: Props, s: PanelState): (text: string)
    ensures s.isLoading ==> text == "Approving..."
    ensures !s.isLoading ==> text == "Approve " + (if s.mode == Buy then "$M" else p.tokenSymbol)
  {
    if s.isLoading then "Approving..."
    else "Approve " + (if UseBondingCurve(p) && s.mode == Buy then "$M"
                       else if UseBondingCurve(p) then p.tokenSymbol
                       else if s.mode == Buy then "$M" else p.tokenSymbol)
  }

  function TradeLabel(s: PanelState): (text: string)
    ensures text == (if s.mode == Buy then "Buy" else "Sell") + (if s.isLoading then "ing..." else "")
  {
    if s.isLoading then (if s.mode == Buy then "Buying..." else "Selling...")
    else if s.mode == Buy then "Buy" else "Sell"
  }

  /**
   * The action button, in priority order: not tradable, not connected,
   * insufficient balance, approval needed, then Buy/Sell. Only the last two
   * can be clicked, and the trade button only when an amount is entered and
   * nothing is in flight.
   */
  function ActionButton(p: Props, cfg: SwapService.SwapConfig, connected: bool, s: PanelState)
    : (b: Button)
    ensures b.Unavailable? <==> !TradingAvailable(p, cfg)
    ensures b.LogIn? <==> TradingAvailable(p, cfg) && !connected
    ensures b.Insufficient? <==>
      TradingAvailable(p, cfg) && connected && InsufficientBalance(p, s)
    ensures b.ApproveButton? <==>
      TradingAvailable(p, cfg) && connected && !InsufficientBalance(p, s) && s.needsApproval
    ensures b.TradeButton? <==>
      TradingAvailable(p, cfg) && connected && !InsufficientBalance(p, s) && !s.needsApproval
    ensures b.ApproveButton? ==> b.enabled == !s.isLoading && b.text == ApproveLabel(p, s)
    ensures b.TradeButton? ==> (b.enabled <==> !s.isLoading && s.amountIn.Positive()) && b.text == TradeLabel(s)
    ensures b.TradeButton? && b.enabled ==>
      && TradingAvailable(p, cfg) && connected && !InsufficientBalance(p, s)
      && !s.needsApproval && !s.isLoading && s.amountIn.Positive()
  {
    if !TradingAvailable(p, cfg) then Unavailable
    else if !connected then LogIn
    else if InsufficientBalance(p, s) then Insufficient
    else if s.needsApproval then ApproveButton(ApproveLabel(p, s), !s.isLoading)
    else TradeButton(TradeLabel(s), !(s.isLoading || !s.amountIn.Positive()))
  }

  // ----- The trade handler -----

  /** Whether `call` is the trade the panel submits for this back-end, mode and amount. */
  predicate IsTradeCall(call: Call, b: Backend, cfg: SwapService.SwapConfig, token: Address,
                        mode: Mode, amount: int)
  {
    match b
    case Curve(curve) =>
      if mode == Buy then call.CurveBuy? && call.curve == curve && call.tokensOut == amount
      else call.CurveSell? && call.curve == curve && call.tokensIn == amount
    case Amm =>
      && call.SwapExactTokensForTokens? && call.router == cfg.router && call.amountIn == amount
      && call.path == SwapService.SwapPath(cfg, if mode == Buy then SwapService.M else SwapService.Token, token)
    case NoBackend => false
  }

  /** `h` extends `h0`, and its last write is a successful `user` trade of this kind. */
  predicate EndsWithTrade(h: seq<Mined>, h0: seq<Mined>, user: Address, b: Backend,
                          cfg: SwapService.SwapConfig, token: Address, mode: Mode, amount: int)
  {
    && |h| > |h0| && h[..|h0|] == h0
    && h[|h| - 1].sender == user && h[|h| - 1].success
    && IsTradeCall(h[|h| - 1].call, b, cfg, token, mode, amount)
  }

  /** The environment's answers during one click of Buy/Sell. */
  datatype TradeRound = TradeRound(
    buy: NativeBondingCurve.BuyEnv,
    sell: NativeBondingCurve.SellEnv,
    swap: SwapService.SwapEnv,
    balanceM: Read<nat>,
    balanceToken: Read<nat>)

  lemma SuccessfulWrite(h0: seq<Mined>, user: Address, call: Call, tx: TxOutcome)
    requires SubmissionOf(call, tx).Receipt? && SubmissionOf(call, tx).success
    ensures Sent(call, tx) && tx.success
    ensures var h := h0 + Written(user, call, tx);
      |h| == |h0| + 1 && h[..|h0|] == h0 && h[|h0|] == MinedTx(user, call, tx.hash, true)
  {
  }

  /** A bonding-curve buy from the panel; a completed one ends with its successful write. */
  method BuyOnCurve(chain: Chain, user: Address, curve: Address, amount: nat, slippage: real,
                    env: NativeBondingCurve.BuyEnv)
    returns (traded: bool)
    requires chain.Valid()
    modifies chain
    ensures chain.Valid()
    ensures chain.allowance == old(chain.allowance)
    ensures !JsMath.IsInteger(slippage) ==> !traded && chain.history == old(chain.history)
    ensures traded ==>
      EndsWithTrade(chain.history, old(chain.history), user, Curve(curve),
                    SwapService.SwapConfig("", ""), "", Buy, amount)
  {
    ghost var h0 := chain.history;
    var r := NativeBondingCurve.BuyFromCurve(chain, user, curve, amount, Some(slippage), env);
    traded := r.Ok?;
    if traded {
      var maxMIn := NativeBondingCurve.MaxMInAsWritten(env.quote.value, slippage).value;
      SuccessfulWrite(h0, user, CurveBuy(curve, amount, maxMIn, maxMIn), env.buyTx);
    }
  }

  /** A bonding-curve sell from the panel; a completed one ends with its successful write. */
  method SellOnCurve(chain: Chain, user: Address, curve: Address, amount: nat, slippage: real,
                     env: NativeBondingCurve.SellEnv)
    returns (traded: bool)
    requires chain.Valid()
    modifies chain
    ensures chain.Valid()
    ensures !JsMath.IsInteger(slippage) ==> !traded && chain.history == old(chain.history)
    ensures traded ==>
      EndsWithTrade(chain.history, old(chain.history), user, Curve(curve),
                    SwapService.SwapConfig("", ""), "", Sell, amount)
  {
    ghost var h0 := chain.history;
    ghost var before := chain.allowance;
    var r := NativeBondingCurve.SellToCurve(chain, user, curve, amount, Some(slippage), env);
    traded := r.Ok?;
    if traded {
      var token := env.wikiToken.value;
      var needs := AllowanceIn(before, Key(user, curve, token)) < amount;
      var approve := Approve(token, curve, amount);
      var sell := CurveSell(curve, amount, NativeBondingCurve.MinMOutAsWritten(env.quote.value, slippage).value);
      var h1 := h0 + (if needs then Written(user, approve, env.approveTx) else []);
      SuccessfulWrite(h1, user, sell, env.sellTx);
      assert chain.history == h1 + Written(user, sell, env.sellTx);
      assert chain.history[..|h0|] == h1[..|h0|];
    }
  }

  /** A pool swap from the panel; a completed one ends with its successful write. */
  method SwapOnPool(chain: Chain, cfg: SwapService.SwapConfig, user: Address, token: Address,
                    mode: Mode, amount: nat, slippage: real, env: SwapService.SwapEnv)
    returns (traded: bool)
    requires chain.Valid()
    modifies chain
    ensures chain.Valid()
    ensures traded ==>
      EndsWithTrade(chain.history, old(chain.history), user, Amm, cfg, token, mode, amount)
  {
    ghost var h0 := chain.history;
    ghost var before := chain.allowance;
    var from := if mode == Buy then SwapService.M else SwapService.Token;
    var r := SwapService.ExecuteSwap(chain, cfg, from, token, amount, Some(slippage), user, env);
    traded := r.Ok?;
    if traded {
      var sold := SwapService.TokenOf(cfg, from, token);
      var needs := AllowanceIn(before, Key(user, cfg.router, sold)) < amount;
      var approve := Approve(sold, cfg.router, amount);
      var quote := env.getAmountsOut(amount, SwapService.SwapPath(cfg, from, token));
      var swap := SwapService.SwapCall(cfg, from, token, amount, quote.value,
                                       slippage, user, env.nowMs);
      var h1 := h0 + (if needs then Written(user, approve, env.approveTx) else []);
      assert chain.history == h1 + Written(user, swap, env.swapTx);
      assert chain.history[..|h0|] == h1[..|h0|];
    }
  }

  class Panel {
    const props: Props
    /** The router and M token addresses the environment configures. */
    const cfg: SwapService.SwapConfig
    var mode: Mode
    var amountIn: Amount
    var amountOut: Amount
    var slippage: real
    var isLoading: bool
    var needsApproval: bool
    var balanceM: nat
    var balanceToken: nat
    var error: Option<Failure>

    function State(): PanelState
      reads this
    {
      PanelState(mode, amountIn, amountOut, isLoading, needsApproval, balanceM, balanceToken)
    }

    /** The initial `useState` values: buy mode, empty fields, 1% tolerance, zero balances. */
    constructor (props0: Props, cfg0: SwapService.SwapConfig)
      ensures props == props0 && cfg == cfg0
      ensures mode == Buy && amountIn == Empty && amountOut == Empty && slippage == 1.0
      ensures !isLoading && !needsApproval && balanceM == 0 && balanceToken == 0
      ensures error.None?
    {
      props := props0;
      cfg := cfg0;
      mode := Buy;
      amountIn := Empty;
      amountOut := Empty;
      slippage := 1.0;
      isLoading := false;
      needsApproval := false;
      balanceM := 0;
      balanceToken := 0;
      error := None;
    }

    /** `handleMaxClick`. */
    method MaxClick()
      modifies this`amountIn
      ensures amountIn == MaxAmount(props, old(State()))
    {
      if UseBondingCurve(props) {
        amountIn := Entered(balanceToken);
      } else if mode == Buy {
        amountIn := Entered(balanceM);
      } else {
        amountIn := Entered(balanceToken);
      }
    }

    /**
     * The approval effect. A failed allowance read (or a pool without a
     * router) rejects the effect's promise, leaving the flag unchanged.
     */
    method CheckApproval(chain: Chain, address: Option<Address>, readOk: bool)
      modifies this`needsApproval
      ensures var q := ApprovalQueryOf(props, cfg, address, old(State()));
        && (q.NotNeeded? ==> !needsApproval)
        && (q.CurveAllowance? ==>
              needsApproval == if readOk then chain.AllowanceOf(q.owner, q.curve, q.token) < q.amount
                               else old(needsApproval))
        && (q.RouterAllowance? ==>
              needsApproval == if IsSet(cfg.router) && readOk
                               then chain.AllowanceOf(q.owner, cfg.router, q.token) < q.amount
                               else old(needsApproval))
        && (q.NoQuery? ==> needsApproval == old(needsApproval))
    {
      var q := ApprovalQueryOf(props, cfg, address, State());
      match q
      case NotNeeded =>
        needsApproval := false;
      case CurveAllowance(token, owner, curve, amount) =>
        var has := NativeBondingCurve.CheckAllowance(chain, token, owner, curve, amount, readOk);
        if has.Ok? {
          needsApproval := !has.value;
        }
      case RouterAllowance(token, owner, amount) =>
        var has := SwapService.CheckAllowance(chain, cfg, token, owner, amount, readOk);
        if has.Ok? {
          needsApproval := !has.value;
        }
      case NoQuery =>
    }

    /**
     * `handleApprove`: without an address nothing happens. Otherwise the
     * approval of `ApproveCallOf` is written (none on a bonding-curve buy);
     * when it goes through the flag is cleared, whatever the receipt's
     * status; when it throws the error is shown and the flag kept. The
     * loading flag ends cleared either way.
     */
    method HandleApprove(chain: Chain, address: Option<Address>, tx: TxOutcome)
      requires chain.Valid()
      modifies this`isLoading, this`error, this`needsApproval, chain
      ensures chain.Valid()
      ensures address.None? ==>
        && chain.history == old(chain.history)
        && isLoading == old(isLoading) && error == old(error) && needsApproval == old(needsApproval)
      ensures address.Some? ==> !isLoading
      ensures address.Some? ==>
        var c := ApproveCallOf(props, cfg, old(State()));
        && (c.None? ==> chain.history == old(chain.history) && !needsApproval && error.None?)
        && (c.Some? && !UseBondingCurve(props) && !IsSet(cfg.router) ==>
              chain.history == old(chain.history) && error == Some(ApprovalFailed)
              && needsApproval == old(needsApproval))
        && (c.Some? && (UseBondingCurve(props) || IsSet(cfg.router)) ==>
              && chain.history == old(chain.history) + Written(address.value, c.value, tx)
              && (error.None? <==> Sent(c.value, tx))
              && (error.None? ==> !needsApproval)
              && (error.Some? ==> error == Some(ApprovalFailed) && needsApproval == old(needsApproval))
              && (error.None? && tx.success ==>
                    chain.AllowanceOf(address.value, c.value.spender, c.value.token) == c.value.amount))
    {
      if address.None? {
        return;
      }
      var user := address.value;
      isLoading := true;
      error := None;
      var ok := true;
      match BackendOf(props) {
        case Curve(curve) =>
          if mode == Sell {
            var r := NativeBondingCurve.ApproveToken(chain, user, props.tokenAddress, curve, amountIn.Wei(), tx);
            ok := r.Ok?;
          }
        case _ =>
          var token := if mode == Buy then cfg.mToken else props.tokenAddress;
          var r := SwapService.ApproveToken(chain, cfg, user, token, amountIn.Wei(), tx);
          ok := r.Ok?;
      }
      if ok {
        needsApproval := false;
      } else {
        error := Some(ApprovalFailed);
      }
      isLoading := false;
    }

    /**
     * Submit the trade for the current back-end and mode. A negative amount
     * cannot be encoded as `uint256`, so every service call with it throws
     * before any write, and so does a bonding-curve trade at a tolerance with
     * a fractional part; with no back-end nothing is called and the trade
     * counts as done.
     */
    method Trade(chain: Chain, user: Address, env: TradeRound) returns (traded: bool)
      requires chain.Valid()
      modifies chain
      ensures chain.Valid()
      ensures BackendOf(props).NoBackend? ==> traded && chain.history == old(chain.history)
      ensures BackendOf(props).Curve? && mode == Buy ==> chain.allowance == old(chain.allowance)
      ensures amountIn.Wei() < 0 && !BackendOf(props).NoBackend? ==>
        !traded && chain.history == old(chain.history)
      ensures BackendOf(props).Curve? && !JsMath.IsInteger(slippage) ==>
        !traded && chain.history == old(chain.history)
      ensures traded && !BackendOf(props).NoBackend? ==>
        EndsWithTrade(chain.history, old(chain.history), user, BackendOf(props), cfg,
                      props.tokenAddress, mode, amountIn.Wei())
    {
      var b := BackendOf(props);
      if b.NoBackend? {
        return true;
      }
      if amountIn.Wei() < 0 {
        return false;
      }
      var amount: nat := amountIn.Wei();
      match b
      case Curve(curve) =>
        if mode == Buy {
          traded := BuyOnCurve(chain, user, curve, amount, slippage, env.buy);
        } else {
          traded := SellOnCurve(chain, user, curve, amount, slippage, env.sell);
        }
      case Amm =>
        traded := SwapOnPool(chain, cfg, user, props.tokenAddress, mode, amount, slippage, env.swap);
    }

    /**
     * `handleSwap`: without an address nothing happens. A trade that throws
     * leaves the fields and balances alone and shows the error. A trade that
     * completes clears both amount fields and then re-reads both balances;
     * if either read throws, neither balance is updated and the error is
     * shown. The loading flag ends cleared either way.
     */
    method HandleSwap(chain: Chain, address: Option<Address>, env: TradeRound)
      returns (traded: bool)
      requires chain.Valid()
      modifies this`isLoading, this`error, this`amountIn, this`amountOut, this`balanceM,
               this`balanceToken, chain
      ensures chain.Valid()
      ensures address.None? ==>
        && !traded && chain.history == old(chain.history)
        && isLoading == old(isLoading) && error == old(error) && amountIn == old(amountIn)
        && amountOut == old(amountOut) && balanceM == old(balanceM)
        && balanceToken == old(balanceToken)
      ensures address.Some? ==> !isLoading
      ensures BackendOf(props).Curve? && mode == Buy ==> chain.allowance == old(chain.allowance)
      ensures traded && !BackendOf(props).NoBackend? ==>
        EndsWithTrade(chain.history, old(chain.history), address.value, BackendOf(props), cfg,
                      props.tokenAddress, mode, old(amountIn).Wei())
      ensures address.Some? && BackendOf(props).NoBackend? ==> traded
      ensures !traded ==>
        && amountIn == old(amountIn) && amountOut == old(amountOut)
        && balanceM == old(balanceM) && balanceToken == old(balanceToken)
      ensures address.Some? && !traded ==> error == Some(TradeFailed)
      ensures traded ==> amountIn == Empty && amountOut == Empty
      ensures traded ==>
        var tokenRead := if UseBondingCurve(props)
                         then Answer(NativeBondingCurve.TokenBalanceOrZero(env.balanceToken))
                         else env.balanceToken;
        if env.balanceM.Answer? && tokenRead.Answer?
        then balanceM == env.balanceM.value && balanceToken == tokenRead.value && error.None?
        else balanceM == old(balanceM) && balanceToken == old(balanceToken)
             && error == Some(TradeFailed)
    {
      if address.None? {
        return false;
      }
      isLoading := true;
      error := None;
      traded := Trade(chain, address.value, env);
      if !traded {
        error := Some(TradeFailed);
        isLoading := false;
        return;
      }
      amountIn := Empty;
      amountOut := Empty;
      if UseBondingCurve(props) {
        if env.balanceM.Threw? {
          error := Some(TradeFailed);
        } else {
          var token := NativeBondingCurve.TokenBalanceOrZero(env.balanceToken);
          balanceM := env.balanceM.value;
          balanceToken := token;
        }
      } else {
        var m := SwapService.GetTokenBalance(env.balanceM);
        var token := SwapService.GetTokenBalance(env.balanceToken);
        if m.Err? || token.Err? {
          error := Some(TradeFailed);
        } else {
          balanceM := m.value;
          balanceToken := token.value;
        }
      }
      isLoading := false;
    }
  }
}
