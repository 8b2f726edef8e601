/**
 * The slice of chain state the client-side services read and write: the
 * ERC-20 allowances of the "Methods" section of EIP-20 (`allowance` and
 * `approve`), kept as a map from (owner, spender, token) to an amount, and
 * the ordered list of writes the wallet has had mined.
 *
 * The contracts behind the other writes (bonding-curve `buy`/`sell`, router
 * swaps, pair creation, liquidity) are not part of this model: their writes
 * are recorded with their receipt status and change no allowance.
 */
module Ledger {
  import opened Wrappers

  type Address = string

  const ZERO_ADDRESS: Address := "0x0000000000000000000000000000000000000000"

  /** 2^256: every integer argument of a contract call must lie below it. */
  const UINT256_LIMIT: int := 0x1_0000_0000_0000_0000_0000_0000_0000_0000_0000_0000_0000_0000_0000_0000_0000_0000

  predicate IsUint256(x: int) { 0 <= x < UINT256_LIMIT }

  /** An environment variable or optional prop: JavaScript treats "" and a missing value alike. */
  predicate IsSet(a: Address) { a != "" }

  /** A read of chain state through RPC: it answers, or the call throws. */
  datatype Read<+T> = Threw | Answer(value: T)

  /** The contract calls the services submit, with their integer arguments. */
  datatype Call =
    | Approve(token: Address, spender: Address, amount: int)
    | CurveBuy(curve: Address, tokensOut: int, maxMIn: int, value: int)
    | CurveSell(curve: Address, tokensIn: int, minMOut: int)
    | SwapExactTokensForTokens(router: Address, amountIn: int, amountOutMin: int,
                               path: seq<Address>, to: Address, deadline: int)
    | CreatePair(factory: Address, tokenA: Address, tokenB: Address)
    | AddLiquidity(router: Address, tokenA: Address, tokenB: Address,
                   amountADesired: int, amountBDesired: int,
                   amountAMin: int, amountBMin: int, to: Address, deadline: int)
  {
    /** ABI encoding of a `uint256` argument throws unless it is in range. */
    predicate Encodable() {
      match this
      case Approve(_, _, amount) => IsUint256(amount)
      case CurveBuy(_, tokensOut, maxMIn, value) =>
        IsUint256(tokensOut) && IsUint256(maxMIn) && IsUint256(value)
      case CurveSell(_, tokensIn, minMOut) => IsUint256(tokensIn) && IsUint256(minMOut)
      case SwapExactTokensForTokens(_, amountIn, amountOutMin, _, _, deadline) =>
        IsUint256(amountIn) && IsUint256(amountOutMin) && IsUint256(deadline)
      case CreatePair(_, _, _) => true
      case AddLiquidity(_, _, _, aDesired, bDesired, aMin, bMin, _, deadline) =>
        IsUint256(aDesired) && IsUint256(bDesired) && IsUint256(aMin) && IsUint256(bMin)
        && IsUint256(deadline)
    }
  }

  /**
   * What the wallet and the chain do with one write: the wallet refuses it
   * (`writeContract` throws), or it is mined with a receipt whose status is
   * success or reverted.
   */
  datatype TxOutcome = Refused | Mined(hash: string, success: bool)

  /** The outcome of submitting a call, as the caller of `writeContract` sees it. */
  datatype Submission = NotEncodable | NotSent | Receipt(hash: string, success: bool)

  /** One mined write. */
  datatype Mined = MinedTx(sender: Address, call: Call, hash: string, success: bool)

  datatype Key = Key(owner: Address, spender: Address, token: Address)

  /** EIP-20 `approve`: a successful call SETS the allowance; other writes leave allowances alone. */
  function ApplyMined(allowance: map<Key, nat>, m: Mined): map<Key, nat> {
    if m.success && m.call.Approve? && m.call.amount >= 0
    then allowance[Key(m.sender, m.call.spender, m.call.token) := m.call.amount]
    else allowance
  }

  /** The allowances after the mined writes `h`, starting from `initial`. */
  function Replay(initial: map<Key, nat>, h: seq<Mined>): map<Key, nat> {
    if h == [] then initial else ApplyMined(Replay(initial, h[..|h| - 1]), h[|h| - 1])
  }

  /** Replaying one more mined write applies it to the allowances replayed so far. */
  lemma ReplayAppend(initial: map<Key, nat>, h: seq<Mined>, m: Mined)
    ensures Replay(initial, h + [m]) == ApplyMined(Replay(initial, h), m)
  {
    assert (h + [m])[..|h|] == h;
  }

  /** Appending an encodable mined write keeps the allowances equal to the replay. */
  lemma AppendKeepsReplay(initial: map<Key, nat>, h: seq<Mined>, allowance: map<Key, nat>, m: Mined)
    requires allowance == Replay(initial, h)
    requires forall i :: 0 <= i < |h| ==> h[i].call.Encodable()
    requires m.call.Encodable()
    ensures ApplyMined(allowance, m) == Replay(initial, h + [m])
    ensures forall i :: 0 <= i < |h + [m]| ==> (h + [m])[i].call.Encodable()
  {
    ReplayAppend(initial, h, m);
    forall i | 0 <= i < |h + [m]|
      ensures (h + [m])[i].call.Encodable()
    {
      if i < |h| {
        assert (h + [m])[i] == h[i];
      }
    }
  }

  /** EIP-20 `allowance`: an owner/spender pair never approved reads as zero. */
  function AllowanceIn(allowance: map<Key, nat>, k: Key): nat {
    if k in allowance then allowance[k] else 0
  }

  predicate IsApprovalOf(m: Mined, k: Key) {
    m.success && m.call.Approve? && m.call.amount >= 0
    && Key(m.sender, m.call.spender, m.call.token) == k
  }

  /**
   * The last successful approval for a key decides its allowance: approving
   * overwrites rather than adds, and writes that are not approvals of that
   * key do not touch it.
   */
  lemma {:induction false} LastApprovalWins(initial: map<Key, nat>, h: seq<Mined>, i: nat, k: Key)
    requires i < |h| && IsApprovalOf(h[i], k)
    requires forall j :: i < j < |h| ==> !IsApprovalOf(h[j], k)
    ensures AllowanceIn(Replay(initial, h), k) == h[i].call.amount
  {
    if i < |h| - 1 {
      var h' := h[..|h| - 1];
      assert h'[i] == h[i];
      forall j | i < j < |h'| ensures !IsApprovalOf(h'[j], k) {
        assert h'[j] == h[j];
      }
      LastApprovalWins(initial, h', i, k);
    }
  }

  /** With no successful approval for a key, its allowance is the initial one. */
  lemma {:induction false} NoApprovalNoChange(initial: map<Key, nat>, h: seq<Mined>, k: Key)
    requires forall j :: 0 <= j < |h| ==> !IsApprovalOf(h[j], k)
    ensures AllowanceIn(Replay(initial, h), k) == AllowanceIn(initial, k)
  {
    if h != [] {
      var h' := h[..|h| - 1];
      forall j | 0 <= j < |h'| ensures !IsApprovalOf(h'[j], k) {
        assert h'[j] == h[j];
      }
      NoApprovalNoChange(initial, h', k);
    }
  }

  /** Whether `Submit` puts a call on chain: it encodes and the wallet sends it. */
  predicate Sent(call: Call, outcome: TxOutcome) {
    call.Encodable() && outcome.Mined?
  }

  /** What `Submit` appends to the history for this call and outcome. */
  function Written(sender: Address, call: Call, outcome: TxOutcome): seq<Mined> {
    if Sent(call, outcome) then [MinedTx(sender, call, outcome.hash, outcome.success)] else []
  }

  /** What `Submit` reports for this call and outcome. */
  function SubmissionOf(call: Call, outcome: TxOutcome): Submission {
    if !call.Encodable() then NotEncodable
    else if outcome.Refused? then NotSent
    else Receipt(outcome.hash, outcome.success)
  }

  /** The chain as the services see it. */
  class Chain {
    ghost const initial: map<Key, nat>
    var allowance: map<Key, nat>
    var history: seq<Mined>

    /** The allowances are exactly what the mined approvals made of the initial ones. */
    ghost predicate Valid()
      reads this
    {
      && allowance == Replay(initial, history)
      && forall i :: 0 <= i < |history| ==> history[i].call.Encodable()
    }

    /** EIP-20 `allowance(owner, spender)` on `token`. */
    function AllowanceOf(owner: Address, spender: Address, token: Address): nat
      reads this
    {
      AllowanceIn(allowance, Key(owner, spender, token))
    }

    constructor (allowance0: map<Key, nat>)
      ensures Valid() && initial == allowance0
      ensures allowance == allowance0 && history == []
    {
      initial := allowance0;
      allowance := allowance0;
      history := [];
    }

    /**
     * `writeContract` followed by `waitForTransactionReceipt`: a call whose
     * arguments do not encode is rejected before it reaches the wallet; a
     * refused call changes nothing; a mined call is appended to the history
     * and, if it is a successful approval, sets that allowance.
     */
    method Submit(sender: Address, call: Call, outcome: TxOutcome) returns (s: Submission)
      requires Valid()
      modifies this
      ensures Valid()
      ensures s == SubmissionOf(call, outcome)
      ensures s.Receipt? <==> Sent(call, outcome)
      ensures history == old(history) + Written(sender, call, outcome)
      ensures allowance == (if s.Receipt? then ApplyMined(old(allowance), history[|history| - 1])
                            else old(allowance))
    {
      if !call.Encodable() {
        return NotEncodable;
      }
      if outcome.Refused? {
        return NotSent;
      }
      var m := MinedTx(sender, call, outcome.hash, outcome.success);
      AppendKeepsReplay(initial, history, allowance, m);
      history := history + [m];
      allowance := ApplyMined(allowance, m);
      s := Receipt(outcome.hash, outcome.success);
    }
  }
}
