/**
 * lib/memecore/pool-service.ts: finding a wiki token's pool through the
 * factory and reading its reserves the right way round. The pair's two
 * reserves come in token0/token1 order, which the factory decides; the
 * service compares token0 with the M token address, ignoring case.
 */
module PoolService {
  import opened Wrappers
  import opened Ledger
  import Strings

  /** `NEXT_PUBLIC_MEMESWAP_FACTORY_ADDRESS` and `NEXT_PUBLIC_M_TOKEN_ADDRESS`. */
  datatype PoolConfig = PoolConfig(factory: Address, mToken: Address) {
    predicate Configured() { IsSet(factory) && IsSet(mToken) }
  }

  /** `getPoolAddress`: the pair, or null when unconfigured, when there is none, or when the read throws. */
  function GetPoolAddress(cfg: PoolConfig, pair: Read<Address>): (r: Option<Address>)
    ensures r.Some? <==> cfg.Configured() && pair.Answer? && pair.value != ZERO_ADDRESS
    ensures r.Some? ==> r.value == pair.value
  {
    if !cfg.Configured() then None
    else match pair
      case Threw => None
      case Answer(a) => if a == ZERO_ADDRESS then None else Some(a)
  }

  /** `poolExists`. */
  function PoolExists(cfg: PoolConfig, pair: Read<Address>): (present: bool)
    ensures present <==> cfg.Configured() && pair.Answer? && pair.value != ZERO_ADDRESS
  {
    GetPoolAddress(cfg, pair).Some?
  }

  /** Whether the pair lists M first, compared case-insensitively. */
  predicate IsToken0M(token0: Address, mToken: Address) {
    Strings.EqualsIgnoreCase(token0, mToken)
  }

  /** The pair's reserves as (M side, wiki-token side), given whether token0 is M. */
  function Orient(isToken0M: bool, reserve0: nat, reserve1: nat): (r: (nat, nat))
    ensures multiset{r.0, r.1} == multiset{reserve0, reserve1}
    ensures isToken0M ==> r.0 == reserve0 && r.1 == reserve1
    ensures !isToken0M ==> r.0 == reserve1 && r.1 == reserve0
  {
    if isToken0M then (reserve0, reserve1) else (reserve1, reserve0)
  }

  /** Reading the pair with the other token first only swaps the two sides. */
  lemma OrientSwapped(isToken0M: bool, reserve0: nat, reserve1: nat)
    ensures Orient(!isToken0M, reserve1, reserve0) == Orient(isToken0M, reserve0, reserve1)
  {
  }

  /** `reserves.priceM` and `reserves.priceWiki`: a ratio of reserves, or 0 over an empty reserve. */
  function Price(numerator: nat, divisor: nat): (p: real)
    ensures divisor == 0 ==> p == 0.0
    ensures divisor > 0 ==> p * divisor as real == numerator as real
    ensures p >= 0.0
  {
    if divisor > 0 then numerator as real / divisor as real else 0.0
  }

  datatype PoolReserves = PoolReserves(
    reserveM: nat, reserveWiki: nat, priceM: real, priceWiki: real, poolExists: bool)

  /** `defaultReserves`: what every failure reports. */
  const DEFAULT_RESERVES := PoolReserves(0, 0, 0.0, 0.0, false)

  /** The pair's `getReserves` (first two fields) and its `token0`, each a separate read. */
  datatype PairReads = PairReads(reserves: Read<(nat, nat)>, token0: Read<Address>)

  /**
   * `getPoolReserves`: the reserves on the M and wiki sides, with both
   * prices; the all-zero default when there is no pool or any read throws.
   */
  function GetPoolReserves(cfg: PoolConfig, pair: Read<Address>, pairReads: PairReads): (r: PoolReserves)
    ensures r.poolExists <==>
      GetPoolAddress(cfg, pair).Some? && pairReads.reserves.Answer? && pairReads.token0.Answer?
    ensures !r.poolExists ==> r == DEFAULT_RESERVES
    ensures r.poolExists ==>
      var (r0, r1) := pairReads.reserves.value;
      && multiset{r.reserveM, r.reserveWiki} == multiset{r0, r1}
      && r.reserveM == (if IsToken0M(pairReads.token0.value, cfg.mToken) then r0 else r1)
      && (r.reserveM == 0 ==> r.priceM == 0.0)
      && (r.reserveM > 0 ==> r.priceM * r.reserveM as real == r.reserveWiki as real)
      && (r.reserveWiki == 0 ==> r.priceWiki == 0.0)
      && (r.reserveWiki > 0 ==> r.priceWiki * r.reserveWiki as real == r.reserveM as real)
  {
    match GetPoolAddress(cfg, pair)
    case None => DEFAULT_RESERVES
    case Some(_) =>
      if pairReads.reserves.Threw? || pairReads.token0.Threw? then DEFAULT_RESERVES
      else
        var (reserveM, reserveWiki) :=
          Orient(IsToken0M(pairReads.token0.value, cfg.mToken), pairReads.reserves.value.0, pairReads.reserves.value.1);
        PoolReserves(reserveM, reserveWiki, Price(reserveWiki, reserveM), Price(reserveM, reserveWiki), true)
  }

  /** With both reserves non-zero the two prices are reciprocal. */
  lemma PricesReciprocal(cfg: PoolConfig, pair: Read<Address>, pairReads: PairReads)
    requires GetPoolReserves(cfg, pair, pairReads).reserveM > 0
    requires GetPoolReserves(cfg, pair, pairReads).reserveWiki > 0
    ensures GetPoolReserves(cfg, pair, pairReads).priceM * GetPoolReserves(cfg, pair, pairReads).priceWiki == 1.0
  {
    var r := GetPoolReserves(cfg, pair, pairReads);
    var m, w := r.reserveM as real, r.reserveWiki as real;
    assert r.priceM == w / m;
    assert r.priceWiki == m / w;
  }

  /** `PoolStats` with exact reserves in whole tokens in place of `toFixed` strings. */
  datatype PoolStats = PoolStats(
    poolAddress: Option<Address>,
    totalLiquidityM: real,
    totalLiquidityWiki: real,
    priceM: real,
    priceWiki: real,
    poolExists: bool)

  /**
   * `getPoolStats`: the pool address and the reserves come from two
   * separate `getPair` reads, so they can disagree; `exists` follows the
   * reserves.
   */
  function GetPoolStats(cfg: PoolConfig, pairForAddress: Read<Address>,
                        pairForReserves: Read<Address>, pairReads: PairReads): (s: PoolStats)
    ensures s.poolAddress == GetPoolAddress(cfg, pairForAddress)
    ensures s.poolExists <==> GetPoolReserves(cfg, pairForReserves, pairReads).poolExists
    ensures s.poolExists ==> GetPoolAddress(cfg, pairForReserves).Some?
    ensures !s.poolExists ==> s.totalLiquidityM == 0.0 && s.totalLiquidityWiki == 0.0
    ensures s.totalLiquidityM * 1_000_000_000_000_000_000.0
            == GetPoolReserves(cfg, pairForReserves, pairReads).reserveM as real
  {
    var reserves := GetPoolReserves(cfg, pairForReserves, pairReads);
    PoolStats(
      GetPoolAddress(cfg, pairForAddress),
      reserves.reserveM as real / 1_000_000_000_000_000_000.0,
      reserves.reserveWiki as real / 1_000_000_000_000_000_000.0,
      reserves.priceM,
      reserves.priceWiki,
      reserves.poolExists)
  }

  /** When both `getPair` reads give the same answer, a pool reported to exist has an address. */
  lemma ConsistentStats(cfg: PoolConfig, pair: Read<Address>, pairReads: PairReads)
    ensures GetPoolStats(cfg, pair, pair, pairReads).poolExists ==>
      GetPoolStats(cfg, pair, pair, pairReads).poolAddress == Some(pair.value)
  {
  }
}
