/** The screening predicate `filterMemeCoins` of data.js: a market snapshot
    qualifies when its market cap, USD liquidity, one-hour price change and
    one-hour volume all reach fixed thresholds. */
module Screening {
  import opened Wrappers

  /** Inclusive lower bounds, as constants in data.js. */
  const MinMarketCap: real := 50000.0
  const MinLiquidity: real := 10000.0
  const MinPriceChange: real := 5.0
  const MinVolume: real := 5000.0

  /** `liquidity` object of a trading pair; only `usd` is read by the filter. */
  datatype Liquidity = Liquidity(usd: Option<real>, quote: Option<real>)

  /** A per-window object such as `priceChange` or `volume`; only `h1` is read. */
  datatype Window = Window(h1: Option<real>)

  /** `baseToken` object of a trading pair. */
  datatype Token = Token(address: Option<string>, name: Option<string>)

  /** One trading-pair record as returned by the market-data lookup.
      Every field, and every nested field, may be missing. */
  datatype Snapshot = Snapshot(
    marketCap: Option<real>,
    liquidity: Option<Liquidity>,
    priceChange: Option<Window>,
    volume: Option<Window>,
    priceUsd: Option<string>,
    baseToken: Option<Token>)

  /** JavaScript's `x || 0` on a number: an absent value reads as 0.
      (A present 0 also yields 0, so the two cases agree.) */
  function OrZero(x: Option<real>): real {
    x.GetOr(0.0)
  }

  /** `coin.marketCap || 0` */
  function MarketCapOf(s: Snapshot): real {
    OrZero(s.marketCap)
  }

  /** `coin.liquidity?.usd || 0` */
  function LiquidityOf(s: Snapshot): real {
    match s.liquidity
    case None => 0.0
    case Some(l) => OrZero(l.usd)
  }

  /** `coin.priceChange?.h1 || 0` */
  function PriceChangeOf(s: Snapshot): real {
    match s.priceChange
    case None => 0.0
    case Some(w) => OrZero(w.h1)
  }

  /** `coin.volume?.h1 || 0` */
  function VolumeOf(s: Snapshot): real {
    match s.volume
    case None => 0.0
    case Some(w) => OrZero(w.h1)
  }

  /** `filterMemeCoins(coin)`. The postcondition restates the decision in
      terms of which fields are present: since every threshold is positive,
      a missing metric can never pass, and a present one must reach its
      threshold. */
  predicate Qualifies(s: Snapshot)
    ensures Qualifies(s) <==>
      && s.marketCap.Some? && s.marketCap.value >= MinMarketCap
      && s.liquidity.Some? && s.liquidity.value.usd.Some?
      && s.liquidity.value.usd.value >= MinLiquidity
      && s.priceChange.Some? && s.priceChange.value.h1.Some?
      && s.priceChange.value.h1.value >= MinPriceChange
      && s.volume.Some? && s.volume.value.h1.Some?
      && s.volume.value.h1.value >= MinVolume
  {
    && MarketCapOf(s) >= MinMarketCap
    && LiquidityOf(s) >= MinLiquidity
    && PriceChangeOf(s) >= MinPriceChange
    && VolumeOf(s) >= MinVolume
  }

  /** A snapshot carrying exactly the four metrics the filter reads. */
  function WithMetrics(marketCap: real, liquidity: real, priceChange: real, volume: real): (s: Snapshot)
    ensures MarketCapOf(s) == marketCap && LiquidityOf(s) == liquidity
    ensures PriceChangeOf(s) == priceChange && VolumeOf(s) == volume
  {
    Snapshot(Some(marketCap), Some(Liquidity(Some(liquidity), None)),
             Some(Window(Some(priceChange))), Some(Window(Some(volume))), None, None)
  }

  /** All four conditions are mandatory and nothing else matters: for a
      snapshot with all four metrics present, it qualifies exactly when each
      reaches its threshold (50000, 10000, 5 and 5000). */
  lemma ThresholdsExactly(m: real, l: real, p: real, v: real)
    ensures Qualifies(WithMetrics(m, l, p, v)) <==>
      m >= 50000.0 && l >= 10000.0 && p >= 5.0 && v >= 5000.0
  {
  }

  /** The comparisons are inclusive: every metric exactly at its threshold qualifies. */
  lemma AtThresholdQualifies()
    ensures Qualifies(WithMetrics(50000.0, 10000.0, 5.0, 5000.0))
  {
  }

  /** Any single metric strictly below its threshold makes the snapshot fail,
      whatever the other three are. */
  lemma BelowThresholdFails(s: Snapshot)
    requires MarketCapOf(s) < MinMarketCap || LiquidityOf(s) < MinLiquidity ||
             PriceChangeOf(s) < MinPriceChange || VolumeOf(s) < MinVolume
    ensures !Qualifies(s)
  {
  }

  /** A snapshot missing any of the four metrics never qualifies. */
  lemma MissingMetricFails(s: Snapshot)
    requires || s.marketCap.None?
             || s.liquidity.None? || s.liquidity.value.usd.None?
             || s.priceChange.None? || s.priceChange.value.h1.None?
             || s.volume.None? || s.volume.value.h1.None?
    ensures !Qualifies(s)
  {
  }

  /** `hi` is at least as good as `lo` on every metric the filter reads. */
  predicate Dominates(hi: Snapshot, lo: Snapshot) {
    && MarketCapOf(hi) >= MarketCapOf(lo)
    && LiquidityOf(hi) >= LiquidityOf(lo)
    && PriceChangeOf(hi) >= PriceChangeOf(lo)
    && VolumeOf(hi) >= VolumeOf(lo)
  }

  /** Monotonicity: raising metrics of a qualifying snapshot keeps it qualifying. */
  lemma Monotone(lo: Snapshot, hi: Snapshot)
    requires Qualifies(lo) && Dominates(hi, lo)
    ensures Qualifies(hi)
  {
  }

  /** Raising a single metric, the other three fixed, keeps a qualifying snapshot qualifying. */
  lemma RaiseOneMetric(m: real, l: real, p: real, v: real, d: real)
    requires Qualifies(WithMetrics(m, l, p, v)) && d >= 0.0
    ensures Qualifies(WithMetrics(m + d, l, p, v))
    ensures Qualifies(WithMetrics(m, l + d, p, v))
    ensures Qualifies(WithMetrics(m, l, p + d, v))
    ensures Qualifies(WithMetrics(m, l, p, v + d))
  {
  }

  /** Only the four readings matter: the token identity (`baseToken`), the
      price string and `liquidity.quote` play no part, and an absent metric
      is screened like a present 0. */
  lemma IdentityIgnored(s: Snapshot, t: Snapshot)
    requires MarketCapOf(s) == MarketCapOf(t) && LiquidityOf(s) == LiquidityOf(t)
    requires PriceChangeOf(s) == PriceChangeOf(t) && VolumeOf(s) == VolumeOf(t)
    ensures Qualifies(s) <==> Qualifies(t)
  {
  }

  /** A pair with market cap 150000, liquidity 40000, price change 60 and
      volume 120000 qualifies, and so does the same pair with volume 50000;
      with volume 4999 it fails. */
  lemma ExampleScenarios()
    ensures Qualifies(WithMetrics(150000.0, 40000.0, 60.0, 120000.0))
    ensures Qualifies(WithMetrics(150000.0, 40000.0, 60.0, 50000.0))
    ensures !Qualifies(WithMetrics(150000.0, 40000.0, 60.0, 4999.0))
  {
  }
}
