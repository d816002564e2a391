/**
 * Volume-weighted portfolio Greeks. The per-option Greeks come from the
 * Black-Scholes calculator with uninterpreted transcendental functions; the
 * clock and the expiry-date parser come in as `expiryDays`, which gives the
 * whole days from now to an expiration string, or None when it cannot be
 * parsed.
 */
module PortfolioGreeks {
  import opened OptionRecords
  import opened BlackScholes

  /** `MARKET_PARAMETERS['risk_free_rate']` */
  const RiskFreeRate: real := 0.045
  const MinTimeToExpiry: real := 0.001
  const UnparsedTimeToExpiry: real := 0.1
  const DefaultVolatility: real := 0.25

  datatype GreekTotals = GreekTotals(delta: real, gamma: real, theta: real, vega: real)

  datatype PortfolioSummary = PortfolioSummary(
    totalDelta: real,
    totalGamma: real,
    totalTheta: real,
    totalVega: real,
    deltaExposure: real,
    gammaRisk: real,
    thetaDecay: real,
    vegaExposure: real)

  /** Years to expiry, floored at 0.001; 0.1 when the date cannot be parsed. */
  function TimeToExpiry(days: Option<int>): (t: real)
    ensures t >= MinTimeToExpiry
    ensures days.None? ==> t == UnparsedTimeToExpiry
    ensures days.Some? ==> t >= days.value as real / 365.0
    ensures days.Some? ==> t == days.value as real / 365.0 || t == MinTimeToExpiry
  {
    match days
    case None => UnparsedTimeToExpiry
    case Some(d) => Max(d as real / 365.0, MinTimeToExpiry)
  }

  /** The quote's implied volatility if positive, else 25%. */
  function EffectiveVolatility(iv: real): (sigma: real)
    ensures sigma > 0.0
    ensures iv > 0.0 ==> sigma == iv
    ensures iv <= 0.0 ==> sigma == DefaultVolatility
  {
    if iv <= 0.0 then DefaultVolatility else iv
  }

  /** What the Greeks of every row need: a non-zero spot and non-zero strikes. */
  predicate PricableBatch(rows: seq<Quote>, stockPrice: real)
  {
    stockPrice != 0.0 && forall q :: q in rows ==> q.strike != 0.0
  }

  function RowGreeks(m: Numerics, expiryDays: string -> Option<int>, q: Quote, stockPrice: real): Greeks
    requires stockPrice != 0.0 && q.strike != 0.0
  {
    CalculateGreeks(m, stockPrice, q.strike, TimeToExpiry(expiryDays(q.expiration)), RiskFreeRate,
                    EffectiveVolatility(q.impliedVolatility), q.kind)
  }

  /** One row's Greeks weighted by its volume. */
  function Weighted(g: Greeks, volume: int): GreekTotals
  {
    var v := volume as real;
    GreekTotals(g.delta * v, g.gamma * v, g.theta * v, g.vega * v)
  }

  function Plus(a: GreekTotals, b: GreekTotals): GreekTotals
  {
    GreekTotals(a.delta + b.delta, a.gamma + b.gamma, a.theta + b.theta, a.vega + b.vega)
  }

  /** Σ over the first n rows of each Greek times the row's volume, added in
      row order. */
  function WeightedTotals(m: Numerics, expiryDays: string -> Option<int>, rows: seq<Quote>, n: nat,
                          stockPrice: real): GreekTotals
    requires PricableBatch(rows, stockPrice) && n <= |rows|
  {
    if n == 0 then GreekTotals(0.0, 0.0, 0.0, 0.0)
    else
      assert rows[n - 1] in rows;
      Plus(WeightedTotals(m, expiryDays, rows, n - 1, stockPrice),
           Weighted(RowGreeks(m, expiryDays, rows[n - 1], stockPrice), rows[n - 1].volume))
  }

  /** One more row adds its weighted Greeks to the totals. */
  lemma WeightedTotalsStep(m: Numerics, expiryDays: string -> Option<int>, rows: seq<Quote>, i: nat,
                           stockPrice: real)
    requires PricableBatch(rows, stockPrice) && i < |rows|
    ensures rows[i] in rows
    ensures WeightedTotals(m, expiryDays, rows, i + 1, stockPrice)
            == Plus(WeightedTotals(m, expiryDays, rows, i, stockPrice),
                    Weighted(RowGreeks(m, expiryDays, rows[i], stockPrice), rows[i].volume))
  {
  }

  /** Adding row i's weighted Greeks to the totals of the first i rows gives
      the totals of the first i + 1. */
  lemma AccumulateStep(m: Numerics, expiryDays: string -> Option<int>, rows: seq<Quote>, i: nat,
                       stockPrice: real, totals: GreekTotals, greeks: Greeks)
    requires PricableBatch(rows, stockPrice) && i < |rows|
    requires rows[i] in rows
    requires totals == WeightedTotals(m, expiryDays, rows, i, stockPrice)
    requires greeks == RowGreeks(m, expiryDays, rows[i], stockPrice)
    ensures Plus(totals, Weighted(greeks, rows[i].volume)) == WeightedTotals(m, expiryDays, rows, i + 1, stockPrice)
  {
    WeightedTotalsStep(m, expiryDays, rows, i, stockPrice);
  }

  /** The body of the row loop: time to expiry, volatility fallback, Greeks. */
  method OptionGreeks(m: Numerics, expiryDays: string -> Option<int>, option: Quote, stockPrice: real)
    returns (greeks: Greeks)
    requires stockPrice != 0.0 && option.strike != 0.0
    ensures greeks == RowGreeks(m, expiryDays, option, stockPrice)
  {
    var t := TimeToExpiry(expiryDays(option.expiration));
    var iv := option.impliedVolatility;
    if iv <= 0.0 {
      iv := DefaultVolatility;
    }
    greeks := CalculateGreeks(m, stockPrice, option.strike, t, RiskFreeRate, iv, option.kind);
  }

  /** The row loop of the source, accumulating the four weighted totals. */
  method AccumulateGreeks(m: Numerics, expiryDays: string -> Option<int>, rows: seq<Quote>,
                          stockPrice: real) returns (totals: GreekTotals)
    requires PricableBatch(rows, stockPrice)
    ensures totals == WeightedTotals(m, expiryDays, rows, |rows|, stockPrice)
  {
    var totalDelta, totalGamma, totalTheta, totalVega := 0.0, 0.0, 0.0, 0.0;
    var i := 0;
    while i < |rows|
      invariant 0 <= i <= |rows|
      invariant GreekTotals(totalDelta, totalGamma, totalTheta, totalVega)
                == WeightedTotals(m, expiryDays, rows, i, stockPrice)
    {
      var option := rows[i];
      var greeks := OptionGreeks(m, expiryDays, option, stockPrice);
      var volume := option.volume;
      AccumulateStep(m, expiryDays, rows, i, stockPrice,
                     GreekTotals(totalDelta, totalGamma, totalTheta, totalVega), greeks);
      var next := Plus(GreekTotals(totalDelta, totalGamma, totalTheta, totalVega), Weighted(greeks, volume));
      totalDelta, totalGamma, totalTheta, totalVega := next.delta, next.gamma, next.theta, next.vega;
      i := i + 1;
    }
    totals := GreekTotals(totalDelta, totalGamma, totalTheta, totalVega);
  }

  /** The summary of a batch with the given totals: the totals themselves,
      the delta exposure |Σ delta| · S · 100 (never negative for a positive
      stock price), the gamma risk Σ gamma · S² / 100, and the theta and vega
      totals as decay and exposure. */
  function SummaryOf(t: GreekTotals, stockPrice: real): (p: PortfolioSummary)
    ensures p.totalDelta == t.delta && p.totalGamma == t.gamma
    ensures p.totalTheta == t.theta && p.totalVega == t.vega
    ensures p.deltaExposure == Abs(t.delta) * stockPrice * 100.0
    ensures stockPrice > 0.0 ==> p.deltaExposure >= 0.0
    ensures p.gammaRisk == t.gamma * stockPrice * stockPrice * 0.01
    ensures p.thetaDecay == t.theta && p.vegaExposure == t.vega
  {
    var deltaExposure := Abs(t.delta) * stockPrice * 100.0;
    assert stockPrice > 0.0 ==> Abs(t.delta) * stockPrice >= 0.0;
    PortfolioSummary(t.delta, t.gamma, t.theta, t.vega,
                     deltaExposure, t.gamma * stockPrice * stockPrice * 0.01, t.theta, t.vega)
  }

  /** An empty batch gives no summary; otherwise the summary of the
      volume-weighted totals of the rows' Greeks. */
  method CalculatePortfolioGreeks(m: Numerics, expiryDays: string -> Option<int>, rows: seq<Quote>,
                                  stockPrice: real) returns (r: Option<PortfolioSummary>)
    requires PricableBatch(rows, stockPrice)
    ensures rows == [] <==> r.None?
    ensures r.Some? ==> r.value == SummaryOf(WeightedTotals(m, expiryDays, rows, |rows|, stockPrice), stockPrice)
  {
    if rows == [] {
      return None;
    }
    var t := AccumulateGreeks(m, expiryDays, rows, stockPrice);
    r := Some(SummaryOf(t, stockPrice));
  }

  /** Rows with no traded volume do not move any total: a batch in which
      nothing traded has all four totals 0. */
  lemma {:induction false} UntradedBatchHasNoExposure(m: Numerics, expiryDays: string -> Option<int>,
                                                      rows: seq<Quote>, n: nat, stockPrice: real)
    requires PricableBatch(rows, stockPrice) && n <= |rows|
    requires forall q :: q in rows ==> q.volume == 0
    ensures WeightedTotals(m, expiryDays, rows, n, stockPrice) == GreekTotals(0.0, 0.0, 0.0, 0.0)
  {
    if n > 0 {
      assert rows[n - 1] in rows;
      UntradedBatchHasNoExposure(m, expiryDays, rows, n - 1, stockPrice);
    }
  }

  /** Rows that expire (or have expired) on the day contribute Greeks computed
      at the 0.001-year floor, never at zero time. */
  lemma ExpiredRowsUseFloor(days: int)
    requires days <= 0
    ensures TimeToExpiry(Some(days)) == MinTimeToExpiry
  {
  }
}
