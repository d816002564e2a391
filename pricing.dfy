/**
 * The Black-Scholes calculator: d1/d2, European call and put prices and the
 * Greeks. The standard normal CDF and PDF, `exp`, `log` and `sqrt` are not
 * interpreted: they come in as a `Numerics` value, so every branch and every
 * arithmetic step around them is modelled, and what is proved holds for any
 * choice of those functions.
 */
module BlackScholes {
  import opened OptionRecords

  type Positive = x: real | x > 0.0 witness 1.0

  /** `norm.cdf`, `norm.pdf`, `np.exp`, `np.log` and `np.sqrt`. The square root
      is only ever taken of a positive number, and is positive there. */
  datatype Numerics = Numerics(
    cdf: real -> real,
    pdf: real -> real,
    exp: real -> real,
    log: real -> real,
    sqrt: Positive -> Positive)

  datatype Greeks = Greeks(
    delta: real,
    gamma: real,
    theta: real,
    vega: real,
    rho: real,
    impliedVolatility: real)

  const NoGreeks := Greeks(0.0, 0.0, 0.0, 0.0, 0.0, 0.0)

  /** The pricer dispatches on `option_type.lower() == 'call'`; everything else
      is priced as a put. */
  predicate IsCall(kind: OptionKind)
  {
    kind == Call
  }

  /** The formula branches divide by K (inside the logarithm's argument). */
  predicate DefinedD(K: real, T: real, sigma: real)
  {
    T > 0.0 && sigma > 0.0 ==> K != 0.0
  }

  function D1(m: Numerics, S: real, K: real, T: real, r: real, sigma: real): (d: real)
    requires DefinedD(K, T, sigma)
    ensures T <= 0.0 || sigma <= 0.0 ==> d == 0.0
  {
    if T <= 0.0 || sigma <= 0.0 then 0.0
    else
      var denominator := sigma * m.sqrt(T);
      assert denominator > 0.0;
      (m.log(S / K) + (r + 0.5 * sigma * sigma) * T) / denominator
  }

  function D2(m: Numerics, S: real, K: real, T: real, r: real, sigma: real): (d: real)
    requires DefinedD(K, T, sigma)
    ensures T <= 0.0 || sigma <= 0.0 ==> d == 0.0
    ensures T > 0.0 && sigma > 0.0 ==> d == D1(m, S, K, T, r, sigma) - sigma * m.sqrt(T)
  {
    if T <= 0.0 || sigma <= 0.0 then 0.0
    else D1(m, S, K, T, r, sigma) - sigma * m.sqrt(T)
  }

  function CallPrice(m: Numerics, S: real, K: real, T: real, r: real, sigma: real): (p: real)
    requires DefinedD(K, T, sigma)
    ensures T <= 0.0 ==> p == Max(S - K, 0.0) && p >= 0.0
  {
    if T <= 0.0 then Max(S - K, 0.0)
    else
      var d1 := D1(m, S, K, T, r, sigma);
      var d2 := D2(m, S, K, T, r, sigma);
      S * m.cdf(d1) - K * m.exp(-r * T) * m.cdf(d2)
  }

  function PutPrice(m: Numerics, S: real, K: real, T: real, r: real, sigma: real): (p: real)
    requires DefinedD(K, T, sigma)
    ensures T <= 0.0 ==> p == Max(K - S, 0.0) && p >= 0.0
  {
    if T <= 0.0 then Max(K - S, 0.0)
    else
      var d1 := D1(m, S, K, T, r, sigma);
      var d2 := D2(m, S, K, T, r, sigma);
      K * m.exp(-r * T) * m.cdf(-d2) - S * m.cdf(-d1)
  }

  /** The Greeks divide by S·σ·√T and, through d1, by K. */
  predicate DefinedGreeks(S: real, K: real, T: real, sigma: real)
  {
    T > 0.0 ==> S != 0.0 && sigma != 0.0 && DefinedD(K, T, sigma)
  }

  function CalculateGreeks(m: Numerics, S: real, K: real, T: real, r: real, sigma: real,
                           kind: OptionKind): (g: Greeks)
    requires DefinedGreeks(S, K, T, sigma)
    ensures T <= 0.0 ==> g == NoGreeks
    ensures T > 0.0 ==> g.impliedVolatility == sigma
  {
    if T <= 0.0 then NoGreeks
    else
      var d1 := D1(m, S, K, T, r, sigma);
      var d2 := D2(m, S, K, T, r, sigma);
      var sqrtT := m.sqrt(T);
      var normD1 := m.pdf(d1);
      var cdfD1 := m.cdf(d1);
      var cdfD2 := m.cdf(d2);
      var delta := if IsCall(kind) then cdfD1 else cdfD1 - 1.0;
      var rho := if IsCall(kind) then K * T * m.exp(-r * T) * cdfD2
                 else -K * T * m.exp(-r * T) * m.cdf(-d2);
      assert S * sigma * sqrtT != 0.0;
      var gamma := normD1 / (S * sigma * sqrtT);
      var thetaCommon := -(S * normD1 * sigma) / (2.0 * sqrtT) - r * K * m.exp(-r * T);
      var theta := if IsCall(kind) then (thetaCommon * cdfD2) / 365.0
                   else (thetaCommon * m.cdf(-d2)) / 365.0;
      var vega := S * normD1 * sqrtT / 100.0;
      Greeks(delta, gamma, theta, vega, rho, sigma)
  }

  /** At or past expiry the two prices differ by exactly S - K
      (put-call parity with no time value left). */
  lemma ExpiryParity(m: Numerics, S: real, K: real, T: real, r: real, sigma: real)
    requires T <= 0.0
    ensures CallPrice(m, S, K, T, r, sigma) - PutPrice(m, S, K, T, r, sigma) == S - K
  {
  }

  /** With no volatility before expiry both d-terms collapse to 0, so the price
      is the cdf at 0 applied to spot and to discounted strike. */
  lemma DegenerateVolatilityPrices(m: Numerics, S: real, K: real, T: real, r: real, sigma: real)
    requires T > 0.0 && sigma <= 0.0
    ensures CallPrice(m, S, K, T, r, sigma) == (S - K * m.exp(-r * T)) * m.cdf(0.0)
    ensures PutPrice(m, S, K, T, r, sigma) == (K * m.exp(-r * T) - S) * m.cdf(0.0)
  {
    assert -0.0 == 0.0;
  }

  /** Gamma and vega do not depend on the option kind; a put's delta is the
      call's delta minus one. */
  lemma KindIndependentGreeks(m: Numerics, S: real, K: real, T: real, r: real, sigma: real,
                              kind: OptionKind)
    requires DefinedGreeks(S, K, T, sigma) && T > 0.0
    ensures var call := CalculateGreeks(m, S, K, T, r, sigma, Call);
            var other := CalculateGreeks(m, S, K, T, r, sigma, kind);
            && other.gamma == call.gamma
            && other.vega == call.vega
            && (kind != Call ==> other.delta == call.delta - 1.0)
  {
  }

  /** When the cdf takes values in [0, 1], a call's delta lies in [0, 1] and a
      put's in [-1, 0]. */
  lemma DeltaBounds(m: Numerics, S: real, K: real, T: real, r: real, sigma: real,
                    kind: OptionKind)
    requires DefinedGreeks(S, K, T, sigma)
    requires forall x :: 0.0 <= m.cdf(x) <= 1.0
    ensures var g := CalculateGreeks(m, S, K, T, r, sigma, kind);
            if kind == Call then 0.0 <= g.delta <= 1.0 else -1.0 <= g.delta <= 0.0
  {
  }
}

/**
 * The Newton-Raphson implied-volatility solver. Only its control skeleton is
 * modelled exactly: the guard, the initial guess and its clamp, the iteration
 * bound, the two early exits and the clamp after each step.
 */
module ImpliedVolatility {
  import opened OptionRecords
  import opened BlackScholes

  /** `np.pi` as a double. */
  const Pi: real := 3.141592653589793
  const DefaultMaxIterations: int := 100
  const DefaultTolerance: real := 0.000001
  const MinVegaStep: real := 0.0000000001

  /** `max(lo, min(hi, x))` */
  function Clamp(lo: real, hi: real, x: real): (c: real)
    requires lo <= hi
    ensures lo <= c <= hi
    ensures lo <= x <= hi ==> c == x
  {
    Max(lo, Min(hi, x))
  }

  function ModelPrice(m: Numerics, S: real, K: real, T: real, r: real, sigma: real,
                      kind: OptionKind): real
    requires DefinedD(K, T, sigma)
  {
    if kind == Call then CallPrice(m, S, K, T, r, sigma) else PutPrice(m, S, K, T, r, sigma)
  }

  /** Returns 0 when there is nothing to solve (T <= 0 or a non-positive market
      price); otherwise the estimate always lies in [0.001, 10], whatever the
      pricing functions return and however many iterations are allowed. When
      the solver stops on a price within tolerance, that price is the model
      price at the returned volatility. */
  method CalculateIv(m: Numerics, marketPrice: real, S: real, K: real, T: real, r: real,
                     kind: OptionKind, maxIterations: int, tolerance: real)
    returns (sigma: real, ghost converged: bool)
    requires S > 0.0 && K > 0.0
    ensures T <= 0.0 || marketPrice <= 0.0 ==> sigma == 0.0 && !converged
    ensures T > 0.0 && marketPrice > 0.0 ==> 0.001 <= sigma <= 10.0
    ensures converged ==> Abs(ModelPrice(m, S, K, T, r, sigma, kind) - marketPrice) < tolerance
  {
    converged := false;
    if T <= 0.0 || marketPrice <= 0.0 {
      return 0.0, false;
    }
    sigma := m.sqrt(2.0 * Pi / T) * marketPrice / S;
    sigma := Clamp(0.01, 5.0, sigma);
    var i := 0;
    while i < maxIterations
      invariant 0.001 <= sigma <= 10.0
      invariant !converged
    {
      var price := ModelPrice(m, S, K, T, r, sigma, kind);
      var diff := price - marketPrice;
      if Abs(diff) < tolerance {
        converged := true;
        return;
      }
      var d1 := D1(m, S, K, T, r, sigma);
      var vega := S * m.pdf(d1) * m.sqrt(T);
      if vega < MinVegaStep {
        break;
      }
      sigma := sigma - diff / vega;
      sigma := Clamp(0.001, 10.0, sigma);
      i := i + 1;
    }
  }
}
