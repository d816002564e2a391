/**
 * Implied-volatility statistics of a batch: the IVs strictly between 0 and
 * 500% are kept; their mean, minimum and maximum are reported, together with
 * the put-over-call skew of the mean IVs and its reading.
 */
module VolatilitySurface {
  import opened OptionRecords

  const MaxValidIv: real := 5.0

  datatype SkewReading = HighPutSkew | ModeratePutSkew | NegativeSkew | NeutralSkew

  datatype VolatilityAnalysis =
    | NoData
    | NoValidIv
    | Surface(meanIv: real, minIv: real, maxIv: real, ivSkew: real, interpretation: SkewReading)

  function Iv(q: Quote): real { q.impliedVolatility }
  predicate HasValidIv(q: Quote) { 0.0 < q.impliedVolatility < MaxValidIv }
  predicate IsValidCall(q: Quote) { HasValidIv(q) && q.kind == Call }
  predicate IsValidPut(q: Quote) { HasValidIv(q) && q.kind == Put }

  /** Thresholds checked in order: > 0.05, > 0.02, < -0.02, else neutral. */
  function InterpretIvSkew(skew: real): (s: SkewReading)
    ensures s == HighPutSkew <==> skew > 0.05
    ensures s == ModeratePutSkew <==> 0.02 < skew <= 0.05
    ensures s == NegativeSkew <==> skew < -0.02
    ensures s == NeutralSkew <==> -0.02 <= skew <= 0.02
  {
    if skew > 0.05 then HighPutSkew
    else if skew > 0.02 then ModeratePutSkew
    else if skew < -0.02 then NegativeSkew
    else NeutralSkew
  }

  function MinIv(rows: seq<Quote>): (m: real)
    requires rows != []
    ensures forall q :: q in rows ==> m <= q.impliedVolatility
    ensures exists q :: q in rows && m == q.impliedVolatility
  {
    var last := rows[|rows| - 1];
    if |rows| == 1 then last.impliedVolatility
    else
      var init := rows[..|rows| - 1];
      assert forall q :: q in rows <==> q in init || q == last;
      Min(MinIv(init), last.impliedVolatility)
  }

  function MaxIv(rows: seq<Quote>): (m: real)
    requires rows != []
    ensures forall q :: q in rows ==> q.impliedVolatility <= m
    ensures exists q :: q in rows && m == q.impliedVolatility
  {
    var last := rows[|rows| - 1];
    if |rows| == 1 then last.impliedVolatility
    else
      var init := rows[..|rows| - 1];
      assert forall q :: q in rows <==> q in init || q == last;
      Max(MaxIv(init), last.impliedVolatility)
  }

  function MeanIv(rows: seq<Quote>): real
    requires rows != []
  {
    SumReal(rows, Iv) / |rows| as real
  }

  /** `Series.mean()`, which is NaN (here None) on no rows. */
  function MeanIvOf(rows: seq<Quote>): Option<real>
  {
    if rows == [] then None else Some(MeanIv(rows))
  }

  /** Put mean minus call mean when both are present and positive, else 0. */
  function IvSkew(callIv: Option<real>, putIv: Option<real>): real
  {
    if callIv.Some? && putIv.Some? && callIv.value > 0.0 && putIv.value > 0.0
    then putIv.value - callIv.value
    else 0.0
  }

  /** A sum of values that are all at least `lo` is at least n·lo. */
  lemma {:induction false} SumIvAtLeast(rows: seq<Quote>, lo: real)
    requires forall q :: q in rows ==> lo <= q.impliedVolatility
    ensures |rows| as real * lo <= SumReal(rows, Iv)
  {
    if rows != [] {
      var init := rows[..|rows| - 1];
      var last := rows[|rows| - 1];
      assert forall q :: q in init ==> q in rows;
      SumIvAtLeast(init, lo);
      assert last in rows;
      StepLower(|init| as real, SumReal(init, Iv), Iv(last), lo);
    }
  }

  /** A sum of values that are all at most `hi` is at most n·hi. */
  lemma {:induction false} SumIvAtMost(rows: seq<Quote>, hi: real)
    requires forall q :: q in rows ==> q.impliedVolatility <= hi
    ensures SumReal(rows, Iv) <= |rows| as real * hi
  {
    if rows != [] {
      var init := rows[..|rows| - 1];
      var last := rows[|rows| - 1];
      assert forall q :: q in init ==> q in rows;
      SumIvAtMost(init, hi);
      assert last in rows;
      StepUpper(|init| as real, SumReal(init, Iv), Iv(last), hi);
    }
  }

  lemma StepLower(n: real, s: real, x: real, lo: real)
    requires n * lo <= s && lo <= x
    ensures (n + 1.0) * lo <= s + x
  {
  }

  lemma StepUpper(n: real, s: real, x: real, hi: real)
    requires s <= n * hi && x <= hi
    ensures s + x <= (n + 1.0) * hi
  {
  }

  /** The mean lies between the minimum and the maximum. */
  lemma MeanBetweenMinAndMax(rows: seq<Quote>)
    requires rows != []
    ensures MinIv(rows) <= MeanIv(rows) <= MaxIv(rows)
  {
    MeanWithinBounds(rows, MinIv(rows), MaxIv(rows));
  }

  /** The mean of values that all lie in [lo, hi] lies in [lo, hi]. */
  lemma MeanWithinBounds(rows: seq<Quote>, lo: real, hi: real)
    requires rows != []
    requires forall q :: q in rows ==> lo <= q.impliedVolatility <= hi
    ensures lo <= MeanIv(rows) <= hi
  {
    SumIvAtLeast(rows, lo);
    SumIvAtMost(rows, hi);
    QuotientBounds(SumReal(rows, Iv), |rows| as real, lo, hi);
  }

  lemma QuotientBounds(s: real, n: real, lo: real, hi: real)
    requires n > 0.0 && n * lo <= s <= n * hi
    ensures lo <= s / n <= hi
  {
    assert (s / n) * n == s;
  }

  /** The mean of IVs that are all strictly between 0 and 5 is too. */
  lemma KeptMeanInRange(rows: seq<Quote>)
    requires forall q :: q in rows ==> HasValidIv(q)
    ensures rows != [] ==> 0.0 < MeanIv(rows) < MaxValidIv
  {
    if rows != [] {
      MeanBetweenMinAndMax(rows);
    }
  }

  /** An empty batch gives no analysis, a batch with no IV strictly between 0
      and 5 an error entry. Otherwise the statistics are over the kept rows,
      with min <= mean <= max inside (0, 5), and the skew is the put mean
      minus the call mean, which applies exactly when the kept rows include
      both a call and a put. */
  function AnalyzeVolatilitySurface(rows: seq<Quote>): (r: VolatilityAnalysis)
    ensures rows == [] <==> r.NoData?
    ensures r.NoValidIv? <==> rows != [] && forall q :: q in rows ==> !HasValidIv(q)
    ensures r.Surface? ==>
      var valid := Filter(rows, HasValidIv);
      && valid != []
      && r.meanIv == MeanIv(valid) && r.minIv == MinIv(valid) && r.maxIv == MaxIv(valid)
      && 0.0 < r.minIv <= r.meanIv <= r.maxIv < MaxValidIv
      && r.interpretation == InterpretIvSkew(r.ivSkew)
    ensures r.Surface? ==>
      var calls := Filter(rows, IsValidCall);
      var puts := Filter(rows, IsValidPut);
      if calls != [] && puts != [] then r.ivSkew == MeanIv(puts) - MeanIv(calls) else r.ivSkew == 0.0
  {
    if rows == [] then NoData
    else
      var valid := Filter(rows, HasValidIv);
      if valid == [] then NoValidIv
      else
        var calls := Filter(rows, IsValidCall);
        var puts := Filter(rows, IsValidPut);
        var callIv := MeanIvOf(calls);
        var putIv := MeanIvOf(puts);
        MeanBetweenMinAndMax(valid);
        KeptMeanInRange(calls);
        KeptMeanInRange(puts);
        var skew := IvSkew(callIv, putIv);
        Surface(MeanIv(valid), MinIv(valid), MaxIv(valid), skew, InterpretIvSkew(skew))
  }

  /** The kept call and put rows are kept rows: the call-only and put-only
      selections never see an IV the statistics exclude. */
  lemma SidesAreKept(rows: seq<Quote>)
    ensures forall q :: q in Filter(rows, IsValidCall) ==> q in Filter(rows, HasValidIv)
    ensures forall q :: q in Filter(rows, IsValidPut) ==> q in Filter(rows, HasValidIv)
  {
  }
}
