/**
 * Max pain: for every distinct strike, the open-interest-weighted amount that
 * holders of in-the-money options at that strike are owed at the current
 * stock price; the max-pain strike is the one where that total is least, the
 * lowest such strike on a tie.
 */
module MaxPain {
  import opened OptionRecords
  import opened SortedKeys

  /** What the holders of one call row at `strike` are owed at `stockPrice`. */
  function CallRowPain(q: Quote, strike: real, stockPrice: real): real
  {
    if q.strike == strike && q.kind == Call && stockPrice > strike
    then q.openInterest as real * (stockPrice - strike) * 100.0
    else 0.0
  }

  /** What the holders of one put row at `strike` are owed at `stockPrice`. */
  function PutRowPain(q: Quote, strike: real, stockPrice: real): real
  {
    if q.strike == strike && q.kind == Put && stockPrice < strike
    then q.openInterest as real * (strike - stockPrice) * 100.0
    else 0.0
  }

  function CallPain(rows: seq<Quote>, strike: real, stockPrice: real): real
  {
    if rows == [] then 0.0
    else CallPain(rows[..|rows| - 1], strike, stockPrice) + CallRowPain(rows[|rows| - 1], strike, stockPrice)
  }

  function PutPain(rows: seq<Quote>, strike: real, stockPrice: real): real
  {
    if rows == [] then 0.0
    else PutPain(rows[..|rows| - 1], strike, stockPrice) + PutRowPain(rows[|rows| - 1], strike, stockPrice)
  }

  /** Total pain at a strike: the calls' part, then the puts'. */
  function StrikePain(rows: seq<Quote>, strike: real, stockPrice: real): real
  {
    CallPain(rows, strike, stockPrice) + PutPain(rows, strike, stockPrice)
  }

  /** `s` is a key of least pain, and the lowest key among those of least pain. */
  ghost predicate IsMaxPainStrike(pain: map<real, real>, s: real)
  {
    && s in pain
    && forall k :: k in pain ==> pain[s] <= pain[k] && (pain[k] == pain[s] ==> s <= k)
  }

  lemma CallPainStep(rows: seq<Quote>, i: nat, strike: real, stockPrice: real)
    requires i < |rows|
    ensures CallPain(rows[..i + 1], strike, stockPrice)
            == CallPain(rows[..i], strike, stockPrice) + CallRowPain(rows[i], strike, stockPrice)
  {
    assert rows[..i + 1][..i] == rows[..i];
  }

  lemma PutPainStep(rows: seq<Quote>, i: nat, strike: real, stockPrice: real)
    requires i < |rows|
    ensures PutPain(rows[..i + 1], strike, stockPrice)
            == PutPain(rows[..i], strike, stockPrice) + PutRowPain(rows[i], strike, stockPrice)
  {
    assert rows[..i + 1][..i] == rows[..i];
  }

  /** The two inner loops of the source: calls at this strike, then puts. */
  method StrikeTotalPain(rows: seq<Quote>, strike: real, stockPrice: real) returns (totalPain: real)
    ensures totalPain == StrikePain(rows, strike, stockPrice)
  {
    totalPain := 0.0;
    var i := 0;
    while i < |rows|
      invariant 0 <= i <= |rows|
      invariant totalPain == CallPain(rows[..i], strike, stockPrice)
    {
      var call := rows[i];
      CallPainStep(rows, i, strike, stockPrice);
      if call.strike == strike && call.kind == Call && stockPrice > strike {
        var pain := call.openInterest as real * (stockPrice - strike) * 100.0;
        totalPain := totalPain + pain;
      }
      i := i + 1;
    }
    assert rows[..|rows|] == rows;
    i := 0;
    while i < |rows|
      invariant 0 <= i <= |rows|
      invariant totalPain == CallPain(rows, strike, stockPrice) + PutPain(rows[..i], strike, stockPrice)
    {
      var put := rows[i];
      PutPainStep(rows, i, strike, stockPrice);
      if put.strike == strike && put.kind == Put && stockPrice < strike {
        var pain := put.openInterest as real * (strike - stockPrice) * 100.0;
        totalPain := totalPain + pain;
      }
      i := i + 1;
    }
  }

  /** The loop over the sorted strikes, filling `pain_by_strike`. */
  method FillPainByStrike(rows: seq<Quote>, strikes: seq<real>, stockPrice: real)
    returns (pain: map<real, real>)
    ensures forall k :: k in pain <==> k in strikes
    ensures forall k :: k in pain ==> pain[k] == StrikePain(rows, k, stockPrice)
  {
    pain := map[];
    var i := 0;
    while i < |strikes|
      invariant 0 <= i <= |strikes|
      invariant forall k :: k in pain <==> k in strikes[..i]
      invariant forall k :: k in pain ==> pain[k] == StrikePain(rows, k, stockPrice)
    {
      assert strikes[..i + 1] == strikes[..i] + [strikes[i]];
      var totalPain := StrikeTotalPain(rows, strikes[i], stockPrice);
      pain := pain[strikes[i] := totalPain];
      i := i + 1;
    }
    assert strikes[..|strikes|] == strikes;
  }

  /** `min(pain_by_strike.keys(), key=...)`: the keys are visited in ascending
      order and the first key of least pain is kept. */
  method FirstLeastKey(strikes: seq<real>, pain: map<real, real>) returns (best: int)
    requires |strikes| > 0 && Ascending(strikes, RealLess)
    requires forall k :: k in pain <==> k in strikes
    ensures 0 <= best < |strikes|
    ensures IsMaxPainStrike(pain, strikes[best])
  {
    best := 0;
    var j := 1;
    while j < |strikes|
      invariant 1 <= j <= |strikes| && 0 <= best < j
      invariant forall t :: 0 <= t < j ==>
        pain[strikes[best]] <= pain[strikes[t]]
        && (pain[strikes[t]] == pain[strikes[best]] ==> best <= t)
    {
      if pain[strikes[j]] < pain[strikes[best]] {
        best := j;
      }
      j := j + 1;
    }
    forall k | k in pain
      ensures pain[strikes[best]] <= pain[k] && (pain[k] == pain[strikes[best]] ==> strikes[best] <= k)
    {
      var t :| 0 <= t < |strikes| && strikes[t] == k;
      if pain[k] == pain[strikes[best]] && t != best {
        assert RealLess(strikes[best], strikes[t]);
      }
    }
  }

  /** An empty batch gives `(stock_price, {})`. Otherwise the pain map has one
      key per distinct strike, holding that strike's total pain, and the
      returned strike is the lowest strike of least pain. */
  method CalculateMaxPain(rows: seq<Quote>, stockPrice: real) returns (maxPain: real, pain: map<real, real>)
    ensures rows == [] ==> maxPain == stockPrice && pain == map[]
    ensures rows != [] ==> pain.Keys == Strikes(rows) && IsMaxPainStrike(pain, maxPain)
    ensures forall k :: k in pain ==> pain[k] == StrikePain(rows, k, stockPrice)
    ensures (forall q :: q in rows ==> q.openInterest >= 0) ==> forall k :: k in pain ==> pain[k] >= 0.0
    ensures rows != [] && (forall q :: q in rows ==> q.strike == rows[0].strike) ==> maxPain == rows[0].strike
  {
    if rows == [] {
      return stockPrice, map[];
    }
    RealLessIsStrictTotalOrder();
    var strikes := SortedDistinct(StrikeColumn(rows), RealLess);
    StrikesAreColumn(rows);
    assert rows[0].strike in StrikeColumn(rows);
    pain := FillPainByStrike(rows, strikes, stockPrice);
    var best := FirstLeastKey(strikes, pain);
    maxPain := strikes[best];
    if forall q :: q in rows ==> q.openInterest >= 0 {
      forall k | k in pain ensures pain[k] >= 0.0 {
        PainNonNegative(rows, k, stockPrice);
      }
    }
  }

  /** With non-negative open interest no strike carries negative pain. */
  lemma {:induction false} PainNonNegative(rows: seq<Quote>, strike: real, stockPrice: real)
    requires forall q :: q in rows ==> q.openInterest >= 0
    ensures CallPain(rows, strike, stockPrice) >= 0.0
    ensures PutPain(rows, strike, stockPrice) >= 0.0
    ensures StrikePain(rows, strike, stockPrice) >= 0.0
  {
    if rows != [] {
      var last := rows[|rows| - 1];
      assert forall q :: q in rows[..|rows| - 1] ==> q in rows;
      PainNonNegative(rows[..|rows| - 1], strike, stockPrice);
      RowPainNonNegative(last, strike, stockPrice);
    }
  }

  lemma RowPainNonNegative(q: Quote, strike: real, stockPrice: real)
    requires q.openInterest >= 0
    ensures CallRowPain(q, strike, stockPrice) >= 0.0 && PutRowPain(q, strike, stockPrice) >= 0.0
  {
    var oi := q.openInterest as real;
    if stockPrice > strike {
      assert oi * (stockPrice - strike) >= 0.0;
    }
    if stockPrice < strike {
      assert oi * (strike - stockPrice) >= 0.0;
    }
  }

  /** A batch whose rows all share one strike has that strike as its max pain. */
  lemma SingleStrikeMaxPain(rows: seq<Quote>, pain: map<real, real>, s: real)
    requires rows != [] && forall q :: q in rows ==> q.strike == rows[0].strike
    requires pain.Keys == Strikes(rows) && IsMaxPainStrike(pain, s)
    ensures s == rows[0].strike
  {
  }

  /** Calls pay nothing at a strike at or above the stock price, so a batch of
      only calls there carries no pain. */
  lemma {:induction false} CallsAtOrAboveSpotPainless(rows: seq<Quote>, strike: real, stockPrice: real)
    requires stockPrice <= strike && forall q :: q in rows ==> q.kind == Call
    ensures StrikePain(rows, strike, stockPrice) == 0.0
  {
    if rows != [] {
      assert forall q :: q in rows[..|rows| - 1] ==> q in rows;
      CallsAtOrAboveSpotPainless(rows[..|rows| - 1], strike, stockPrice);
    }
  }
}
