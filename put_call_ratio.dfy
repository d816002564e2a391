/**
 * Put/call ratios by volume, open interest and premium, and the market
 * sentiment read off the volume ratio.
 */
module PutCallRatio {
  import opened OptionRecords

  datatype PcrSentiment = VeryBearish | Bearish | Neutral | Bullish | VeryBullish

  datatype PutCallAnalysis = PutCallAnalysis(
    volumePutCallRatio: real,
    oiPutCallRatio: real,
    premiumPutCallRatio: real,
    totalCallVolume: int,
    totalPutVolume: int,
    totalCallOi: int,
    totalPutOi: int,
    sentiment: PcrSentiment)

  function CallVolume(q: Quote): int { if q.kind == Call then q.volume else 0 }
  function PutVolume(q: Quote): int { if q.kind == Put then q.volume else 0 }
  function CallOi(q: Quote): int { if q.kind == Call then q.openInterest else 0 }
  function PutOi(q: Quote): int { if q.kind == Put then q.openInterest else 0 }
  function CallPremium(q: Quote): real { if q.kind == Call then q.totalPremium else 0.0 }
  function PutPremium(q: Quote): real { if q.kind == Put then q.totalPremium else 0.0 }

  /** put / call, or 0 when the call side is not positive. */
  function Ratio(put: real, call: real): (r: real)
    ensures call > 0.0 ==> r * call == put
    ensures call <= 0.0 ==> r == 0.0
    ensures call > 0.0 && put >= 0.0 ==> r >= 0.0
  {
    if call > 0.0 then put / call else 0.0
  }

  /** Strict thresholds, checked from the most bearish down. */
  function InterpretPcr(pcr: real): (s: PcrSentiment)
    ensures s == VeryBearish <==> pcr > 1.2
    ensures s == Bearish <==> 1.0 < pcr <= 1.2
    ensures s == Neutral <==> 0.8 < pcr <= 1.0
    ensures s == Bullish <==> 0.6 < pcr <= 0.8
    ensures s == VeryBullish <==> pcr <= 0.6
  {
    if pcr > 1.2 then VeryBearish
    else if pcr > 1.0 then Bearish
    else if pcr > 0.8 then Neutral
    else if pcr > 0.6 then Bullish
    else VeryBullish
  }

  function BearishRank(s: PcrSentiment): nat
  {
    match s
    case VeryBullish => 0
    case Bullish => 1
    case Neutral => 2
    case Bearish => 3
    case VeryBearish => 4
  }

  /** A higher put/call ratio never reads as more bullish. */
  lemma InterpretPcrMonotone(p1: real, p2: real)
    requires p1 <= p2
    ensures BearishRank(InterpretPcr(p1)) <= BearishRank(InterpretPcr(p2))
  {
  }

  /** An empty batch gives no analysis; otherwise each ratio divides the put
      total by the call total (0 when there is no call activity) and the
      sentiment reads the volume ratio. */
  function CalculatePutCallRatio(rows: seq<Quote>): (r: Option<PutCallAnalysis>)
    ensures rows == [] <==> r.None?
    ensures r.Some? ==>
      && r.value.totalCallVolume == SumInt(rows, CallVolume)
      && r.value.totalPutVolume == SumInt(rows, PutVolume)
      && r.value.totalCallOi == SumInt(rows, CallOi)
      && r.value.totalPutOi == SumInt(rows, PutOi)
      && (SumInt(rows, CallVolume) > 0 ==>
            r.value.volumePutCallRatio * SumInt(rows, CallVolume) as real == SumInt(rows, PutVolume) as real)
      && (SumInt(rows, CallVolume) <= 0 ==> r.value.volumePutCallRatio == 0.0)
      && (SumInt(rows, CallOi) > 0 ==>
            r.value.oiPutCallRatio * SumInt(rows, CallOi) as real == SumInt(rows, PutOi) as real)
      && (SumInt(rows, CallOi) <= 0 ==> r.value.oiPutCallRatio == 0.0)
      && (SumReal(rows, CallPremium) > 0.0 ==>
            r.value.premiumPutCallRatio * SumReal(rows, CallPremium) == SumReal(rows, PutPremium))
      && (SumReal(rows, CallPremium) <= 0.0 ==> r.value.premiumPutCallRatio == 0.0)
      && r.value.sentiment == InterpretPcr(r.value.volumePutCallRatio)
  {
    if rows == [] then None
    else
      var callVolume := SumInt(rows, CallVolume);
      var putVolume := SumInt(rows, PutVolume);
      var volumePcr := Ratio(putVolume as real, callVolume as real);
      var callOi := SumInt(rows, CallOi);
      var putOi := SumInt(rows, PutOi);
      var oiPcr := Ratio(putOi as real, callOi as real);
      var callPremium := SumReal(rows, CallPremium);
      var putPremium := SumReal(rows, PutPremium);
      var premiumPcr := Ratio(putPremium, callPremium);
      Some(PutCallAnalysis(volumePcr, oiPcr, premiumPcr, callVolume, putVolume, callOi, putOi,
                           InterpretPcr(volumePcr)))
  }

  /** Worked example: 1000 call contracts against 1500 put contracts give a
      volume ratio of 1.5, read as very bearish. */
  lemma WorkedExample(rows: seq<Quote>)
    requires rows != []
    requires SumInt(rows, CallVolume) == 1000 && SumInt(rows, PutVolume) == 1500
    ensures CalculatePutCallRatio(rows).value.volumePutCallRatio == 1.5
    ensures CalculatePutCallRatio(rows).value.sentiment == VeryBearish
  {
  }

  /** A batch with no puts has every ratio 0 and reads as very bullish. */
  lemma {:induction false} NoPutsVeryBullish(rows: seq<Quote>)
    requires rows != [] && forall q :: q in rows ==> q.kind != Put
    ensures CalculatePutCallRatio(rows).value.volumePutCallRatio == 0.0
    ensures CalculatePutCallRatio(rows).value.sentiment == VeryBullish
  {
    NoPutVolume(rows);
  }

  lemma {:induction false} NoPutVolume(rows: seq<Quote>)
    requires forall q :: q in rows ==> q.kind != Put
    ensures SumInt(rows, PutVolume) == 0
  {
    if rows != [] {
      assert forall q :: q in rows[..|rows| - 1] ==> q in rows;
      NoPutVolume(rows[..|rows| - 1]);
    }
  }
}
