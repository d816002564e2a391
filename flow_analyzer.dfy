/**
 * The per-trade flow classifier: trade mechanism, size tier, sentiment, the
 * 0-100 unusual-activity score and the confidence value. The two scores are
 * accumulated step by step in the source, so they are methods here, each
 * proved against a specification function whose properties are lemmas.
 */
module FlowAnalyzer {
  import opened OptionRecords

  datatype FlowType = Block | Sweep | Single

  datatype SizeCategory = Retail | Institutional | Whale

  datatype Sentiment = Bullish | Bearish | Neutral

  datatype FlowAnalysis = FlowAnalysis(
    flowType: FlowType,
    sentiment: Sentiment,
    sizeCategory: SizeCategory,
    unusualScore: real,
    confidence: real)

  const BlockMinVolume: int := 500
  const BlockMinPremium: real := 100000.0
  const SweepMinVolume: int := 100
  const SweepMinSpread: real := 0.05

  /** The "spread" the source feeds to the classifier is the signed `bid - ask`. */
  function Spread(q: Quote): real
  {
    q.bid - q.ask
  }

  /** Block takes priority over sweep; everything else is a single order. */
  function DetermineFlowType(volume: int, premium: real, spread: real): (t: FlowType)
    ensures t == Block <==> volume >= BlockMinVolume && premium >= BlockMinPremium
    ensures t == Sweep <==> !(volume >= BlockMinVolume && premium >= BlockMinPremium)
                            && volume >= SweepMinVolume && spread > SweepMinSpread
    ensures t == Single <==> !(volume >= BlockMinVolume && premium >= BlockMinPremium)
                             && !(volume >= SweepMinVolume && spread > SweepMinSpread)
  {
    if volume >= BlockMinVolume && premium >= BlockMinPremium then Block
    else if volume >= SweepMinVolume && spread > SweepMinSpread then Sweep
    else Single
  }

  /** Worked example: 600 contracts, $150,000 and a 0.10 spread meet both the
      block and the sweep conditions, and classify as a block. */
  lemma BlockBeatsSweepExample()
    ensures DetermineFlowType(600, 150000.0, 0.1) == Block
  {
  }

  function CategorizeTradeSize(volume: int, premium: real): (c: SizeCategory)
    ensures c == Whale <==> premium >= 1000000.0 || volume >= 2000
    ensures c == Institutional <==> !(premium >= 1000000.0 || volume >= 2000)
                                    && (premium >= 100000.0 || volume >= 500)
    ensures c == Retail <==> premium < 100000.0 && volume < 500
  {
    if premium >= 1000000.0 || volume >= 2000 then Whale
    else if premium >= 100000.0 || volume >= 500 then Institutional
    else Retail
  }

  function SizeRank(c: SizeCategory): nat
  {
    match c
    case Retail => 0
    case Institutional => 1
    case Whale => 2
  }

  /** Raising the premium or the volume never lowers the size tier. */
  lemma SizeCategoryMonotone(v1: int, p1: real, v2: int, p2: real)
    requires v1 <= v2 && p1 <= p2
    ensures SizeRank(CategorizeTradeSize(v1, p1)) <= SizeRank(CategorizeTradeSize(v2, p2))
  {
  }

  /** Calls lean bullish and puts bearish when in or at the money, or on more
      than 1000 contracts out of the money; anything else is neutral. */
  function AnalyzeSentiment(kind: OptionKind, moneyness: Moneyness, volume: int): (s: Sentiment)
    ensures kind == Call ==> s != Bearish
    ensures kind == Put ==> s != Bullish
    ensures kind.Other? ==> s == Neutral
    ensures kind == Call && (moneyness == ITM || moneyness == ATM) ==> s == Bullish
    ensures kind == Put && (moneyness == ITM || moneyness == ATM) ==> s == Bearish
    ensures s != Neutral <==> !kind.Other? && (moneyness == ITM || moneyness == ATM || volume > 1000)
  {
    match kind
    case Call => if moneyness == ITM || moneyness == ATM then Bullish
                 else if volume > 1000 then Bullish
                 else Neutral
    case Put => if moneyness == ITM || moneyness == ATM then Bearish
                else if volume > 1000 then Bearish
                else Neutral
    case Other(_) => Neutral
  }

  /** The volume it is compared against: `avg_volume` if present, else the
      trade's own volume. */
  function AverageVolume(q: Quote): real
  {
    if q.avgVolume.Some? then q.avgVolume.value else q.volume as real
  }

  /** Up to 40 points for volume relative to the average volume. */
  function VolumePoints(q: Quote): (p: real)
    ensures p <= 40.0
    ensures q.volume >= 0 ==> p >= 0.0
    ensures AverageVolume(q) <= 0.0 ==> p == 0.0
  {
    var avg := AverageVolume(q);
    if avg > 0.0 then Min(40.0, q.volume as real / avg * 5.0) else 0.0
  }

  /** 30/25/20/15/0 points for premiums of $1M/$500K/$100K/$50K/less. */
  function PremiumPoints(premium: real): (p: real)
    ensures 0.0 <= p <= 30.0
  {
    if premium >= 1000000.0 then 30.0
    else if premium >= 500000.0 then 25.0
    else if premium >= 100000.0 then 20.0
    else if premium >= 50000.0 then 15.0
    else 0.0
  }

  /** volume / open interest, 0 when open interest is not positive. */
  function OiRatio(volume: int, openInterest: int): real
  {
    if openInterest > 0 then volume as real / openInterest as real else 0.0
  }

  /** 20/15/10/0 points for a volume-to-open-interest ratio of 1/0.5/0.25/less. */
  function OiPoints(volume: int, openInterest: int): (p: real)
    ensures 0.0 <= p <= 20.0
  {
    var ratio := OiRatio(volume, openInterest);
    if ratio >= 1.0 then 20.0
    else if ratio >= 0.5 then 15.0
    else if ratio >= 0.25 then 10.0
    else 0.0
  }

  /** The unusual score: the three component scores added, capped at 100. The
      time-to-expiry component the source reserves is not scored. */
  function UnusualScore(q: Quote): real
  {
    Min(100.0, VolumePoints(q) + PremiumPoints(q.totalPremium) + OiPoints(q.volume, q.openInterest))
  }

  method CalculateUnusualScore(q: Quote) returns (score: real)
    ensures score == UnusualScore(q)
  {
    score := 0.0;
    var volume := q.volume;
    var avgVolume := if q.avgVolume.Some? then q.avgVolume.value else volume as real;
    if avgVolume > 0.0 {
      var volumeRatio := volume as real / avgVolume;
      score := score + Min(40.0, volumeRatio * 5.0);
    }
    var premium := q.totalPremium;
    if premium >= 1000000.0 {
      score := score + 30.0;
    } else if premium >= 500000.0 {
      score := score + 25.0;
    } else if premium >= 100000.0 {
      score := score + 20.0;
    } else if premium >= 50000.0 {
      score := score + 15.0;
    }
    var oiRatio := if q.openInterest > 0 then volume as real / q.openInterest as real else 0.0;
    if oiRatio >= 1.0 {
      score := score + 20.0;
    } else if oiRatio >= 0.5 {
      score := score + 15.0;
    } else if oiRatio >= 0.25 {
      score := score + 10.0;
    }
    score := Min(100.0, score);
  }

  /** For a non-negative volume the score lies in [0, 100]. */
  lemma UnusualScoreBounds(q: Quote)
    requires q.volume >= 0
    ensures 0.0 <= UnusualScore(q) <= 100.0
  {
  }

  /** With everything else fixed, a larger premium never lowers the score. */
  lemma UnusualScoreMonotoneInPremium(q: Quote, premium: real)
    requires q.totalPremium <= premium
    ensures UnusualScore(q) <= UnusualScore(q.(totalPremium := premium))
  {
  }

  /** Without an `avg_volume` column the trade is compared with itself: the
      volume component is 5 points for any traded volume and 0 otherwise. */
  lemma DefaultAverageVolumePoints(q: Quote)
    requires q.avgVolume.None?
    ensures VolumePoints(q) == if q.volume > 0 then 5.0 else 0.0
  {
    if q.volume > 0 {
      assert q.volume as real / q.volume as real == 1.0;
    }
  }

  /** A non-positive open interest earns nothing from the open-interest component. */
  lemma NoOpenInterestNoPoints(volume: int, openInterest: int)
    requires openInterest <= 0
    ensures OiPoints(volume, openInterest) == 0.0
  {
  }

  predicate HasQuotes(q: Quote) { q.bid > 0.0 && q.ask > 0.0 }
  predicate HasIv(q: Quote) { q.impliedVolatility > 0.0 }
  predicate HasOpenInterest(q: Quote) { q.openInterest > 0 }
  predicate IsLargePremium(q: Quote) { q.totalPremium >= 100000.0 }

  function Indicator(b: bool, weight: real): real
  {
    if b then weight else 0.0
  }

  /** Base 0.5 plus 0.1 for each of quotes, IV and open interest being present
      and 0.2 for a premium of at least $100K, capped at 1. */
  function Confidence(q: Quote): real
  {
    Min(1.0, 0.5 + Indicator(HasQuotes(q), 0.1) + Indicator(HasIv(q), 0.1)
             + Indicator(HasOpenInterest(q), 0.1) + Indicator(IsLargePremium(q), 0.2))
  }

  method CalculateConfidence(q: Quote) returns (confidence: real)
    ensures confidence == Confidence(q)
  {
    confidence := 0.5;
    if q.bid > 0.0 && q.ask > 0.0 {
      confidence := confidence + 0.1;
    }
    if q.impliedVolatility > 0.0 {
      confidence := confidence + 0.1;
    }
    if q.openInterest > 0 {
      confidence := confidence + 0.1;
    }
    var premium := q.totalPremium;
    if premium >= 100000.0 {
      confidence := confidence + 0.2;
    }
    confidence := Min(1.0, confidence);
  }

  /** Confidence always lies in [0.5, 1]. */
  lemma ConfidenceBounds(q: Quote)
    ensures 0.5 <= Confidence(q) <= 1.0
  {
  }

  /** Each indicator can only raise the confidence: a trade that has every
      indicator another trade has is at least as confident. */
  lemma ConfidenceMonotone(q1: Quote, q2: Quote)
    requires HasQuotes(q1) ==> HasQuotes(q2)
    requires HasIv(q1) ==> HasIv(q2)
    requires HasOpenInterest(q1) ==> HasOpenInterest(q2)
    requires IsLargePremium(q1) ==> IsLargePremium(q2)
    ensures Confidence(q1) <= Confidence(q2)
  {
  }

  /** The full per-trade analysis. */
  function FlowAnalysisOf(q: Quote): FlowAnalysis
  {
    FlowAnalysis(
      DetermineFlowType(q.volume, q.totalPremium, Spread(q)),
      AnalyzeSentiment(q.kind, q.moneyness, q.volume),
      CategorizeTradeSize(q.volume, q.totalPremium),
      UnusualScore(q),
      Confidence(q))
  }

  method AnalyzeSingleTrade(q: Quote) returns (analysis: FlowAnalysis)
    ensures analysis == FlowAnalysisOf(q)
    ensures q.volume >= 0 ==> 0.0 <= analysis.unusualScore <= 100.0
    ensures 0.5 <= analysis.confidence <= 1.0
  {
    var volume := q.volume;
    var premium := q.totalPremium;
    var bidAskSpread := q.bid - q.ask;
    var flowType := DetermineFlowType(volume, premium, bidAskSpread);
    var sizeCategory := CategorizeTradeSize(volume, premium);
    var sentiment := AnalyzeSentiment(q.kind, q.moneyness, volume);
    var unusualScore := CalculateUnusualScore(q);
    var confidence := CalculateConfidence(q);
    if q.volume >= 0 { UnusualScoreBounds(q); }
    ConfidenceBounds(q);
    analysis := FlowAnalysis(flowType, sentiment, sizeCategory, unusualScore, confidence);
  }
}
