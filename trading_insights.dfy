/**
 * The rule list that turns the sections of an analysis into trading
 * insights. Each insight is kept as a value (its kind and the numbers the
 * message is built from); the wording of the messages is not modelled.
 */
module TradingInsights {
  import opened OptionRecords

  /** The parts of an analysis result the rules read. A section that is
      absent is None; a section that is present but lacks the value the rule
      reads contributes that value's default, 0 (for the multi-strike list,
      an empty list). */
  datatype InsightInput = InsightInput(
    putCallRatio: Option<real>,
    institutional: Option<InstitutionalView>,
    stockPrice: real,
    maxPain: real,
    deltaExposure: Option<real>,
    meanIv: Option<real>)

  datatype InstitutionalView = InstitutionalView(probability: real, multiStrikeCount: nat)

  datatype Insight =
    | HighPutActivity
    | HighCallActivity
    | StrongInstitutional
    | ComplexStrategies(expirations: nat)
    | MaxPainGap(percent: real, above: bool)
    | DirectionalDelta(long: bool, amount: real)
    | HighIv
    | LowIv
    | MixedSignals

  /** The source divides by the stock price, and by the max-pain level once
      the 5% gap rule fires. */
  predicate InsightsDefined(input: InsightInput)
  {
    && input.stockPrice != 0.0
    && (Abs(input.stockPrice - input.maxPain) / input.stockPrice > 0.05 ==> input.maxPain != 0.0)
  }

  predicate HighPuts(input: InsightInput)
  {
    input.putCallRatio.Some? && input.putCallRatio.value > 1.2
  }

  predicate HighCalls(input: InsightInput)
  {
    input.putCallRatio.Some? && input.putCallRatio.value < 0.6
  }

  predicate StrongInstitutionalActivity(input: InsightInput)
  {
    input.institutional.Some? && input.institutional.value.probability > 70.0
  }

  predicate HasComplexStrategies(input: InsightInput)
  {
    input.institutional.Some? && input.institutional.value.multiStrikeCount > 0
  }

  predicate MaxPainFar(input: InsightInput)
    requires input.stockPrice != 0.0
  {
    Abs(input.stockPrice - input.maxPain) / input.stockPrice > 0.05
  }

  predicate LargeDeltaExposure(input: InsightInput)
  {
    input.deltaExposure.Some? && Abs(input.deltaExposure.value) > 1000000.0
  }

  predicate HighMeanIv(input: InsightInput)
  {
    input.meanIv.Some? && input.meanIv.value > 0.4
  }

  predicate LowMeanIv(input: InsightInput)
  {
    input.meanIv.Some? && input.meanIv.value < 0.15
  }

  /** Whether any rule fires; when none does, the fallback is reported. */
  predicate AnyRuleFires(input: InsightInput)
    requires input.stockPrice != 0.0
  {
    HighPuts(input) || HighCalls(input) || StrongInstitutionalActivity(input)
    || HasComplexStrategies(input) || MaxPainFar(input) || LargeDeltaExposure(input)
    || HighMeanIv(input) || LowMeanIv(input)
  }

  function PcrInsight(input: InsightInput): seq<Insight>
  {
    if HighPuts(input) then [HighPutActivity]
    else if HighCalls(input) then [HighCallActivity]
    else []
  }

  function InstitutionalInsights(input: InsightInput): seq<Insight>
  {
    (if StrongInstitutionalActivity(input) then [StrongInstitutional] else [])
    + (if HasComplexStrategies(input) then [ComplexStrategies(input.institutional.value.multiStrikeCount)] else [])
  }

  function MaxPainInsight(input: InsightInput): seq<Insight>
    requires InsightsDefined(input)
  {
    if MaxPainFar(input)
    then [MaxPainGap(Abs((input.stockPrice / input.maxPain - 1.0) * 100.0), input.stockPrice > input.maxPain)]
    else []
  }

  function DeltaInsight(input: InsightInput): seq<Insight>
  {
    if LargeDeltaExposure(input)
    then [DirectionalDelta(input.deltaExposure.value > 0.0, Abs(input.deltaExposure.value))]
    else []
  }

  function IvInsight(input: InsightInput): seq<Insight>
  {
    if HighMeanIv(input) then [HighIv]
    else if LowMeanIv(input) then [LowIv]
    else []
  }

  /** The insights of the rules, in the order the source checks them, or the
      mixed-signals fallback alone when no rule fires. */
  function InsightsOf(input: InsightInput): seq<Insight>
    requires InsightsDefined(input)
  {
    var fired := PcrInsight(input) + InstitutionalInsights(input) + MaxPainInsight(input)
                 + DeltaInsight(input) + IvInsight(input);
    if fired == [] then [MixedSignals] else fired
  }

  /** What is in the list: the fired rules' insights, or the fallback alone. */
  lemma InsightsMembership(input: InsightInput)
    requires InsightsDefined(input)
    ensures 1 <= |InsightsOf(input)| <= 7
    ensures InsightsOf(input) == [MixedSignals] <==> !AnyRuleFires(input)
    ensures forall x :: x in InsightsOf(input) <==>
      if AnyRuleFires(input)
      then x in PcrInsight(input) || x in InstitutionalInsights(input) || x in MaxPainInsight(input)
           || x in DeltaInsight(input) || x in IvInsight(input)
      else x == MixedSignals
  {
    var fired := PcrInsight(input) + InstitutionalInsights(input) + MaxPainInsight(input)
                 + DeltaInsight(input) + IvInsight(input);
    assert MixedSignals !in fired;
    assert fired == [] <==> !AnyRuleFires(input);
  }

  /** The fallback is reported exactly when no rule fires, and then alone;
      the put/call and the volatility readings are reported exactly when
      their thresholds are crossed. */
  lemma ReadingRules(input: InsightInput)
    requires InsightsDefined(input)
    ensures MixedSignals in InsightsOf(input) <==> !AnyRuleFires(input)
    ensures HighPutActivity in InsightsOf(input) <==> HighPuts(input)
    ensures HighCallActivity in InsightsOf(input) <==> HighCalls(input)
    ensures StrongInstitutional in InsightsOf(input) <==> StrongInstitutionalActivity(input)
    ensures HighIv in InsightsOf(input) <==> HighMeanIv(input)
    ensures LowIv in InsightsOf(input) <==> LowMeanIv(input)
  {
    InsightsMembership(input);
  }

  /** The multi-strike, max-pain and delta insights are reported exactly when
      their conditions hold, carrying the numbers their messages show. */
  lemma QuantityRules(input: InsightInput)
    requires InsightsDefined(input)
    ensures HasComplexStrategies(input) ==>
      ComplexStrategies(input.institutional.value.multiStrikeCount) in InsightsOf(input)
    ensures forall x :: x in InsightsOf(input) && x.ComplexStrategies? ==>
      HasComplexStrategies(input) && x.expirations == input.institutional.value.multiStrikeCount
    ensures MaxPainFar(input) ==>
      MaxPainGap(Abs((input.stockPrice / input.maxPain - 1.0) * 100.0),
                 input.stockPrice > input.maxPain) in InsightsOf(input)
    ensures forall x :: x in InsightsOf(input) && x.MaxPainGap? ==>
      && MaxPainFar(input)
      && x.percent == Abs((input.stockPrice / input.maxPain - 1.0) * 100.0)
      && (x.above <==> input.stockPrice > input.maxPain)
    ensures LargeDeltaExposure(input) ==>
      DirectionalDelta(input.deltaExposure.value > 0.0, Abs(input.deltaExposure.value)) in InsightsOf(input)
    ensures forall x :: x in InsightsOf(input) && x.DirectionalDelta? ==>
      && LargeDeltaExposure(input)
      && x.amount == Abs(input.deltaExposure.value)
      && (x.long <==> input.deltaExposure.value > 0.0)
  {
    InsightsMembership(input);
  }

  /** High put activity and high call activity are never reported together,
      nor are high and low implied volatility. */
  lemma ExclusiveReadings(input: InsightInput)
    requires InsightsDefined(input)
    ensures !(HighPutActivity in InsightsOf(input) && HighCallActivity in InsightsOf(input))
    ensures !(HighIv in InsightsOf(input) && LowIv in InsightsOf(input))
  {
    ReadingRules(input);
  }

  /** The portfolio step reports |total delta| · S · 100, which is never
      negative for a positive stock price; fed such an exposure, the delta
      rule can only ever report a long bias. */
  lemma NeverShortOnComputedExposure(input: InsightInput)
    requires InsightsDefined(input)
    requires input.deltaExposure.Some? ==> input.deltaExposure.value >= 0.0
    ensures forall x :: x in InsightsOf(input) && x.DirectionalDelta? ==> x.long
  {
    QuantityRules(input);
  }

  /** The rules in the order the source checks them, each appending at most
      one insight, and the mixed-signals fallback. */
  method GenerateTradingInsights(input: InsightInput) returns (insights: seq<Insight>)
    requires InsightsDefined(input)
    ensures insights == InsightsOf(input)
  {
    insights := [];
    if input.putCallRatio.Some? {
      var pcRatio := input.putCallRatio.value;
      if pcRatio > 1.2 {
        insights := insights + [HighPutActivity];
      } else if pcRatio < 0.6 {
        insights := insights + [HighCallActivity];
      }
    }
    assert insights == PcrInsight(input);
    if input.institutional.Some? {
      var instProb := input.institutional.value.probability;
      if instProb > 70.0 {
        insights := insights + [StrongInstitutional];
      }
      var multiStrike := input.institutional.value.multiStrikeCount;
      if multiStrike > 0 {
        insights := insights + [ComplexStrategies(multiStrike)];
      }
    }
    assert insights == PcrInsight(input) + InstitutionalInsights(input);
    var stockPrice := input.stockPrice;
    var maxPain := input.maxPain;
    if Abs(stockPrice - maxPain) / stockPrice > 0.05 {
      var above := stockPrice > maxPain;
      insights := insights + [MaxPainGap(Abs((stockPrice / maxPain - 1.0) * 100.0), above)];
    }
    assert insights == PcrInsight(input) + InstitutionalInsights(input) + MaxPainInsight(input);
    if input.deltaExposure.Some? {
      var deltaExp := input.deltaExposure.value;
      if Abs(deltaExp) > 1000000.0 {
        var long := deltaExp > 0.0;
        insights := insights + [DirectionalDelta(long, Abs(deltaExp))];
      }
    }
    assert insights == PcrInsight(input) + InstitutionalInsights(input) + MaxPainInsight(input)
                       + DeltaInsight(input);
    if input.meanIv.Some? {
      var meanIv := input.meanIv.value;
      if meanIv > 0.4 {
        insights := insights + [HighIv];
      } else if meanIv < 0.15 {
        insights := insights + [LowIv];
      }
    }
    assert insights == PcrInsight(input) + InstitutionalInsights(input) + MaxPainInsight(input)
                       + DeltaInsight(input) + IvInsight(input);
    if insights == [] {
      insights := insights + [MixedSignals];
    }
  }
}
