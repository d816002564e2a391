/**
 * Institutional-activity detection over a batch: large-premium trades,
 * large-size ("dark pool") volume, multi-strike strategies per expiration,
 * and the 0-100 institutional-probability score.
 */
module InstitutionalActivity {
  import opened OptionRecords
  import opened SortedKeys

  /** `flow_config.institutional_threshold`: $500K. */
  const InstitutionalThreshold: real := 500000.0
  const DarkPoolMinVolume: int := 1000
  const MultiStrikeMinStrikes: nat := 3
  const MultiStrikeMinPremium: real := 250000.0
  const LargeVolume: int := 500

  /** One entry of `multi_strike_strategies`. */
  datatype MultiStrike = MultiStrike(expiry: string, strikes: nat, totalPremium: real, totalVolume: int)

  datatype InstitutionalReport = InstitutionalReport(
    largeTradeCount: nat,
    largeTradePremium: real,
    potentialDarkPoolVolume: int,
    multiStrikeStrategies: seq<MultiStrike>,
    institutionalProbability: real)

  predicate IsLargeTrade(q: Quote) { q.totalPremium >= InstitutionalThreshold }
  function LargeTradePremium(q: Quote): real { if IsLargeTrade(q) then q.totalPremium else 0.0 }
  function DarkPoolVolume(q: Quote): int { if q.volume > DarkPoolMinVolume then q.volume else 0 }
  predicate IsLargeVolume(q: Quote) { q.volume >= LargeVolume }
  predicate IsCallRow(q: Quote) { q.kind == Call }
  predicate IsPutRow(q: Quote) { q.kind == Put }

  /** The rows of one expiration, in row order (one group of
      `groupby('expiration')`). */
  function GroupOf(rows: seq<Quote>, expiry: string): (g: seq<Quote>)
    ensures forall q :: q in g <==> q in rows && q.expiration == expiry
  {
    if rows == [] then []
    else
      var init := rows[..|rows| - 1];
      var last := rows[|rows| - 1];
      assert forall q :: q in rows <==> q in init || q == last;
      GroupOf(init, expiry) + (if last.expiration == expiry then [last] else [])
  }

  /** An expiration holds a multi-strike strategy when its rows span at least
      three distinct strikes and at least $250K of premium. */
  predicate Qualifies(rows: seq<Quote>, expiry: string)
  {
    var group := GroupOf(rows, expiry);
    |Strikes(group)| >= MultiStrikeMinStrikes && SumReal(group, Premium) >= MultiStrikeMinPremium
  }

  function EntryOf(rows: seq<Quote>, expiry: string): MultiStrike
  {
    var group := GroupOf(rows, expiry);
    MultiStrike(expiry, |Strikes(group)|, SumReal(group, Premium), SumInt(group, Volume))
  }

  /** The entries for the given expirations, in their order. */
  function MultiStrikeEntries(rows: seq<Quote>, expiries: seq<string>): seq<MultiStrike>
  {
    if expiries == [] then []
    else
      var e := expiries[|expiries| - 1];
      MultiStrikeEntries(rows, expiries[..|expiries| - 1]) + (if Qualifies(rows, e) then [EntryOf(rows, e)] else [])
  }

  /** An entry is listed exactly when its expiration is among those visited,
      qualifies, and the entry describes that expiration's rows. */
  lemma {:induction false} MultiStrikeEntriesMembership(rows: seq<Quote>, expiries: seq<string>)
    ensures forall x :: x in MultiStrikeEntries(rows, expiries) <==>
      x.expiry in expiries && Qualifies(rows, x.expiry) && x == EntryOf(rows, x.expiry)
  {
    if expiries != [] {
      var init := expiries[..|expiries| - 1];
      assert forall e :: e in expiries <==> e in init || e == expiries[|expiries| - 1];
      MultiStrikeEntriesMembership(rows, init);
    }
  }

  /** The expirations `groupby` visits: the distinct expirations, ascending. */
  function ExpiryKeys(rows: seq<Quote>): (keys: seq<string>)
    ensures forall e :: e in keys <==> e in Expiries(rows)
    ensures Ascending(keys, StrLess)
  {
    StrLessIsStrictTotalOrder();
    ExpiriesAreColumn(rows);
    SortedDistinct(ExpiryColumn(rows), StrLess)
  }

  /** The multi-strike strategies of a batch list exactly its expirations with
      at least three distinct strikes and at least $250K of premium. */
  lemma MultiStrikeExactly(rows: seq<Quote>)
    ensures forall x :: x in MultiStrikeEntries(rows, ExpiryKeys(rows)) <==>
      x.expiry in Expiries(rows) && Qualifies(rows, x.expiry) && x == EntryOf(rows, x.expiry)
  {
    MultiStrikeEntriesMembership(rows, ExpiryKeys(rows));
  }

  /** Points for the batch's total premium: 30/25/20/15/0 at $5M/$1M/$500K/$100K/less. */
  function PremiumTierPoints(totalPremium: real): (p: real)
    ensures 0.0 <= p <= 30.0
  {
    if totalPremium >= 5000000.0 then 30.0
    else if totalPremium >= 1000000.0 then 25.0
    else if totalPremium >= 500000.0 then 20.0
    else if totalPremium >= 100000.0 then 15.0
    else 0.0
  }

  /** Points for the number of rows of at least 500 contracts: 25/20/15/0 at 5/3/1/none. */
  function ConcentrationPoints(largeVolumeTrades: nat): (p: real)
    ensures 0.0 <= p <= 25.0
  {
    if largeVolumeTrades >= 5 then 25.0
    else if largeVolumeTrades >= 3 then 20.0
    else if largeVolumeTrades >= 1 then 15.0
    else 0.0
  }

  /** Points for strike diversity: 20/15/10/0 at 10/5/3/fewer distinct strikes. */
  function DiversityPoints(uniqueStrikes: nat): (p: real)
    ensures 0.0 <= p <= 20.0
  {
    if uniqueStrikes >= 10 then 20.0
    else if uniqueStrikes >= 5 then 15.0
    else if uniqueStrikes >= 3 then 10.0
    else 0.0
  }

  /** Points for spread over time: 15/10/0 at 3/2/fewer distinct expirations. */
  function TimeSpreadPoints(uniqueExpiries: nat): (p: real)
    ensures 0.0 <= p <= 15.0
  {
    if uniqueExpiries >= 3 then 15.0
    else if uniqueExpiries >= 2 then 10.0
    else 0.0
  }

  /** 10 points when the batch has both calls and puts. */
  function MixPoints(callCount: nat, putCount: nat): (p: real)
    ensures p == 10.0 <==> callCount > 0 && putCount > 0
    ensures p == 0.0 <==> !(callCount > 0 && putCount > 0)
  {
    if callCount > 0 && putCount > 0 then 10.0 else 0.0
  }

  /** The batch statistics the score reads. */
  datatype BatchFeatures = BatchFeatures(
    totalPremium: real,
    largeVolumeTrades: nat,
    uniqueStrikes: nat,
    uniqueExpiries: nat,
    callCount: nat,
    putCount: nat)

  function FeaturesOf(rows: seq<Quote>): BatchFeatures
  {
    BatchFeatures(SumReal(rows, Premium), CountWhere(rows, IsLargeVolume), |Strikes(rows)|,
                  |Expiries(rows)|, CountWhere(rows, IsCallRow), CountWhere(rows, IsPutRow))
  }

  /** The five components added, capped at 100. */
  function ProbabilityFrom(f: BatchFeatures): real
  {
    Min(100.0, PremiumTierPoints(f.totalPremium) + ConcentrationPoints(f.largeVolumeTrades)
               + DiversityPoints(f.uniqueStrikes) + TimeSpreadPoints(f.uniqueExpiries)
               + MixPoints(f.callCount, f.putCount))
  }

  function InstitutionalProbability(rows: seq<Quote>): real
  {
    ProbabilityFrom(FeaturesOf(rows))
  }

  /** The score accumulation of the source, component by component. */
  method CalculateInstitutionalProbability(rows: seq<Quote>) returns (score: real)
    ensures score == InstitutionalProbability(rows)
    ensures 0.0 <= score <= 100.0
  {
    score := 0.0;
    var totalPremium := SumReal(rows, Premium);
    if totalPremium >= 5000000.0 {
      score := score + 30.0;
    } else if totalPremium >= 1000000.0 {
      score := score + 25.0;
    } else if totalPremium >= 500000.0 {
      score := score + 20.0;
    } else if totalPremium >= 100000.0 {
      score := score + 15.0;
    }
    assert score == PremiumTierPoints(totalPremium);
    var largeVolumeTrades := CountWhere(rows, IsLargeVolume);
    if largeVolumeTrades >= 5 {
      score := score + 25.0;
    } else if largeVolumeTrades >= 3 {
      score := score + 20.0;
    } else if largeVolumeTrades >= 1 {
      score := score + 15.0;
    }
    assert score == PremiumTierPoints(totalPremium) + ConcentrationPoints(largeVolumeTrades);
    var uniqueStrikes := |Strikes(rows)|;
    if uniqueStrikes >= 10 {
      score := score + 20.0;
    } else if uniqueStrikes >= 5 {
      score := score + 15.0;
    } else if uniqueStrikes >= 3 {
      score := score + 10.0;
    }
    assert score == PremiumTierPoints(totalPremium) + ConcentrationPoints(largeVolumeTrades)
                    + DiversityPoints(uniqueStrikes);
    var uniqueExpiries := |Expiries(rows)|;
    if uniqueExpiries >= 3 {
      score := score + 15.0;
    } else if uniqueExpiries >= 2 {
      score := score + 10.0;
    }
    assert score == PremiumTierPoints(totalPremium) + ConcentrationPoints(largeVolumeTrades)
                    + DiversityPoints(uniqueStrikes) + TimeSpreadPoints(uniqueExpiries);
    var callCount := CountWhere(rows, IsCallRow);
    var putCount := CountWhere(rows, IsPutRow);
    if callCount > 0 && putCount > 0 {
      score := score + 10.0;
    }
    ComponentsWithinCap(FeaturesOf(rows));
    score := Min(100.0, score);
  }

  /** The five components together never exceed 100, so the cap never bites
      and the score is their plain sum, in [0, 100]. */
  lemma ComponentsWithinCap(f: BatchFeatures)
    ensures var sum := PremiumTierPoints(f.totalPremium) + ConcentrationPoints(f.largeVolumeTrades)
                       + DiversityPoints(f.uniqueStrikes) + TimeSpreadPoints(f.uniqueExpiries)
                       + MixPoints(f.callCount, f.putCount);
            0.0 <= sum <= 100.0 && ProbabilityFrom(f) == sum
  {
  }

  /** More total premium or more large-volume rows, all else equal, never
      lower the score. */
  lemma ProbabilityMonotone(f: BatchFeatures, g: BatchFeatures)
    requires f.totalPremium <= g.totalPremium && f.largeVolumeTrades <= g.largeVolumeTrades
    requires f.uniqueStrikes == g.uniqueStrikes && f.uniqueExpiries == g.uniqueExpiries
    requires f.callCount == g.callCount && f.putCount == g.putCount
    ensures ProbabilityFrom(f) <= ProbabilityFrom(g)
  {
  }

  /** The options-mix bonus is awarded exactly when the batch holds at least
      one call and at least one put. */
  lemma MixBonusIffCallsAndPuts(rows: seq<Quote>)
    ensures var f := FeaturesOf(rows);
            MixPoints(f.callCount, f.putCount) == 10.0
            <==> (exists q :: q in rows && q.kind == Call) && (exists q :: q in rows && q.kind == Put)
  {
    CountWhereZero(rows, IsCallRow);
    CountWhereZero(rows, IsPutRow);
  }

  /** Every large trade carries at least $500K, so the large-trade premium is
      at least $500K times their count. */
  lemma {:induction false} LargeTradePremiumFloor(rows: seq<Quote>)
    ensures SumReal(rows, LargeTradePremium) >= InstitutionalThreshold * CountWhere(rows, IsLargeTrade) as real
  {
    if rows != [] {
      LargeTradePremiumFloor(rows[..|rows| - 1]);
    }
  }

  /** An empty batch gives no report. Otherwise the report counts and sums
      the rows of at least $500K premium, sums the volume of rows over 1000
      contracts, lists the multi-strike expirations in ascending order and
      carries the institutional probability. */
  method DetectInstitutionalActivity(rows: seq<Quote>) returns (r: Option<InstitutionalReport>)
    ensures rows == [] <==> r.None?
    ensures r.Some? ==>
      && r.value.largeTradeCount == CountWhere(rows, IsLargeTrade)
      && r.value.largeTradePremium == SumReal(rows, LargeTradePremium)
      && r.value.potentialDarkPoolVolume == SumInt(rows, DarkPoolVolume)
      && r.value.multiStrikeStrategies == MultiStrikeEntries(rows, ExpiryKeys(rows))
      && r.value.institutionalProbability == InstitutionalProbability(rows)
    ensures r.Some? ==> forall x :: x in r.value.multiStrikeStrategies <==>
      x.expiry in Expiries(rows) && Qualifies(rows, x.expiry) && x == EntryOf(rows, x.expiry)
  {
    if rows == [] {
      return None;
    }
    var expiries := ExpiryKeys(rows);
    var multiStrikeActivity: seq<MultiStrike> := [];
    var i := 0;
    while i < |expiries|
      invariant 0 <= i <= |expiries|
      invariant multiStrikeActivity == MultiStrikeEntries(rows, expiries[..i])
    {
      assert expiries[..i + 1][..i] == expiries[..i];
      var expiry := expiries[i];
      var group := GroupOf(rows, expiry);
      var strikes := |Strikes(group)|;
      if strikes >= MultiStrikeMinStrikes {
        var totalPremium := SumReal(group, Premium);
        if totalPremium >= MultiStrikeMinPremium {
          multiStrikeActivity := multiStrikeActivity
                                 + [MultiStrike(expiry, strikes, totalPremium, SumInt(group, Volume))];
        }
      }
      i := i + 1;
    }
    assert expiries[..|expiries|] == expiries;
    MultiStrikeExactly(rows);
    var probability := CalculateInstitutionalProbability(rows);
    r := Some(InstitutionalReport(CountWhere(rows, IsLargeTrade), SumReal(rows, LargeTradePremium),
                                  SumInt(rows, DarkPoolVolume), multiStrikeActivity, probability));
  }
}
