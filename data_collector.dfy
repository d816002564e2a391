/**
 * Record enrichment by the data collector: the premium column, moneyness
 * against the spot price with a 2% at-the-money band, the four
 * unusual-activity flags, and the batch summary. The options frame is an
 * object whose rows the enrichment passes rewrite in place; fetching the
 * chain and the spot price is not part of this model, so both come in as
 * parameters.
 */
module DataCollector {
  import opened OptionRecords

  /** `MIN_PREMIUM_THRESHOLD`: $50K. */
  const MinPremiumThreshold: real := 50000.0
  const HighVolumeRatio: real := 0.5
  const BlockMinVolume: int := 100
  const BlockMinPremium: real := 25000.0

  /** `total_premium = lastPrice * volume * 100`: dollars paid, at 100 shares
      per contract. */
  function TotalPremium(lastPrice: real, volume: int): (p: real)
    ensures lastPrice >= 0.0 && volume >= 0 ==> p >= 0.0
    ensures volume == 0 || lastPrice == 0.0 ==> p == 0.0
  {
    lastPrice * volume as real * 100.0
  }

  /** A call is in the money below 98% of spot and out of the money above
      102%; every other label is read as a put, mirrored. Never Unknown. */
  function GetMoneyness(kind: OptionKind, strike: real, stockPrice: real): (m: Moneyness)
    ensures m != Unknown
    ensures kind == Call ==>
      && (m == ITM <==> strike < stockPrice * 0.98)
      && (m == OTM <==> !(strike < stockPrice * 0.98) && strike > stockPrice * 1.02)
      && (m == ATM <==> !(strike < stockPrice * 0.98) && !(strike > stockPrice * 1.02))
    ensures kind != Call ==>
      && (m == ITM <==> strike > stockPrice * 1.02)
      && (m == OTM <==> !(strike > stockPrice * 1.02) && strike < stockPrice * 0.98)
      && (m == ATM <==> !(strike > stockPrice * 1.02) && !(strike < stockPrice * 0.98))
  {
    if kind == Call then
      if strike < stockPrice * 0.98 then ITM
      else if strike > stockPrice * 1.02 then OTM
      else ATM
    else
      if strike > stockPrice * 1.02 then ITM
      else if strike < stockPrice * 0.98 then OTM
      else ATM
  }

  /** For a positive spot price a call and a put at the same strike mirror
      each other: the call is in the money exactly when the put is out of it,
      and the reverse, and they are at the money together. */
  lemma MoneynessMirror(strike: real, stockPrice: real)
    requires stockPrice > 0.0
    ensures GetMoneyness(Call, strike, stockPrice) == ITM <==> GetMoneyness(Put, strike, stockPrice) == OTM
    ensures GetMoneyness(Call, strike, stockPrice) == OTM <==> GetMoneyness(Put, strike, stockPrice) == ITM
    ensures GetMoneyness(Call, strike, stockPrice) == ATM <==> GetMoneyness(Put, strike, stockPrice) == ATM
  {
  }

  /** `volume / (openInterest + 1) >= 0.5`. With an open interest of -1 the
      division is by zero, which pandas turns into +inf, NaN or -inf for a
      positive, zero or negative volume: only a positive volume passes. */
  predicate VolumeRatioHigh(volume: int, openInterest: int)
  {
    if openInterest + 1 == 0 then volume > 0
    else volume as real / (openInterest + 1) as real >= HighVolumeRatio
  }

  /** For a non-negative open interest the ratio test is 2·volume >= OI + 1. */
  lemma VolumeRatioHighInIntegers(volume: int, openInterest: int)
    requires openInterest >= 0
    ensures VolumeRatioHigh(volume, openInterest) <==> 2 * volume >= openInterest + 1
  {
    var d := (openInterest + 1) as real;
    assert (volume as real / d) * d == volume as real;
    if 2 * volume >= openInterest + 1 {
      assert volume as real >= 0.5 * d;
    }
  }

  /** The four flag columns of one row. */
  function UnusualFlagsOf(q: Quote): (f: UnusualFlags)
    ensures f.highPremium <==> q.totalPremium >= MinPremiumThreshold
    ensures f.highVolumeRatio <==> VolumeRatioHigh(q.volume, q.openInterest)
    ensures f.potentialBlock <==> q.volume > BlockMinVolume && q.totalPremium > BlockMinPremium
    ensures f.unusualActivity <==> f.highPremium || f.highVolumeRatio || f.potentialBlock
  {
    var highPremium := q.totalPremium >= MinPremiumThreshold;
    var highVolumeRatio := VolumeRatioHigh(q.volume, q.openInterest);
    var potentialBlock := q.volume > BlockMinVolume && q.totalPremium > BlockMinPremium;
    UnusualFlags(highPremium, highVolumeRatio, potentialBlock, highPremium || highVolumeRatio || potentialBlock)
  }

  /** A contract that did not trade, priced by the collector's own premium
      formula and with a non-negative open interest, is never flagged. */
  lemma UntradedNeverUnusual(q: Quote)
    requires q.volume == 0 && q.openInterest >= 0
    requires q.totalPremium == TotalPremium(q.lastPrice, q.volume)
    ensures !UnusualFlagsOf(q).unusualActivity
  {
    VolumeRatioHighInIntegers(q.volume, q.openInterest);
  }

  /** A row the unusual-activity pass has flagged. */
  predicate IsUnusual(q: Quote)
  {
    q.flags.Some? && q.flags.value.unusualActivity
  }

  /** What the unusual-activity pass will flag. */
  predicate FlaggedUnusual(q: Quote)
  {
    UnusualFlagsOf(q).unusualActivity
  }

  /** The options frame the collector builds and enriches in place. */
  class OptionsFrame {
    var rows: seq<Quote>

    constructor(rows: seq<Quote>)
      ensures this.rows == rows
    {
      this.rows := rows;
    }

    /** The derived columns of the freshly combined chain: the premium and a
        moneyness of Unknown until the spot price is known. */
    method AddDerivedColumns()
      modifies this
      ensures |rows| == |old(rows)|
      ensures forall i :: 0 <= i < |rows| ==>
        rows[i] == old(rows)[i].(totalPremium := TotalPremium(old(rows)[i].lastPrice, old(rows)[i].volume),
                                 moneyness := Unknown)
    {
      var current := rows;
      rows := seq(|current|, i requires 0 <= i < |current| =>
                current[i].(totalPremium := TotalPremium(current[i].lastPrice, current[i].volume),
                            moneyness := Unknown));
    }

    /** An empty frame or a zero spot price leaves the frame as it is;
        otherwise every row gets its moneyness and nothing else changes. */
    method CalculateMoneyness(stockPrice: real)
      modifies this
      ensures old(rows) == [] || stockPrice == 0.0 ==> rows == old(rows)
      ensures |rows| == |old(rows)|
      ensures !(old(rows) == [] || stockPrice == 0.0) ==> forall i :: 0 <= i < |rows| ==>
        rows[i] == old(rows)[i].(moneyness := GetMoneyness(old(rows)[i].kind, old(rows)[i].strike, stockPrice))
    {
      if rows == [] || stockPrice == 0.0 {
        return;
      }
      var current := rows;
      rows := seq(|current|, i requires 0 <= i < |current| =>
                current[i].(moneyness := GetMoneyness(current[i].kind, current[i].strike, stockPrice)));
    }

    /** An empty frame is left as it is; otherwise every row gets its four
        flags and nothing else changes. */
    method IdentifyUnusualActivity()
      modifies this
      ensures old(rows) == [] ==> rows == old(rows)
      ensures |rows| == |old(rows)|
      ensures forall i :: 0 <= i < |rows| ==> rows[i] == old(rows)[i].(flags := Some(UnusualFlagsOf(old(rows)[i])))
    {
      if rows == [] {
        return;
      }
      var current := rows;
      rows := seq(|current|, i requires 0 <= i < |current| => current[i].(flags := Some(UnusualFlagsOf(current[i]))));
    }
  }

  datatype FullAnalysis =
    | NoOptionsData
    | Summary(
        stockPrice: real,
        totalContracts: nat,
        unusualActivityCount: nat,
        totalPremiumVolume: real,
        data: seq<Quote>)

  /** A chain with no contracts is reported as an error. Otherwise the chain is
      enriched with moneyness and flags, and the summary counts its contracts,
      the flagged ones among them, and its premium, none of which the
      enrichment changes. */
  method GetFullAnalysis(stockPrice: real, chain: seq<Quote>) returns (r: FullAnalysis)
    ensures chain == [] <==> r.NoOptionsData?
    ensures r.Summary? ==>
      && r.stockPrice == stockPrice
      && |r.data| == r.totalContracts == |chain|
      && r.unusualActivityCount == CountWhere(r.data, IsUnusual) == CountWhere(chain, FlaggedUnusual)
      && r.unusualActivityCount <= r.totalContracts
      && r.totalPremiumVolume == SumReal(r.data, Premium) == SumReal(chain, Premium)
    ensures r.Summary? ==> forall i :: 0 <= i < |chain| ==>
      && r.data[i].totalPremium == chain[i].totalPremium
      && r.data[i].flags == Some(UnusualFlagsOf(chain[i]))
      && r.data[i].moneyness == (if stockPrice == 0.0 then chain[i].moneyness
                                 else GetMoneyness(chain[i].kind, chain[i].strike, stockPrice))
  {
    if chain == [] {
      return NoOptionsData;
    }
    var frame := new OptionsFrame(chain);
    frame.CalculateMoneyness(stockPrice);
    frame.IdentifyUnusualActivity();
    var data := frame.rows;
    CountWherePointwise(data, chain, IsUnusual, FlaggedUnusual);
    SumRealPointwise(data, chain, Premium, Premium);
    var unusualCount := CountWhere(data, IsUnusual);
    var totalPremium := SumReal(data, Premium);
    r := Summary(stockPrice, |data|, unusualCount, totalPremium, data);
  }
}
