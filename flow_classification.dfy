/**
 * Batch flow classification: every row of a batch is run through the
 * per-trade analyzer, counted by mechanism and by size tier, and listed with
 * its analysis in input order.
 */
module FlowClassification {
  import opened OptionRecords
  import opened FlowAnalyzer

  /** The `summary` dictionary of counters. */
  datatype FlowCounts = FlowCounts(
    blockTrades: nat,
    sweepTrades: nat,
    singleTrades: nat,
    institutionalFlows: nat,
    retailFlows: nat,
    whaleFlows: nat)

  /** One entry of `detailed_flows`. */
  datatype FlowDetail = FlowDetail(
    contract: string,
    flowType: FlowType,
    sizeCategory: SizeCategory,
    sentiment: Sentiment,
    unusualScore: real,
    confidence: real)

  datatype FlowSummary = FlowSummary(summary: FlowCounts, detailedFlows: seq<FlowDetail>)

  predicate IsBlockFlow(q: Quote) { FlowAnalysisOf(q).flowType == Block }
  predicate IsSweepFlow(q: Quote) { FlowAnalysisOf(q).flowType == Sweep }
  predicate IsSingleFlow(q: Quote) { FlowAnalysisOf(q).flowType == Single }
  predicate IsInstitutionalFlow(q: Quote) { FlowAnalysisOf(q).sizeCategory == Institutional }
  predicate IsWhaleFlow(q: Quote) { FlowAnalysisOf(q).sizeCategory == Whale }
  predicate IsRetailFlow(q: Quote) { FlowAnalysisOf(q).sizeCategory == Retail }

  /** The entry listed for one row. */
  function DetailOf(q: Quote): FlowDetail
  {
    var a := FlowAnalysisOf(q);
    FlowDetail(q.contract, a.flowType, a.sizeCategory, a.sentiment, a.unusualScore, a.confidence)
  }

  /** The counters of a batch: rows of each mechanism and of each size tier. */
  function CountsOf(rows: seq<Quote>): FlowCounts
  {
    FlowCounts(
      CountWhere(rows, IsBlockFlow), CountWhere(rows, IsSweepFlow), CountWhere(rows, IsSingleFlow),
      CountWhere(rows, IsInstitutionalFlow), CountWhere(rows, IsRetailFlow), CountWhere(rows, IsWhaleFlow))
  }

  /** The counters after one more analyzed row. */
  function Tally(c: FlowCounts, a: FlowAnalysis): FlowCounts
  {
    FlowCounts(
      c.blockTrades + (if a.flowType == Block then 1 else 0),
      c.sweepTrades + (if a.flowType == Sweep then 1 else 0),
      c.singleTrades + (if a.flowType == Single then 1 else 0),
      c.institutionalFlows + (if a.sizeCategory == Institutional then 1 else 0),
      c.retailFlows + (if a.sizeCategory == Retail then 1 else 0),
      c.whaleFlows + (if a.sizeCategory == Whale then 1 else 0))
  }

  lemma CountsOfSnoc(rows: seq<Quote>, i: int)
    requires 0 <= i < |rows|
    ensures CountsOf(rows[..i + 1]) == Tally(CountsOf(rows[..i]), FlowAnalysisOf(rows[i]))
  {
    assert rows[..i + 1] == rows[..i] + [rows[i]];
    CountWhereSnoc(rows[..i], rows[i], IsBlockFlow);
    CountWhereSnoc(rows[..i], rows[i], IsSweepFlow);
    CountWhereSnoc(rows[..i], rows[i], IsSingleFlow);
    CountWhereSnoc(rows[..i], rows[i], IsInstitutionalFlow);
    CountWhereSnoc(rows[..i], rows[i], IsRetailFlow);
    CountWhereSnoc(rows[..i], rows[i], IsWhaleFlow);
  }

  /** Every row is exactly one of block, sweep and single, so the three
      mechanism counters add up to the number of rows. */
  lemma {:induction false} FlowTypesPartition(rows: seq<Quote>)
    ensures CountWhere(rows, IsBlockFlow) + CountWhere(rows, IsSweepFlow)
            + CountWhere(rows, IsSingleFlow) == |rows|
  {
    if rows != [] {
      FlowTypesPartition(rows[..|rows| - 1]);
    }
  }

  /** Every row is exactly one of institutional, retail and whale, so the
      three size counters add up to the number of rows. */
  lemma {:induction false} SizeTiersPartition(rows: seq<Quote>)
    ensures CountWhere(rows, IsInstitutionalFlow) + CountWhere(rows, IsRetailFlow)
            + CountWhere(rows, IsWhaleFlow) == |rows|
  {
    if rows != [] {
      SizeTiersPartition(rows[..|rows| - 1]);
    }
  }

  /** An empty batch gives no summary. Otherwise each counter counts the rows
      the analyzer puts in its class, the counters of each kind add up to the
      number of rows, and the detailed list holds one entry per row, in input
      order. */
  method ClassifyAllFlows(rows: seq<Quote>) returns (r: Option<FlowSummary>)
    ensures rows == [] <==> r.None?
    ensures r.Some? ==> r.value.summary == CountsOf(rows)
    ensures r.Some? ==>
      var c := r.value.summary;
      && c.blockTrades + c.sweepTrades + c.singleTrades == |rows|
      && c.institutionalFlows + c.retailFlows + c.whaleFlows == |rows|
    ensures r.Some? ==> |r.value.detailedFlows| == |rows|
    ensures r.Some? ==> forall i :: 0 <= i < |rows| ==> r.value.detailedFlows[i] == DetailOf(rows[i])
  {
    if rows == [] {
      return None;
    }
    var block, sweep, single, institutional, retail, whale := 0, 0, 0, 0, 0, 0;
    var detailedFlows: seq<FlowDetail> := [];
    var i := 0;
    while i < |rows|
      invariant 0 <= i <= |rows|
      invariant FlowCounts(block, sweep, single, institutional, retail, whale) == CountsOf(rows[..i])
      invariant |detailedFlows| == i
      invariant forall j :: 0 <= j < i ==> detailedFlows[j] == DetailOf(rows[j])
    {
      var option := rows[i];
      var flowAnalysis := AnalyzeSingleTrade(option);
      CountsOfSnoc(rows, i);
      if flowAnalysis.flowType == Block {
        block := block + 1;
      } else if flowAnalysis.flowType == Sweep {
        sweep := sweep + 1;
      } else {
        single := single + 1;
      }
      if flowAnalysis.sizeCategory == Institutional {
        institutional := institutional + 1;
      } else if flowAnalysis.sizeCategory == Whale {
        whale := whale + 1;
      } else {
        retail := retail + 1;
      }
      detailedFlows := detailedFlows + [FlowDetail(option.contract, flowAnalysis.flowType,
                                                   flowAnalysis.sizeCategory, flowAnalysis.sentiment,
                                                   flowAnalysis.unusualScore, flowAnalysis.confidence)];
      i := i + 1;
    }
    assert rows[..|rows|] == rows;
    FlowTypesPartition(rows);
    SizeTiersPartition(rows);
    r := Some(FlowSummary(FlowCounts(block, sweep, single, institutional, retail, whale), detailedFlows));
  }

  /** Every listed unusual score of a batch with non-negative volumes lies in
      [0, 100], and every confidence in [0.5, 1]. */
  lemma DetailBounds(q: Quote)
    requires q.volume >= 0
    ensures 0.0 <= DetailOf(q).unusualScore <= 100.0
    ensures 0.5 <= DetailOf(q).confidence <= 1.0
  {
    UnusualScoreBounds(q);
    ConfidenceBounds(q);
  }
}
