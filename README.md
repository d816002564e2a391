# Options-flow analytics, modelled in Dafny

This project models the rule-based analytics layer of the options-flow
analyzer. That layer reads a batch of option quotes (one row per contract:
strike, call/put, prices, volume, open interest, implied volatility, premium)
and computes:

- the per-trade flow analysis: block/sweep/single, size tier, sentiment, the
  0-100 unusual score and the confidence value;
- the batch aggregates: max pain, put/call ratios, volume-weighted portfolio
  Greeks, flow counts, institutional activity and the institutional
  probability, and implied-volatility statistics with the skew reading;
- the trading-insight rules;
- the collector's enrichment of a chain: premium, moneyness and the
  unusual-activity flags, plus its summary;
- the dashboard's flow table: rows ranked by unusual score, top 50.

The control skeleton of the Black-Scholes calculator and the Newton-Raphson
implied-volatility solver is modelled too. The normal CDF/PDF, `exp`, `log`
and `sqrt` are passed in as a `Numerics` value, so what is proved about them
holds for any such functions.

Layout, one module per component:

- `records.dfy` (`OptionRecords`): the quote record, sums and counts over a
  batch.
- `sorted_keys.dfy` (`SortedKeys`): distinct keys in ascending order, which is
  what `unique()`+`sort()` and `groupby` visit.
- `pricing.dfy` (`BlackScholes`, `ImpliedVolatility`).
- `flow_analyzer.dfy`, `max_pain.dfy`, `put_call_ratio.dfy`: the analyzer
  class.
- `portfolio_greeks.dfy`, `flow_classification.dfy`,
  `institutional_activity.dfy`, `volatility_surface.dfy`,
  `trading_insights.dfy`: the professional analyzer's batch steps.
- `data_collector.dfy` (`DataCollector`): the options frame is a class whose
  rows the enrichment passes rewrite in place.
- `dashboard.dfy` (`Dashboard`): the flow table.

Code that accumulates step by step in the source is a method here. Each such
method is proved equal to a specification function, and the properties are
lemmas about that function.

Where the design notes and the code disagree, the model follows the code:

- The sweep "spread" is the signed `bid - ask`, not its magnitude.
- A missing `avg_volume` defaults to the trade's own volume, which gives 5
  points, not 0, for any traded volume.
- The fallback time to expiry for an unparsable date is 0.1 years.
- Max pain weighs each strike against the current stock price.

## Model

| member | source | states |
|---|---|---|
| SortedKeys.SortedDistinct | src/advanced_analytics.py:287-288 | the keys come out strictly ascending under the given order, and they are exactly the values of the column |
| BlackScholes.D1 | src/advanced_analytics.py:40-45 | d1 is 0 when T ≤ 0 or σ ≤ 0 |
| BlackScholes.D2 | src/advanced_analytics.py:47-52 | d2 is 0 in the degenerate case, otherwise d1 − σ√T |
| BlackScholes.CallPrice | src/advanced_analytics.py:54-63 | at or past expiry the call is worth max(S − K, 0), never negative |
| BlackScholes.PutPrice | src/advanced_analytics.py:65-74 | at or past expiry the put is worth max(K − S, 0), never negative |
| BlackScholes.CalculateGreeks | src/advanced_analytics.py:76-109 | at or past expiry all Greeks are 0; before it the reported volatility is σ |
| BlackScholes.ExpiryParity | src/advanced_analytics.py:54-74 | at expiry the call price minus the put price is S − K |
| BlackScholes.DegenerateVolatilityPrices | src/advanced_analytics.py:40-74 | with σ ≤ 0 before expiry, d1 = d2 = 0, so both prices are the discounted intrinsic value scaled by the CDF at 0 |
| BlackScholes.KindIndependentGreeks | src/advanced_analytics.py:91-109 | gamma and vega do not depend on call/put; a put's delta is the call's minus 1 |
| BlackScholes.DeltaBounds | src/advanced_analytics.py:91-96 | when the CDF lies in [0, 1], a call's delta lies in [0, 1] and a put's in [−1, 0] |
| ImpliedVolatility.Clamp | src/advanced_analytics.py:123 | the clamped value lies in the bounds, and a value already inside them is unchanged |
| ImpliedVolatility.CalculateIv | src/advanced_analytics.py:115-146 | 0 when T ≤ 0 or the market price ≤ 0; otherwise the estimate lies in [0.001, 10] whatever the pricer returns; on early exit the model price is within tolerance |
| FlowAnalyzer.DetermineFlowType | src/advanced_analytics.py:175-186 | block iff volume ≥ 500 and premium ≥ $100K; sweep iff not block and volume ≥ 100 and spread > 0.05; single otherwise |
| FlowAnalyzer.BlockBeatsSweepExample | src/advanced_analytics.py:175-186 | a trade meeting both the block and the sweep conditions is a block |
| FlowAnalyzer.CategorizeTradeSize | src/advanced_analytics.py:188-196 | whale iff premium ≥ $1M or volume ≥ 2000; institutional iff not whale and premium ≥ $100K or volume ≥ 500; retail otherwise |
| FlowAnalyzer.SizeCategoryMonotone | src/advanced_analytics.py:188-196 | raising premium or volume never lowers the size tier |
| FlowAnalyzer.AnalyzeSentiment | src/advanced_analytics.py:198-217 | a call is never bearish and a put never bullish; any other type is neutral; ITM/ATM calls are bullish and ITM/ATM puts bearish; non-neutral exactly for a call/put that is ITM/ATM or trades over 1000 contracts |
| FlowAnalyzer.VolumePoints | src/advanced_analytics.py:224-229 | at most 40 points, non-negative for a non-negative volume, 0 when the average volume is not positive |
| FlowAnalyzer.PremiumPoints | src/advanced_analytics.py:231-240 | between 0 and 30 points |
| FlowAnalyzer.OiPoints | src/advanced_analytics.py:242-251 | between 0 and 20 points |
| FlowAnalyzer.CalculateUnusualScore | src/advanced_analytics.py:219-256 | the accumulated score is the capped sum of the three component scores |
| FlowAnalyzer.UnusualScoreBounds | src/advanced_analytics.py:219-256 | for a non-negative volume the score lies in [0, 100] |
| FlowAnalyzer.UnusualScoreMonotoneInPremium | src/advanced_analytics.py:231-240 | with everything else fixed, a larger premium never lowers the score |
| FlowAnalyzer.DefaultAverageVolumePoints | src/advanced_analytics.py:225-229 | without an average volume the volume component is 5 for any traded volume and 0 otherwise |
| FlowAnalyzer.NoOpenInterestNoPoints | src/advanced_analytics.py:244-251 | an open interest ≤ 0 earns nothing from the open-interest component |
| FlowAnalyzer.CalculateConfidence | src/advanced_analytics.py:258-278 | the accumulated confidence is 0.5 plus the weights of the indicators present, capped at 1 |
| FlowAnalyzer.ConfidenceBounds | src/advanced_analytics.py:258-278 | confidence lies in [0.5, 1] |
| FlowAnalyzer.ConfidenceMonotone | src/advanced_analytics.py:263-276 | having every indicator another trade has gives at least its confidence |
| FlowAnalyzer.AnalyzeSingleTrade | src/advanced_analytics.py:156-173 | the analysis is the five classifiers applied to the trade; unusual score in [0, 100] for non-negative volume, confidence in [0.5, 1] |
| MaxPain.StrikeTotalPain | src/advanced_analytics.py:293-315 | the two loops add up the calls' and then the puts' pain at the strike |
| MaxPain.FillPainByStrike | src/advanced_analytics.py:290-317 | the map's keys are exactly the strikes visited, each holding that strike's total pain |
| MaxPain.FirstLeastKey | src/advanced_analytics.py:319-322 | the key kept has least pain, and is the lowest key of least pain |
| MaxPain.CalculateMaxPain | src/advanced_analytics.py:280-324 | empty batch gives (stock price, {}); otherwise the keys are the distinct strikes, the result is the lowest strike of least pain, values are ≥ 0 for non-negative open interest, and a one-strike batch returns that strike |
| MaxPain.PainNonNegative | src/advanced_analytics.py:301-315 | with non-negative open interest no strike carries negative pain |
| MaxPain.RowPainNonNegative | src/advanced_analytics.py:302-315 | one row with non-negative open interest adds non-negative pain |
| MaxPain.SingleStrikeMaxPain | src/advanced_analytics.py:319-322 | if all rows share one strike, any least-pain key is that strike |
| MaxPain.CallsAtOrAboveSpotPainless | src/advanced_analytics.py:301-304 | calls at a strike at or above the stock price carry no pain |
| PutCallRatio.Ratio | src/advanced_analytics.py:336-348 | put/call when the call side is positive, 0 otherwise, and non-negative for non-negative sums |
| PutCallRatio.InterpretPcr | src/advanced_analytics.py:361-372 | each label holds exactly on its band: > 1.2, (1.0, 1.2], (0.8, 1.0], (0.6, 0.8], ≤ 0.6 |
| PutCallRatio.InterpretPcrMonotone | src/advanced_analytics.py:361-372 | a higher ratio never reads as more bullish |
| PutCallRatio.CalculatePutCallRatio | src/advanced_analytics.py:326-359 | empty batch gives nothing; otherwise each total is its side's sum, each ratio satisfies ratio·call = put (or is 0 with no call activity), and the sentiment reads the volume ratio |
| PutCallRatio.WorkedExample | src/advanced_analytics.py:336-338 | 1000 call against 1500 put contracts give 1.5, read as very bearish |
| PutCallRatio.NoPutsVeryBullish | src/advanced_analytics.py:332-358 | a batch with no puts has volume ratio 0 and reads as very bullish |
| PortfolioGreeks.TimeToExpiry | main_professional.py:122-129 | at least 0.001 years; 0.1 for an unparsable date; otherwise days/365 or the floor |
| PortfolioGreeks.EffectiveVolatility | main_professional.py:136-139 | positive; the quote's IV if positive, else 25% |
| PortfolioGreeks.OptionGreeks | main_professional.py:121-150 | one row's Greeks at its time to expiry, risk-free rate and effective volatility |
| PortfolioGreeks.AccumulateGreeks | main_professional.py:116-160 | the four accumulators end as the volume-weighted sums of the rows' Greeks, in row order |
| PortfolioGreeks.SummaryOf | main_professional.py:162-171 | the totals, delta exposure abs(Σ delta)·S·100 (non-negative for S > 0), gamma risk Σ gamma·S²·0.01, theta decay and vega exposure |
| PortfolioGreeks.CalculatePortfolioGreeks | main_professional.py:110-171 | empty batch gives nothing; otherwise the summary of the volume-weighted totals |
| PortfolioGreeks.UntradedBatchHasNoExposure | main_professional.py:152-156 | if no row traded, all four totals are 0 |
| PortfolioGreeks.ExpiredRowsUseFloor | main_professional.py:126-127 | rows expiring today or earlier are priced at the 0.001-year floor |
| FlowClassification.FlowTypesPartition | main_professional.py:193-199 | block + sweep + single = number of rows |
| FlowClassification.SizeTiersPartition | main_professional.py:201-207 | institutional + retail + whale = number of rows |
| FlowClassification.ClassifyAllFlows | main_professional.py:173-222 | empty batch gives nothing; otherwise each counter counts its class, both partitions sum to the row count, and one detail per row is listed in input order |
| FlowClassification.DetailBounds | main_professional.py:209-217 | every listed score lies in [0, 100] for non-negative volume, every confidence in [0.5, 1] |
| InstitutionalActivity.GroupOf | main_professional.py:235-238 | a group holds exactly the rows of its expiration |
| InstitutionalActivity.ExpiryKeys | main_professional.py:235-238 | the groups are visited in ascending expiration order, once per distinct expiration |
| InstitutionalActivity.MultiStrikeEntriesMembership | main_professional.py:238-247 | an entry is listed iff its expiration was visited and qualifies, and it describes that expiration's rows |
| InstitutionalActivity.MultiStrikeExactly | main_professional.py:234-247 | the list holds exactly the expirations with ≥ 3 distinct strikes and ≥ $250K premium |
| InstitutionalActivity.PremiumTierPoints | main_professional.py:262-271 | between 0 and 30 points |
| InstitutionalActivity.ConcentrationPoints | main_professional.py:273-280 | between 0 and 25 points |
| InstitutionalActivity.DiversityPoints | main_professional.py:282-289 | between 0 and 20 points |
| InstitutionalActivity.TimeSpreadPoints | main_professional.py:291-296 | between 0 and 15 points |
| InstitutionalActivity.MixPoints | main_professional.py:298-302 | 10 iff there are both calls and puts, 0 otherwise |
| InstitutionalActivity.CalculateInstitutionalProbability | main_professional.py:257-304 | the accumulated score is the capped sum of the five components and lies in [0, 100] |
| InstitutionalActivity.ComponentsWithinCap | main_professional.py:257-304 | the five components sum to at most 100, so the cap never changes the score |
| InstitutionalActivity.ProbabilityMonotone | main_professional.py:262-280 | more total premium or more rows of ≥ 500 contracts never lower the score |
| InstitutionalActivity.MixBonusIffCallsAndPuts | main_professional.py:298-302 | the mix bonus is given iff the batch has a call and a put |
| InstitutionalActivity.LargeTradePremiumFloor | main_professional.py:231-251 | large-trade premium is at least $500K times the large-trade count |
| InstitutionalActivity.DetectInstitutionalActivity | main_professional.py:224-255 | empty batch gives nothing; otherwise the large-trade count and premium, the dark-pool volume, exactly the qualifying multi-strike expirations, and the probability |
| VolatilitySurface.InterpretIvSkew | main_professional.py:348-357 | each reading holds exactly on its band: > 0.05, (0.02, 0.05], < −0.02, [−0.02, 0.02] |
| VolatilitySurface.MinIv | main_professional.py:326 | a lower bound of every kept IV that is one of them |
| VolatilitySurface.MaxIv | main_professional.py:327 | an upper bound of every kept IV that is one of them |
| VolatilitySurface.MeanBetweenMinAndMax | main_professional.py:322-328 | min ≤ mean ≤ max |
| VolatilitySurface.KeptMeanInRange | main_professional.py:313-337 | the mean of IVs all in (0, 5) is in (0, 5) |
| VolatilitySurface.AnalyzeVolatilitySurface | main_professional.py:306-346 | nothing for an empty batch; an error iff no IV is in (0, 5); otherwise stats over the kept rows with 0 < min ≤ mean ≤ max < 5, and skew = put mean − call mean iff both sides have kept rows, else 0 |
| VolatilitySurface.SidesAreKept | main_professional.py:336-337 | the call and put subsets are drawn from the kept rows |
| TradingInsights.InsightsMembership | main_professional.py:469-519 | 1 to 7 insights; the fallback alone iff no rule fires; otherwise exactly the fired rules' insights |
| TradingInsights.ReadingRules | main_professional.py:474-514 | put/call, institutional and IV readings appear iff their thresholds are crossed; the fallback iff nothing fires |
| TradingInsights.QuantityRules | main_professional.py:488-504 | the multi-strike, max-pain and delta insights appear iff their conditions hold, with the numbers their messages show |
| TradingInsights.ExclusiveReadings | main_professional.py:477-514 | high put and high call activity never appear together, nor high and low IV |
| TradingInsights.NeverShortOnComputedExposure | main_professional.py:500-504 | with a non-negative delta exposure the delta insight can only report long |
| TradingInsights.GenerateTradingInsights | main_professional.py:469-519 | the list built rule by rule equals the rule specification |
| DataCollector.TotalPremium | src/data_collector.py:90 | non-negative for non-negative price and volume; 0 when either is 0 |
| DataCollector.GetMoneyness | src/data_collector.py:119-133 | never Unknown; call ITM iff strike < 0.98·S, OTM iff not and strike > 1.02·S, else ATM; other kinds mirrored |
| DataCollector.MoneynessMirror | src/data_collector.py:119-133 | for S > 0 a call is ITM iff the put at its strike is OTM, and the reverse; ATM together |
| DataCollector.VolumeRatioHighInIntegers | src/data_collector.py:147-149 | for open interest ≥ 0 the ratio test is 2·volume ≥ OI + 1 |
| DataCollector.UnusualFlagsOf | src/data_collector.py:143-162 | each flag holds iff its threshold is met; unusual iff any of the three holds |
| DataCollector.UntradedNeverUnusual | src/data_collector.py:143-162 | a contract that did not trade, with non-negative open interest, is never flagged |
| DataCollector.OptionsFrame.AddDerivedColumns | src/data_collector.py:90-91 | every row gets its premium and an Unknown moneyness; nothing else changes |
| DataCollector.OptionsFrame.CalculateMoneyness | src/data_collector.py:114-136 | unchanged when empty or S = 0; otherwise every row gets its moneyness and nothing else changes |
| DataCollector.OptionsFrame.IdentifyUnusualActivity | src/data_collector.py:138-164 | unchanged when empty; otherwise every row gets its flags and nothing else changes |
| DataCollector.GetFullAnalysis | src/data_collector.py:166-203 | error iff the chain is empty; otherwise count of flagged rows ≤ contracts, total premium = Σ premium, each row enriched |
| Dashboard.ToUpper | src/dashboard.py:609 | same length, each ASCII letter upper-cased |
| Dashboard.UpperCaseLabels | src/dashboard.py:609 | the option-type column reads "CALL" and "PUT" |
| Dashboard.TableRowsOf | src/dashboard.py:603-618 | one row per contract, in input order, carrying its own analysis |
| Dashboard.BuildTableRows | src/dashboard.py:602-618 | the loop builds exactly the rows of the contracts, in input order |
| Dashboard.InsertByScore | src/dashboard.py:621 | inserting adds exactly one row and keeps the others |
| Dashboard.SortByScore | src/dashboard.py:621 | the sort is a permutation of its input |
| Dashboard.SortByScoreDescending | src/dashboard.py:621 | the sorted rows are non-increasing in unusual score |
| Dashboard.SortByScoreStable | src/dashboard.py:621 | rows of equal score keep their input order |
| Dashboard.SortedRowsAreInputRows | src/dashboard.py:621 | every sorted row is one of the input rows |
| Dashboard.PrepareTableData | src/dashboard.py:595-623 | empty gives []; length min(50, n); a prefix of the sorted rows, non-increasing in score, each the row of an input contract |
| Dashboard.TopRowsKept | src/dashboard.py:621-623 | every kept row scores at least as high as every row cut off |

## Left out

- The Black-Scholes formulas and their floating-point values: `norm.cdf`, `norm.pdf`, `np.exp`, `np.log` and `np.sqrt` are uninterpreted. No price, Greek value, parity before expiry or Newton convergence is claimed.
- Floating point: every float is an exact real. Rounding and summation order are not modelled. Neither are NaN or infinity from a division by zero, nor NaN-valued columns.
- BlackScholes.D1, BlackScholes.D2, BlackScholes.CalculateGreeks: require a non-zero strike, and for the Greeks a non-zero S and σ, before expiry. The formulas divide by these, and numpy would give inf or NaN for them.
- ImpliedVolatility.CalculateIv: requires S > 0 and K > 0, where the logarithm in d1 is defined.
- PortfolioGreeks.CalculatePortfolioGreeks: requires a non-zero stock price and non-zero strikes. The source's `except ... continue` path, which skips a row whose Greeks raise, is therefore not modelled.
- TradingInsights.GenerateTradingInsights: requires a non-zero stock price, and a non-zero max pain when the 5% rule fires; the source divides by both.
- TradingInsights: absent sections are None. A section present without the value read contributes that value's default. The wording of the messages is not modelled.
- Missing columns and `.get` defaults: every quote carries every column. The one exception is `delta` in the flow table, which the frame never has, so it is always 0.
- Option-type labels: `OptionKind` is Call, Put or another label. Filters that compare `option_type == 'call'` exactly and ones that lower-case it first are treated alike. Mixed-case "Call" is not distinguished from "call".
- Dashboard.ToUpper: upper-cases ASCII letters only; Python's Unicode `str.upper()` is not modelled.
- Dashboard.SortByScore: `list.sort` is modelled as a stable insertion sort on a value, not as an in-place Timsort on the list.
- The clock and date parsing (`datetime.now`, `strptime`) are a parameter that gives days to expiry, or None for an unparsable date.
- The `timestamp` column and its formatting in the flow table are not modelled.
- Median and standard deviation of IV, and the `groupby('moneyness')` statistics of the volatility surface: library numerics.
- Network and file I/O: fetching chains and prices, logging, CSV writing, directory creation. The chain and the stock price are parameters of `GetFullAnalysis`.
- `get_full_analysis`'s catch-all error path, which returns the exception text, is not modelled.
- The dashboard layout and callbacks, the CLI menus, report formatting, and main.py: UI and I/O.
- Configuration loading is not modelled. The thresholds used are inlined as named constants:
  - $500K institutional threshold, config/advanced_settings.py:36;
  - $50K minimum premium, config/settings.py:17;
  - 0.045 risk-free rate, config/advanced_settings.py:126.
