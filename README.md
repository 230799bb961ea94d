# Sector rotation scoring engine, in Dafny

This project models the scoring and ranking core of an NSE sector-rotation
dashboard. The dashboard fetches price bars for about fifteen sector
indices (or ETFs) and the Nifty 50 benchmark, then does six things:

- It computes technical indicators for each sector: RSI, ADX and its
  Z-score, DI spread, CMF and Mansfield relative strength.
- It rates each sector's relative strength against the benchmark on a
  0-10 scale.
- It classifies each sector as a reversal candidate: `BUY_DIV`, `Watch`
  or `No`.
- It gives every sector a rank-based **momentum score**. Each indicator
  column is ranked, and the score is the weighted sum of the ranks.
- It gives the reversal candidates a rank-based **reversal score**,
  ranked among the candidates only.
- It replays the same ranking at past bars: the momentum and reversal
  trend of one sector over the last `periods` bars (8 in the dashboard), and the historical top-two momentum and
  reversal tables with the leaders' forward returns.

A company drill-down repeats the momentum and reversal logic for the
companies of one sector. It has its own RS rating, status rule, ranking
and summary figures.

Modules, in dependency order:

| module | file | models |
|---|---|---|
| `Wrappers` | wrappers.dfy | `Option` |
| `Periods` | periods.dfy | the period loop all replayers share (`for i in range(n, 0, -1)`) |
| `Dicts` | dicts.dfy | Python dicts with string keys: `.get`, `sum(values())` |
| `Config` | config.dfy | config.py constants |
| `Series` | series.dfy | price bars, `pct_change().dropna()`, index alignment, cumulative return, change %; the indicator library as a parameter |
| `Ranking` | ranking.dfy | `rank(method='min')`, in both directions |
| `Scoring` | scoring.dfy | the weighted rank scores: batch momentum, renormalised momentum, ranked reversal |
| `Analysis` | analysis.dfy | analysis.py: RS rating, absolute reversal score, status, `analyze_sector`, `analyze_all_sectors` |
| `Replay` | replay.dfy | the peer loop of the replayers; `calculate_sector_trend`; `calculate_reversal_trend` |
| `History` | history.dfy | `calculate_historical_momentum_performance` (with `calc_forward_return`); `calculate_historical_reversal_performance` |
| `Company` | company.dfy | the two company tabs of company_analysis.py |

Modelling conventions:

- **Prices.** A price series is a sequence of bars with integer
  timestamps.
- **Integers.** Counts and ranks are unbounded `nat`; no integer width
  matters here.
- **Nothing to model.** A pandas "not a number", a Python `None` and an
  indicator value that is undefined over the whole series are all
  `Option.None`.
- **The indicator library** (indicators.py) is not part of this model. It
  enters as a parameter `IndicatorFn` that maps an entity's bars and the
  benchmark's bars to the latest indicator values, or to `None` when the
  library raises.
- **The data fetcher** (data_fetcher.py) is not part of this model either.
  It enters as a parameter `FetchFn`.
- **Symbol tables.** The sector and company symbol tables of config.py
  and company_symbols.py enter as parameters.
- **Form.**
  - Pure computations are functions with lemmas.
  - Each loop of the source is a method with a loop. The method is proved
    equal to a specification function, and the lemmas are proved about
    that function.

Three places where the code does not do what its own comments and
docstrings say are listed under "## Findings": the reversal rank
directions, the company ADX Z-score, and the second leader's forward
returns. Each one has an as-written member, with a lemma that shows the
difference on a concrete input, and a corrected member. The rest of the
model is built on the corrected members. So the batch reversal score,
the reversal trend and the historical reversal table rank candidates in
the intended directions, not in the directions the code uses; the
historical momentum table values each leader on its own history; and the
company tabs read the ADX Z-score as the number the indicator library
returns. "## Left out" names each member this affects.

## Model

| member | source | states |
|---|---|---|
| Series.Returns | analysis.py:86-87 | one return per bar after the first, stamped with the later bar; return k compares close k with close k-1; nothing for an empty series |
| Series.ReturnAt | analysis.py:86 | a return carries the later bar's stamp; it is missing exactly when the previous close is 0; otherwise the previous close grown by the return is the later close |
| Series.Restrict | analysis.py:90-93 | aligning to a common index keeps only entries of the series that carry a shared timestamp, never more than there were |
| Series.AlignedLengths | analysis.py:90-93 | for series with distinct stamps, both aligned series have exactly as many entries as the intersection of the two indexes |
| Series.ChronologicalReturnsDistinct | analysis.py:86-87 | bars in time order give return series with distinct timestamps |
| Series.CumulativeReturn | analysis.py:28-30 | `(1 + r).prod() - 1` is missing exactly when the growth product is missing (some return is not a number) |
| Series.DropLast | streamlit_app.py:491-492 | cutting the last k bars leaves the first `len - k` bars, or nothing when k reaches the length |
| Series.ChangePct | analysis.py:111-114 | 0 with fewer than two bars or a zero previous close; otherwise the previous close grown by the percentage is the last close |
| Dicts.GetFindsKey | analysis.py:159-164 | `.get(key, default)` returns the default exactly for a missing key, otherwise a value stored under that key |
| Dicts.TotalOfNonNegative | analysis.py:159 | non-negative weights have a non-negative total |
| Dicts.TotalOfScale | analysis.py:159 | scaling every weight by c scales `sum(weights.values())` by c |
| Dicts.GetOfScale | analysis.py:161-164 | scaling every weight scales the one found under a present key |
| Config.DefaultWeightsSumTo100 | config.py:75-89 | constant check: both default weight tables total 100 and name each of their four indicators |
| Config.BuyDivNestedInWatch | config.py:91-102 | every triple meeting BUY_DIV meets Watch; BUY_DIV's RSI and ADX Z bounds are lower and its CMF bound higher |
| Config.DecimalPlacesByField | config.py:11-22 | constant check: CMF is shown with two decimals, every other listed field with one |
| Config.IndicatorPeriods | config.py:5-9 | constant check: RSI and ADX periods 14, CMF 20, Mansfield RS 250; the historical replayers need 50 bars (config.py:69) |
| Periods.Collect | streamlit_app.py:471 | the rows of the first n periods, oldest first, at most one per period |
| Periods.CollectStep | streamlit_app.py:471-578 | visiting one more period appends its row if it yields one |
| Periods.CollectNothing | streamlit_app.py:580-581 | when no period yields a row the table is empty (and the replayer returns None) |
| Periods.CollectFrom | streamlit_app.py:471-578 | every collected row is the row of one visited period |
| Periods.CollectKeysRising | streamlit_app.py:471-578 | rows keyed by a stamp that rises toward the present come out with strictly rising keys, between the oldest and newest stamps |
| Periods.CollectRising | streamlit_app.py:816-941 | the same for the whole loop: every key within the stamps of the oldest and newest period, keys strictly rising |
| Periods.CollectOnlyLatest | streamlit_app.py:471-581 | when every period but the latest yields nothing, the rows are at most that one row |
| Ranking.RankBounds | analysis.py:245-248 | the min-rank of a value of the column lies in 1..N, ascending and descending |
| Ranking.RankMirror | analysis.py:267-268 | ascending rank + descending rank + number of ties = N + 2 |
| Ranking.RankMonotone | analysis.py:243-248 | a larger value never gets a smaller ascending or a larger descending rank, strictly when it differs and occurs in the column |
| Ranking.RankAscOneIffMinimum | analysis.py:245-248 | ascending rank 1 exactly for a minimum of the column |
| Ranking.RankDescOneIffMaximum | streamlit_app.py:574 | descending rank 1 exactly for a maximum of the column |
| Ranking.RankDescIsNegatedAsc | analysis.py:268 | ranking descending is ranking the negated column ascending |
| Ranking.RankSingleton | analysis.py:263-270 | in a one-row column every rank is 1 |
| Ranking.CountsPartition | analysis.py:245-248 | each entry is below, above or equal to the ranked value |
| Ranking.RankAsc | analysis.py:245-248 | `rank(ascending=True, method='min')`: one more than the number of entries below the value (definition; its properties are the Ranking lemmas above) |
| Ranking.RankDesc | analysis.py:268 | `rank(ascending=False, method='min')`: one more than the number of entries above the value (definition) |
| Scoring.RenormalisedMomentum | streamlit_app.py:884-891 | the replayed momentum score is missing (not a number) exactly when the total weight is zero |
| Scoring.MomentumPointsBounds | analysis.py:245-257 | with non-negative weights, the weighted rank sum lies between the weight sum and N times it |
| Scoring.RenormalisedMomentumBounds | streamlit_app.py:884-891 | with non-negative weights and a positive total, the replayed score is a number in [100, 100 N] |
| Scoring.MomentumDominance | analysis.py:243-257 | a sector at least as strong on all four columns never scores lower, strictly lower if its RS rating is lower and weighted |
| Scoring.FixedMomentumIsDefault | streamlit_app.py:548-559 | the trend's fixed 0.20/0.40/0.30/0.10 coefficients are the batch score under the default weights |
| Scoring.RenormalisedMomentumScaleInvariant | streamlit_app.py:885-891 | scaling every weight by c > 0 leaves the replayed momentum score unchanged |
| Scoring.MomentumWeightsOfScale | streamlit_app.py:887-890 | for a dict holding all four keys, scaling it scales each weight read with `.get` |
| Scoring.RankedReversal | analysis.py:273-280 | the ranked reversal score is missing exactly when the total weight is zero (corrected rank directions) |
| Scoring.AsWrittenRankedReversal | analysis.py:263-280 | the same score with the source's rank directions; missing exactly for a zero total |
| Scoring.ReversalPointsBounds | analysis.py:264-280 | with non-negative weights the reversal rank points lie between the weight sum and N times it |
| Scoring.RankedReversalBounds | analysis.py:273-280 | with non-negative weights and a positive total, a candidate's score is a number in [100, 100 N] |
| Scoring.ReversalDominance | analysis.py:265-266 | a candidate more oversold on every column (lower RS, RSI, ADX Z; higher CMF) never scores lower, strictly if its RS is lower and weighted |
| Scoring.FixedReversalIsDefault | analysis.py:281-287 | the fixed 0.40/0.40/0.10/0.10 × 100 branch is the ranked score under the default weights |
| Scoring.RankedReversalScaleInvariant | analysis.py:274-280 | scaling every weight by c > 0 leaves the ranked reversal score unchanged |
| Scoring.ReversalWeightsOfScale | analysis.py:276-279 | for a dict holding all four keys, scaling it scales each reversal weight read with `.get` |
| Scoring.SoleCandidateScoresHundred | analysis.py:263-280 | a lone candidate scores exactly 100 |
| Scoring.AsWrittenReversalInverted | analysis.py:265-270 | finding 1: the source's directions score the more oversold of two candidates 100 and the other 200; the intended ranks give 200 and 100 |
| Scoring.ExamplePoints | analysis.py:267-270 | of two candidates, the strictly more oversold one gets every source rank 1 and every intended rank 2 |
| Scoring.ExampleRanks | analysis.py:267-270 | the ascending and descending ranks of each column of a two-candidate pool |
| Scoring.WeighBounds | analysis.py:252-257 | ranks in 1..N with non-negative weights give a weighted sum between the weight sum and N times it |
| Scoring.WeighMonotone | analysis.py:252-257 | the weighted rank sum never falls when ranks rise, strictly when a weighted rank rises |
| Scoring.TimesIsProduct | analysis.py:253-256 | a rank times a weight |
| Scoring.BatchMomentum | analysis.py:252-257 | the batch momentum score: each ascending rank times its weight, summed, over 100 (definition; bounds and dominance are proved in MomentumPointsBounds, MomentumDominance) |
| Scoring.FixedMomentum | streamlit_app.py:554-559 | the trend's score with the fixed coefficients 0.20 / 0.40 / 0.30 / 0.10 (definition; FixedMomentumIsDefault ties it to the batch score) |
| Scoring.FixedRankedReversal | analysis.py:281-287 | the ranked reversal score with the fixed 40 / 40 / 10 / 10 × 100 coefficients, in the corrected directions (definition; FixedReversalIsDefault ties it to RankedReversal) |
| Analysis.RatingFromPerformance | analysis.py:37-39 | `max(0, min(10, 5 + 25 rel))` lies in [0, 10] |
| Analysis.RatingLandmarks | analysis.py:37-39 | matching the benchmark rates 5; 20 points of out- or underperformance saturate at 10 or 0; strictly inside the scale exactly between them |
| Analysis.RatingInverse | analysis.py:37-39 | off the clamps the rating gives back the relative performance, `(r - 5) / 25` |
| Analysis.RatingMonotone | analysis.py:35-39 | better relative performance never lowers the rating |
| Analysis.RelativeStrength | analysis.py:14-41 | in [0, 10]; the neutral 5 with fewer than two returns on either side or a cumulative return that is not a number |
| Analysis.RelativeStrengthOrdersPerformance | analysis.py:35-41 | beating the benchmark rates at least 5, lagging it at most 5 |
| Analysis.AnalyzerRsRating | analysis.py:84-98 | in [0, 10]; 5 without benchmark data |
| Analysis.AnalyzerRsNeedsTwoCommonReturns | analysis.py:90-96 | with fewer than two common timestamps the analyser rates 5 |
| Analysis.AdxZNorm | analysis.py:154 | the normalised ADX Z-score is never negative, 0 for a non-negative Z-score, at most 10 for a Z-score of -5 or more |
| Analysis.RsiNorm | analysis.py:153 | `(100 - rsi) / 10` lies in [0, 10] for an RSI in [0, 100] |
| Analysis.CmfNorm | analysis.py:155 | `(cmf + 1) * 5` lies in [0, 10] for a CMF in [-1, 1] |
| Analysis.RsNorm | analysis.py:156 | `10 - rs_rating` lies in [0, 10] for a rating in [0, 10] |
| Analysis.NormPoints | analysis.py:160-165 | the four normalised indicators times their weights, summed (definition; bounded by NormPointsBounds, monotone by NormPointsMonotone) |
| Analysis.ReversalScore | analysis.py:138-167 | the absolute reversal score is missing (not a number) exactly when the weights total zero |
| Analysis.ReversalScoreDominance | analysis.py:152-165 | lower RSI, ADX Z and RS and higher CMF never lower the absolute reversal score |
| Analysis.ReversalScoreBounds | analysis.py:152-165 | for in-range indicators and non-negative weights making up the dict, the score lies in [0, 1000] |
| Analysis.ReversalScoreScaleInvariant | analysis.py:159-165 | for a dict holding all four keys, multiplying every weight by c > 0 leaves the absolute reversal score unchanged |
| Analysis.ReversalStatus | analysis.py:170-202 | BUY_DIV exactly when the user filter passes and the BUY_DIV tier is met; Watch exactly when it passes, BUY_DIV fails and Watch is met |
| Analysis.PassesFilter | analysis.py:183-190 | the user filter: absent or empty thresholds pass everything, otherwise RSI and ADX Z below the thresholds with fallbacks 40 and 0.0 (definition; used in ReversalStatus's contract) |
| Analysis.CandidatesWithinWatchTier | analysis.py:192-202 | every candidate has RSI < 50, ADX Z < 0.5 and CMF > 0 |
| Analysis.FilterOnlyDemotes | analysis.py:183-190 | the user filter either demotes to No or leaves the unfiltered status |
| Analysis.SidebarDefaultsKeepBuyDiv | analysis.py:183-200 | under the default filter (RSI 40, ADX Z -0.5) BUY_DIV is exactly the config tier, and Watch exactly RSI < 40, ADX Z < -0.5 and CMF in (0, 0.1] |
| Analysis.AnalyzeSector | analysis.py:44-135 | no row exactly when the indicator library raises; otherwise the row names the sector, leaves momentum at 0, rates RS in [0, 10], shows "N/A" for a missing symbol, and has a reversal score unless the weights total zero |
| Analysis.DefaultWeightsGiveScore | analysis.py:61-64 | with the default reversal weights a row always carries a reversal score |
| Analysis.SectorEntry | analysis.py:228-235 | an entry gives no row exactly when it is the benchmark or fails to analyse, else one row for that sector |
| Analysis.CollectResults | analysis.py:226-235 | the collected rows are never the benchmark and never more than the entries |
| Analysis.CollectResultsEmpty | analysis.py:237-238 | no row exactly when every entry is the benchmark or fails |
| Analysis.CollectResultsFromInput | analysis.py:228-235 | every row names an input sector other than the benchmark |
| Analysis.Eligible | analysis.py:261 | the candidate table holds only rows of the table whose status is not No |
| Analysis.EligibleContains | analysis.py:261 | every row whose status is not No is in the candidate table |
| Analysis.EligibleReversal | analysis.py:273-287 | a candidate's ranked reversal score: renormalised weights when a non-empty dict is given, the fixed coefficients otherwise (definition; bounded by EligibleReversalBounds) |
| Analysis.ScoreRow | analysis.py:245-290 | one row after the batch step: its momentum score, and its ranked reversal score if it is a candidate (definition; its properties are ScoreBatch's ensures) |
| Analysis.ScoreBatch | analysis.py:240-295 | one row per input row; nothing but the two scores changes; non-candidates keep their absolute reversal score |
| Analysis.ScoreBatchIdempotent | analysis.py:240-295 | scoring a scored table again changes nothing |
| Analysis.BatchMomentumBounds | analysis.py:252-257 | with non-negative weights the momentum score lies between the weight sum and N times it, over 100 |
| Analysis.BatchMomentumDominance | analysis.py:243-257 | a row at least as strong on all four columns scores no lower, strictly if its RS rating is higher and weighted |
| Analysis.BatchReversalBounds | analysis.py:259-290 | a candidate's ranked reversal score is a number in [100, 100 × number of candidates] on either branch |
| Analysis.EligibleReversalBounds | analysis.py:273-287 | the same bounds for a member of the candidate pool, weighted or fixed |
| Analysis.AnalyzeEntry | analysis.py:228-235 | the loop body keeps exactly `SectorEntry`'s row for one entry |
| Analysis.AnalyzeAllSectors | analysis.py:205-295 | None exactly when every entry is the benchmark or fails; otherwise the batch-scored collected rows, none of them the benchmark |
| Replay.InlineRsRating | streamlit_app.py:505-527 | the replayers' inline RS rating lies in [0, 10] |
| Replay.AlignedRating | streamlit_app.py:515-523 | the rating of aligned returns lies in [0, 10] |
| Replay.LongRelativeStrength | streamlit_app.py:511-523 | with at least two returns a side it is the analyser's `calculate_relative_strength` |
| Replay.InlineRsMatchesAnalyzer | streamlit_app.py:505-527 | for chronological series the inline rating equals `analyze_sector`'s rating (analysis.py:84-98) |
| Replay.PeerStep | streamlit_app.py:486-539 | an abandoned period stays abandoned; otherwise the peers so far are kept and at most one is appended: this sector, with its own history, not the benchmark, with the minimum bars once cut back |
| Replay.BenchSubset | streamlit_app.py:492 | the benchmark cut back like the sector, and absent exactly when there is none |
| Replay.PeersUpTo | streamlit_app.py:486-539 | the peers of the first k sectors are at most k |
| Replay.PeerSnapshots | streamlit_app.py:486-539 | no more peers than sectors |
| Replay.PeersFromInput | streamlit_app.py:486-495 | every peer is an input sector with its history, not the benchmark, with at least the minimum bars once cut back |
| Replay.PeerFailurePropagates | streamlit_app.py:576-578 | a raise part-way through abandons the whole period |
| Replay.PeersUpToStep | streamlit_app.py:486-539 | the three outcomes of visiting sector k |
| Replay.VisitSector | streamlit_app.py:486-539 | the inner-loop body gives exactly the peers of the first k + 1 sectors |
| Replay.CollectPeers | streamlit_app.py:484-539 | the inner loop gives exactly `PeerSnapshots` |
| Replay.FindSector | streamlit_app.py:562-563 | finds the selected sector's first row exactly when it is among the peers |
| Replay.TrendRowFrom | streamlit_app.py:544-575 | a row exactly when the sector is among the peers, at the period's offset and date |
| Replay.TrendRowMatchesBatch | streamlit_app.py:548-574 | the trend's score is the batch momentum score under the default weights; its rank lies in 1..N and is 1 exactly for the period's highest score |
| Replay.MomentumTrendPeriod | streamlit_app.py:472-578 | a period's row belongs to the selected sector, at offset i-1 and the bar's date |
| Replay.MomentumPeriod | streamlit_app.py:472-578 | the period body with its exception handler computes `MomentumTrendPeriod` |
| Replay.SectorTrend | streamlit_app.py:450-588 | the loop computes `SectorTrendTable`: None for missing or short data or no row, else the rows oldest first |
| Replay.SectorTrendTable | streamlit_app.py:466-581 | None for missing or short data or when no period yields a row, else the rows of periods `periods` down to 1 (definition; TrendRowsOrdered states its order) |
| Replay.TrendRowsOrdered | streamlit_app.py:471-581 | periods come oldest first: the offsets fall strictly, all below `periods`, every row the selected sector's |
| Replay.NoBenchmarkPastPeers | streamlit_app.py:491-492 | without a benchmark, a past period (i > 1) fails at the first sector that is not the benchmark, or has no peers |
| Replay.NoBenchmarkOnlyLatest | streamlit_app.py:491-506 | without a benchmark the trend is at most the one `T` row, which is still computed with RS rating 5 |
| Replay.EligiblePeers | streamlit_app.py:677-699 | a peer is a candidate exactly when RSI and ADX Z fall below the thresholds (fallbacks 40 and -0.5) |
| Replay.TrendEligible | streamlit_app.py:676-677 | a peer is eligible when RSI and ADX Z fall below the thresholds, with fallbacks 40 and -0.5 (definition) |
| Replay.TrendReversalScore | streamlit_app.py:699-727 | an ineligible peer scores 0 |
| Replay.Positives | streamlit_app.py:750 | `ranked_df` keeps exactly the positive scores |
| Replay.TrendReversalScoreIffEligible | streamlit_app.py:699-727 | with sound weights a peer scores above 0 exactly when eligible, and then in [100, 100 × candidates] |
| Replay.TrendStatus | streamlit_app.py:738-745 | the trend's status is not No exactly when the peer is eligible |
| Replay.TrendStatusDiffersFromTable | streamlit_app.py:738-745 | although labelled as the main table's rule, under the default filter a BUY_DIV sector of the main table shows as Watch in the trend |
| Replay.ReversalTrendRowFrom | streamlit_app.py:729-764 | a row exactly when the sector is a peer; a rank is shown exactly for a scored candidate |
| Replay.ReversalTrendRankBounds | streamlit_app.py:747-752 | a shown rank lies in 1..(positive scores) and is 1 exactly for the period's best score |
| Replay.PositiveRank | streamlit_app.py:750-752 | the descending rank of a positive score among the positive scores |
| Replay.ReversalTrendPeriod | streamlit_app.py:615-767 | a period's row belongs to the selected sector, at offset i-1 and the bar's date |
| Replay.ReversalPeriod | streamlit_app.py:615-767 | the period body with its exception handler computes `ReversalTrendPeriod` |
| Replay.ReversalTrend | streamlit_app.py:591-777 | the loop computes `ReversalTrendTable` |
| Replay.ReversalTrendTable | streamlit_app.py:609-770 | None for missing or short data or when no period yields a row, else the rows oldest first (definition; ReversalTrendRowsOrdered states its order) |
| Replay.ReversalTrendRowsOrdered | streamlit_app.py:614-770 | reversal-trend periods come oldest first, offsets strictly falling below `periods` |
| Replay.ReversalNoBenchmarkOnlyLatest | streamlit_app.py:634-648 | without a benchmark the reversal trend is at most the one `T` row |
| History.LookbackCap | streamlit_app.py:799-808 | the look-back cap of every interval is at least 10 bars |
| History.Lookback | streamlit_app.py:799-811 | a look-back exactly when the benchmark has at least 30 bars; then the cap or the length less 20, whichever is smaller, and at least 10 |
| History.ForwardReturn | streamlit_app.py:912-917 | missing exactly past the end of the data (or for a zero close) |
| History.ForwardReturnRoundTrip | streamlit_app.py:912-917 | the current close grown by the forward return is the close k bars later |
| History.BestUpTo | streamlit_app.py:893-895 | the first peer no other outscores, excluding one index |
| History.TopTwo | streamlit_app.py:893-898 | two leaders exactly with two peers; the first outscored by none, the second by none but the first; ties go to the earlier peer |
| History.Largest | streamlit_app.py:1089 | `nlargest` skips missing scores: none exactly when all are missing, else an unbeaten numeric score |
| History.MomentumScores | streamlit_app.py:885-891 | one score per peer |
| History.AsWrittenMomentumLeaders | streamlit_app.py:893-922 | as written, a row of leaders exactly when there are two peers |
| History.MomentumLeadersFrom | streamlit_app.py:893-938 | corrected: leaders exactly with two peers; each pick valued on its own history |
| History.MomentumLeadersAreTopTwo | streamlit_app.py:893-938 | the leaders are two different peers with the two highest scores, with their symbols and forward returns from the bar after their own scoring window |
| History.PickValuedAfterWindow | streamlit_app.py:909-917 | a pick's 7-bar return grows the close right after its window into the close seven bars later |
| History.TiedPeersInOrder | streamlit_app.py:894-895 | tied scores keep the input order |
| History.RampReturns | streamlit_app.py:912-917 | worked example for History.AsWrittenSecondPickMisplaced: the 7-bar returns of the example series from bar 60 and from bar 50 |
| History.AsWrittenSecondPickMisplaced | streamlit_app.py:909-921 | finding 3: as written the second leader's 7-day return starts from close 61 instead of the intended 51 |
| History.MomentumPeriodRow | streamlit_app.py:874-938 | a period's row is dated by its bar |
| History.MomentumHistoryPeriod | streamlit_app.py:817-941 | a period's row carries the benchmark's date for that period |
| History.MomentumPeriod | streamlit_app.py:817-941 | the period body with its exception handler computes `MomentumHistoryPeriod` |
| History.HistoricalMomentum | streamlit_app.py:780-950 | the loop computes `HistoricalMomentumTable` |
| History.HistoricalMomentumTable | streamlit_app.py:799-946 | None without a look-back, else the rows of the periods from the look-back down to 1 (definition; MomentumRowsRise states its order) |
| History.MomentumRowsRise | streamlit_app.py:816-946 | the table's dates lie within the benchmark's last look-back bars and rise strictly |
| History.ReversalScores | streamlit_app.py:1072-1086 | one ranked reversal score per candidate, each missing exactly when the total weight is zero |
| History.ReversalScoresBounds | streamlit_app.py:1072-1086 | with non-negative weights and their sum as the total, every candidate gets a number in [100, 100 × candidates] |
| History.ReversalTopTwo | streamlit_app.py:1089-1100 | a first place exactly when some score is a number; a second exactly when another is; neither beaten |
| History.ReversalLeadersFrom | streamlit_app.py:1063-1108 | each named leader is a peer passing the thresholds |
| History.ZeroWeightsNoReversalLeaders | streamlit_app.py:1080-1091 | a zero total weight leaves no period with leaders (`nlargest` drops every not-a-number) |
| History.ReversalLeadersIffCandidates | streamlit_app.py:1070-1101 | with a non-zero total, leaders exactly when a peer passes; a second place exactly with two; "N/A" with one |
| History.ReversalPeriodLeaders | streamlit_app.py:1063-1108 | a period's row is dated by its bar |
| History.ReversalHistoryPeriod | streamlit_app.py:992-1111 | a period's row carries the benchmark's date for that period |
| History.ReversalPeriod | streamlit_app.py:992-1111 | the period body with its exception handler computes `ReversalHistoryPeriod` |
| History.HistoricalReversal | streamlit_app.py:953-1120 | the loop computes `HistoricalReversalTable` |
| History.HistoricalReversalTable | streamlit_app.py:974-1116 | None without a look-back, else the rows of the periods from the look-back down to 1 (definition; ReversalRowsRise states its order) |
| History.ReversalRowsRise | streamlit_app.py:991-1116 | the table's dates lie within the benchmark's last look-back bars and rise strictly |
| History.BenchStampsRise | streamlit_app.py:818 | over a chronological benchmark, a period's date rises as the period approaches the present |
| History.StampedRowsRise | streamlit_app.py:816-818 | rows dated by their period's benchmark bar come out strictly rising, within the look-back |
| Company.Fetched | company_analysis.py:33-44 | no more data entries than symbols |
| Company.FailedSymbols | company_analysis.py:34-44 | no more failures than symbols |
| Company.FetchPartition | company_analysis.py:36-44 | every symbol is fetched or failed; kept entries are the symbol's non-empty data; a symbol fails exactly when its fetch raises or gives nothing |
| Company.FetchCompanies | company_analysis.py:30-44 | the fetch loop computes `Fetched` and `FailedSymbols` |
| Company.MapAll | company_analysis.py:64-124 | a loop that did not raise gives one result per element |
| Company.MapAllResults | company_analysis.py:64-124 | the loop raises exactly when one call does; otherwise result k is call k's value |
| Company.MapAllStep | company_analysis.py:64-124 | one more element appends its result or raises |
| Company.MapAllFailureSticks | company_analysis.py:64-124 | a raise part-way through ends the loop |
| Company.MapAllKeeps | company_analysis.py:64-124 | every result has a property every call's value has |
| Company.CompanyRsRating | company_analysis.py:90-104 | in [0, 10]; 5 with at most one common timestamp |
| Company.CompanyRsAgainstInline | company_analysis.py:90-104 | equals the replayers' inline rating, except where a cumulative return is not a number: there the company rating is 10, the inline one 5 |
| Company.AsWrittenAdxZ | company_analysis.py:83 | finding 2: as written the ADX Z-score is always "N/A" |
| Company.CompanyAdxZ | company_analysis.py:74 | corrected: the Z-score the library returns |
| Company.ShownWeight | company_analysis.py:252 | a company's weight (0 when missing, line 218) is shown only when positive, otherwise "N/A" |
| Company.MomentumRowOf | company_analysis.py:106-124 | the momentum score is the RS rating, in [0, 10] |
| Company.AnalyseCompanies | company_analysis.py:64-124 | the analysis loop computes `MapAll` of the row function over the fetched companies |
| Company.InsertByMomentum | company_analysis.py:131 | inserting adds one row |
| Company.InsertAdds | company_analysis.py:131 | inserting adds the row and nothing else, as a multiset |
| Company.InsertKeepsOrder | company_analysis.py:131 | inserting into descending rows keeps them descending |
| Company.SortByMomentum | company_analysis.py:130-131 | sorting keeps the number of rows |
| Company.SortByMomentumSorts | company_analysis.py:131 | the sort is descending by score and a permutation of the rows |
| Company.AssignRanks | company_analysis.py:132 | row k gets rank k + 1 |
| Company.Ranked | company_analysis.py:132 | row k gets rank k + 1 |
| Company.RankedByMomentum | company_analysis.py:126-133 | ranks run 1..N; a better rank never has a lower score; the ranked rows are the analysed rows |
| Company.SortKeeps | company_analysis.py:131 | sorting keeps any property every row has |
| Company.Highest | company_analysis.py:152 | 0 for no scores; otherwise one of them and at least every other |
| Company.Average | company_analysis.py:149 | `sum(scores) / len(scores)`, 0 for no scores (definition; SummaryOnScale bounds it) |
| Company.SumOnScale | company_analysis.py:149 | scores on the 0-10 scale sum to between 0 and 10 per score |
| Company.SummaryOnScale | company_analysis.py:148-153 | the average and the highest of 0-10 scores stay on the scale |
| Company.CmfSum | company_analysis.py:156-157 | the sum of the CMF values that are not "N/A" (definition; CmfSumSplits states that "N/A" adds nothing) |
| Company.CmfSumSplits | company_analysis.py:155-158 | the CMF sum splits over a concatenation; rows with "N/A" add nothing |
| Company.RowAtFacts | company_analysis.py:64-124 | every row the loop body produces has the row facts |
| Company.MomentumTab | company_analysis.py:14-160 | the momentum tab: no sector, no company data, no benchmark or a raise are failures, else the ranked report (definition; MomentumTabShows states its facts) |
| Company.ReportOfRows | company_analysis.py:126-160 | the ranked table and summary of analysed rows: ranks, order, permutation, scores and summary on the scale, "Inflow" exactly for a positive CMF sum |
| Company.MomentumTabRows | company_analysis.py:14-124 | a successful tab ranks the analysed rows of the fetched companies |
| Company.MomentumTabShows | company_analysis.py:14-160 | one ranked row per company with data; analysed + failed = all companies; ranks 1..N by descending score; each score is the RS rating in [0, 10] with its ADX Z-score shown; average and highest in [0, 10]; "Inflow" exactly when the CMF sum is positive |
| Company.CompanyMomentumTab | company_analysis.py:14-160 | the tab's steps compute `MomentumTab`: no sector, no company data, no benchmark or a raise stop it |
| Company.AsWrittenMomentumAdxZMissing | company_analysis.py:83 | as written no momentum row shows an ADX Z-score |
| Company.CompanyStatus | company_analysis.py:237-244 | "No" unless RSI, ADX Z and CMF are all numbers |
| Company.CompanyStatusTiers | company_analysis.py:210-244 | BUY_DIV exactly when the config's BUY_DIV tier is met (line 210 repeats its values); Watch exactly when only the Watch tier is; on three numbers it agrees with the sector status without a filter |
| Company.ReversalRowOf | company_analysis.py:215-258 | one reversal row: name, price, change, shown weight, status from the company rule, and the three figures (definition) |
| Company.Candidates | company_analysis.py:246-258 | only rows with status other than "No" are shown |
| Company.CandidatesExactly | company_analysis.py:246 | a row is shown exactly when its status is not "No" |
| Company.AssessCompanies | company_analysis.py:215-258 | the loop raises exactly when the row function does; otherwise it keeps exactly the candidates of all rows |
| Company.CountsMakeTotal | company_analysis.py:264-274 | among shown rows the BUY_DIV and Watch counts add up to the total |
| Company.ReversalRowAtFacts | company_analysis.py:215-244 | every row the loop body produces has the status of its own figures |
| Company.ReversalTabShows | company_analysis.py:163-278 | exactly the companies with data whose status is not "No", each with the status of its own RSI, ADX Z-score and CMF, its Z-score shown, and counts that add up |
| Company.CompanyReversalTab | company_analysis.py:163-278 | the tab's steps compute `ReversalTab` |
| Company.ReversalTab | company_analysis.py:163-278 | the reversal tab: the same failures, else the candidate rows with their BUY_DIV and Watch counts (definition; ReversalTabShows states its facts) |
| Company.AsWrittenReversalTabEmpty | company_analysis.py:229-244 | finding 2: as written a successful run never shows a candidate |
| Company.OversoldCompanyDropped | company_analysis.py:229-246 | RSI 30, ADX Z -1, CMF 0.2 is BUY_DIV as intended and "No" as written |

## Left out

- The indicator library (RSI, ADX, DI, CMF, Z-score, Mansfield RS) is a parameter. Its numerics, and the DI lines the source reads but never uses, are not modelled.
- An ADX Z-score that is not a number is not modelled; the Z-score is a real. The replayers would replace it by 0, the analyser would compare it.
- Data fetching, caching, dates and the Streamlit display are not modelled.
  - Data fetching (data_fetcher.py) is a parameter. A benchmark fetch that raises counts as no data.
  - Date labels are timestamps.
  - The display covers widgets, colours, warnings, tooltips, the Excel load and `format_results_dataframe`.
- Rounding to one or two decimals is not modelled: the displayed strings, the rounded sort key of the company table, the CMF values summed from their two-decimal strings, and the rounded forward returns. The model works on the unrounded numbers.
- Symbol tables (config.py, company_symbols.py) are parameters; their contents are not modelled.
- Series.ReturnAt: a zero previous close gives a missing return. pandas does otherwise, in two cases:
  - 0 / 0 gives not-a-number, and `.dropna()` (analysis.py:86-87, streamlit_app.py:509-510) removes that return, so the series has one return fewer.
  - x / 0 with x not 0 gives an infinite return. `(1 + r).prod()` is then infinite, not not-a-number, and the clamp rates the sector 10 (or 0 when it is the benchmark's close that was zero).
- Series.Returns and Series.CumulativeReturn inherit this: the model keeps the missing return, so the count of returns differs in the 0 / 0 case, and the cumulative return is missing, so the rating is 5 where the source rates 10 or 0.
- History.ForwardReturn: a zero current close is treated as a missing return. In the source the closes are numpy floats, so streamlit_app.py:915 gives an infinite return (or not-a-number for 0 / 0) with a runtime warning; it does not raise.
- Company.CompanyRsRating: infinities from zero closes are not told apart from not-a-number.
- Analysis.ReversalScore: a zero total weight gives a missing score.
  - The source gives infinity or not-a-number on numpy values.
  - On plain floats it raises, and the sector is dropped.
- Ties in `sort_values` are broken by input order (History.TopTwo, Company.SortByMomentum). pandas's quicksort does not promise that order.
- History.HistoricalMomentum: when the indicator library raises for one peer, the model abandons the whole period, which is what the source's handler does. But the historical momentum loop computes only RSI, ADX/DI and the Z-score (streamlit_app.py:835-839). The model's single indicator parameter fails as a whole, so a period is also abandoned when only CMF or Mansfield RS would have failed, which the source does not compute there.
- Company.SummaryOnScale: it does not state that the average is at most the highest score.
- Per-period replays are positional: bars are cut off by count, not by date.
- Replay.TrendReversalScore: with an empty weight dict the source divides the `.get` fallbacks by a zero total and gets infinite scores; the model scores 0. The sidebar always passes all four keys, so this does not arise from the dashboard.
- Company.MomentumRowOf and Company.CompanyStatus: an indicator is missing in the model only when its whole series is undefined, as in analysis.py:73-76. The company loops take `iloc[-1]` whatever it holds (company_analysis.py:77-83, 228-230), so a not-a-number last value after valid values is a missing value there and a number in the model.
- Analysis.ScoreBatch: candidates are ranked in the intended directions of finding 1 (RS rating, RSI and ADX Z descending, CMF ascending), not in the directions of analysis.py:267-270. The as-written ranking is Scoring.AsWrittenRankedReversal.
- Analysis.ScoreRow and Analysis.EligibleReversal: the same intended directions, for one row.
- Analysis.AnalyzeAllSectors: its scored rows carry the intended reversal ranking of Analysis.ScoreBatch.
- Replay.TrendReversalScore: eligible peers are ranked in the intended directions, not those of streamlit_app.py:703-708.
- Replay.ReversalTrendPeriod and Replay.ReversalTrend: their scores and ranks come from that intended ranking.
- History.ReversalScores: candidates are ranked in the intended directions, not those of streamlit_app.py:1074-1077.
- History.ReversalLeadersFrom: the two leaders are picked by the intended ranking, so whenever two candidates differ they can name a different pair than the source.
- History.HistoricalReversal: its table carries the leaders of History.ReversalLeadersFrom.

- History.MomentumPeriodRow: the second leader's forward returns are taken from its own history (the corrected half of finding 3), not from rank 1's index as streamlit_app.py:909 and 921-922 do, so the two differ whenever the leaders' histories differ in length.
- History.MomentumHistoryPeriod: its row comes from History.MomentumPeriodRow, with the same corrected second-leader returns.
- History.MomentumPeriod: it computes History.MomentumHistoryPeriod, with the same corrected second-leader returns.
- History.HistoricalMomentum: besides the indicator gap above, its table holds the corrected second-leader returns of History.MomentumPeriodRow.
- History.HistoricalMomentumTable: its rows are History.MomentumPeriodRow's, with the corrected second-leader returns.
- Company.AnalyseCompanies: it reads the ADX Z-score with Company.CompanyAdxZ (the corrected half of finding 2), so a row shows the Z-score where company_analysis.py:83 and 121 always show "N/A". Company.MomentumTab with Company.AsWrittenAdxZ is the as-written reading.
- Company.CompanyMomentumTab: it is Company.MomentumTab with Company.CompanyAdxZ; the source's tab always shows "N/A" in the Z-score column (Company.AsWrittenMomentumAdxZMissing).
- Company.AssessCompanies: it reads the ADX Z-score with Company.CompanyAdxZ, so it keeps candidates that the source drops, since there every status is "No" (company_analysis.py:229, 239).
- Company.CompanyReversalTab: it is Company.ReversalTab with Company.CompanyAdxZ; the source's candidate list is always empty (Company.AsWrittenReversalTabEmpty).
- Scoring.RenormalisedMomentum: a zero total weight gives a missing score. That is the source's not-a-number only when the dict holds at least one of the four keys (0 / 0 or inf - inf). A zero-total dict holding none of them, such as `{}` or `{"X": 0}`, divides each `.get` fallback by 0 and gives +inf instead. The sidebar (streamlit_app.py:218-262) always passes all four keys, so this does not arise from the dashboard.
- Scoring.RankedReversal: the same zero-total gap as Scoring.RenormalisedMomentum.
- Scoring.AsWrittenRankedReversal: the same zero-total gap as Scoring.RenormalisedMomentum.
- Analysis.EligibleReversal: the same zero-total gap as Scoring.RenormalisedMomentum, for a non-empty dict (analysis.py:273-280 guards only the empty one).
- History.ReversalScores: the same zero-total gap as Scoring.RenormalisedMomentum; streamlit_app.py:1080-1086 has no guard for the empty dict.
- History.ZeroWeightsNoReversalLeaders: it holds for the model's missing scores only. In the source a zero-total dict without the four keys gives +inf scores, which `nlargest` keeps, so leaders are named.

## Findings

| source | as written | input that shows it | evidently intended | confidence | as-written member | corrected member |
|---|---|---|---|---|---|---|
| analysis.py:265-270 (also streamlit_app.py:703-708 and 1074-1077) | RS rating, RSI and ADX Z are ranked ascending and CMF descending, so the least oversold candidate gets the highest rank points | a = (RSI 25, ADX Z -1.5, CMF 0.3, RS 2), b = (35, -0.6, 0.15, 4), default weights: a scores 100, b 200 | the comments say lower RS/RSI/ADX Z and higher CMF earn the highest rank: a 200, b 100 | not executed | Scoring.AsWrittenReversalInverted | Scoring.RankedReversal |
| company_analysis.py:83 and 229 | `isinstance(adx_z_series, pd.Series)` on the scalar Z-score is false, so the ADX Z-score is always None and every company's status is "No" | RSI 30, ADX Z -1, CMF 0.2: BUY_DIV by the thresholds, dropped as written | use the scalar Z-score | not executed | Company.AsWrittenReversalTabEmpty | Company.ReversalTabShows |
| streamlit_app.py:909 | `current_idx = len(rank_1_data) - i` is used for both leaders' forward returns | two tied peers with 80 and 70 bars, period i = 20: the second leader's 7-day return starts at bar 60 (close 61) instead of bar 50 (close 51) | each leader's index from its own data, `len(rank_2_data) - i` | not executed | History.AsWrittenSecondPickMisplaced | History.MomentumLeadersFrom |
