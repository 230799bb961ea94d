/**
 * The per-sector analyser and the batch scorer (analysis.py): relative
 * strength against the benchmark, the absolute reversal score, the reversal
 * status, one result row per sector, and the rank-based momentum and
 * reversal scores computed over the whole batch.
 */
module Analysis {
  import opened Wrappers
  import opened Dicts
  import opened Series
  import opened Scoring
  import Config

  datatype Status = BuyDiv | Watch | No

  // ---------------------------------------------------------------------------
  // Relative strength

  /** `max(0, min(10, 5 + relative_perf * 25))`: relative performance on a 0-10 scale. */
  function RatingFromPerformance(rel: real): (r: real)
    ensures 0.0 <= r <= 10.0
  {
    var raw := 5.0 + rel * 25.0;
    if raw >= 10.0 then 10.0 else if raw <= 0.0 then 0.0 else raw
  }

  /** Matching the benchmark rates 5; 20 points of out- or underperformance saturate the scale. */
  lemma RatingLandmarks(rel: real)
    ensures rel == 0.0 ==> RatingFromPerformance(rel) == 5.0
    ensures rel >= 0.2 ==> RatingFromPerformance(rel) == 10.0
    ensures rel <= -0.2 ==> RatingFromPerformance(rel) == 0.0
    ensures -0.2 < rel < 0.2 <==> 0.0 < RatingFromPerformance(rel) < 10.0
  {
  }

  /** Off the clamps the rating determines the relative performance: `rel == (r - 5) / 25`. */
  lemma RatingInverse(rel: real)
    requires 0.0 < RatingFromPerformance(rel) < 10.0
    ensures (RatingFromPerformance(rel) - 5.0) / 25.0 == rel
  {
  }

  /** Better relative performance never lowers the rating. */
  lemma RatingMonotone(rel1: real, rel2: real)
    requires rel1 <= rel2
    ensures RatingFromPerformance(rel1) <= RatingFromPerformance(rel2)
  {
  }

  /**
   * `calculate_relative_strength`: the rating of the sector's cumulative
   * return minus the benchmark's; neutral 5 with fewer than two returns on
   * either side or a cumulative return that is not a number.
   */
  function RelativeStrength(sr: seq<Return>, br: seq<Return>): (r: real)
    ensures 0.0 <= r <= 10.0
    ensures |sr| < 2 || |br| < 2 ==> r == 5.0
    ensures CumulativeReturn(sr).None? || CumulativeReturn(br).None? ==> r == 5.0
  {
    if |sr| < 2 || |br| < 2 then 5.0
    else match (CumulativeReturn(sr), CumulativeReturn(br))
      case (Some(s), Some(b)) => RatingFromPerformance(s - b)
      case _ => 5.0
  }

  /** A sector that beats the benchmark rates at least 5, one that lags rates at most 5. */
  lemma RelativeStrengthOrdersPerformance(sr: seq<Return>, br: seq<Return>)
    requires |sr| >= 2 && |br| >= 2
    requires CumulativeReturn(sr).Some? && CumulativeReturn(br).Some?
    ensures CumulativeReturn(sr).value >= CumulativeReturn(br).value ==> RelativeStrength(sr, br) >= 5.0
    ensures CumulativeReturn(sr).value <= CumulativeReturn(br).value ==> RelativeStrength(sr, br) <= 5.0
  {
    var rel := CumulativeReturn(sr).value - CumulativeReturn(br).value;
    assert RelativeStrength(sr, br) == RatingFromPerformance(rel);
    RatingLandmarks(0.0);
    if rel >= 0.0 {
      RatingMonotone(0.0, rel);
    } else {
      RatingMonotone(rel, 0.0);
    }
  }

  /**
   * The analyser's RS rating: returns of sector and benchmark aligned on
   * their common timestamps, 5 when there is no benchmark or no common
   * timestamp.
   */
  function AnalyzerRsRating(data: PriceSeries, bench: Option<PriceSeries>): (r: real)
    ensures 0.0 <= r <= 10.0
    ensures bench.None? || |bench.value| == 0 ==> r == 5.0
  {
    if bench.Some? && |bench.value| > 0 then
      var sr := Returns(data);
      var br := Returns(bench.value);
      if CommonCount(sr, br) > 0 then RelativeStrength(Restrict(sr, Stamps(br)), Restrict(br, Stamps(sr)))
      else 5.0
    else 5.0
  }

  /**
   * For chronological series the rating is neutral unless the two return
   * series share at least two timestamps: one common timestamp passes the
   * analyser's guard but not the callee's.
   */
  lemma AnalyzerRsNeedsTwoCommonReturns(data: PriceSeries, bench: PriceSeries)
    requires Chronological(data) && Chronological(bench)
    requires CommonCount(Returns(data), Returns(bench)) < 2
    ensures AnalyzerRsRating(data, Some(bench)) == 5.0
  {
    ChronologicalReturnsDistinct(data);
    ChronologicalReturnsDistinct(bench);
    AlignedLengths(Returns(data), Returns(bench));
  }

  // ---------------------------------------------------------------------------
  // Absolute reversal score

  /** Lower RSI means more reversal potential: `(100 - rsi) / 10`. */
  function RsiNorm(rsi: real): (n: real)
    ensures 0.0 <= rsi <= 100.0 ==> 0.0 <= n <= 10.0
  {
    (100.0 - rsi) / 10.0
  }

  /** Only a negative ADX Z-score (a weak trend) counts: `max(0, -adx_z) * 2`. */
  function AdxZNorm(adxZ: real): (n: real)
    ensures n >= 0.0
    ensures adxZ >= 0.0 ==> n == 0.0
    ensures -5.0 <= adxZ ==> n <= 10.0
  {
    (if -adxZ > 0.0 then -adxZ else 0.0) * 2.0
  }

  /** CMF in [-1, 1] mapped onto [0, 10]: `(cmf + 1) * 5`. */
  function CmfNorm(cmf: real): (n: real)
    ensures -1.0 <= cmf <= 1.0 ==> 0.0 <= n <= 10.0
  {
    (cmf + 1.0) * 5.0
  }

  /** A lower RS rating (more underperformance) counts more: `10 - rs_rating`. */
  function RsNorm(rs: real): (n: real)
    ensures 0.0 <= rs <= 10.0 ==> 0.0 <= n <= 10.0
  {
    10.0 - rs
  }

  function NormPoints(rsi: real, adxZ: real, cmf: real, rs: real, w: ReversalWeights): real {
    RsiNorm(rsi) * w.rsi + AdxZNorm(adxZ) * w.adxZ + CmfNorm(cmf) * w.cmf + RsNorm(rs) * w.rsRating
  }

  /**
   * `calculate_reversal_score`: the normalised indicators weighted by the
   * dictionary's weights (with `.get` fallbacks) over the sum of all its
   * values, times 100. None stands for the not-a-number of a zero total.
   */
  function ReversalScore(rsi: real, adxZ: real, cmf: real, rs: real, d: Dict<real>): (s: Option<real>)
    ensures s.None? <==> Total(d) == 0.0
  {
    if Total(d) == 0.0 then None
    else Some(NormPoints(rsi, adxZ, cmf, rs, ReversalWeightsWithDefaults(d)) / Total(d) * 100.0)
  }

  lemma MulMonotone(a: real, b: real, w: real)
    requires a <= b && w >= 0.0
    ensures a * w <= b * w
  {
  }

  lemma MulBounds(a: real, w: real)
    requires 0.0 <= a <= 10.0 && w >= 0.0
    ensures 0.0 <= a * w <= 10.0 * w
  {
  }

  lemma SumMonotone(a1: real, a2: real, a3: real, a4: real, b1: real, b2: real, b3: real, b4: real)
    requires a1 <= b1 && a2 <= b2 && a3 <= b3 && a4 <= b4
    ensures a1 + a2 + a3 + a4 <= b1 + b2 + b3 + b4
  {
  }

  lemma RatioMonotone(x: real, y: real, t: real)
    requires x <= y && t > 0.0
    ensures x / t * 100.0 <= y / t * 100.0
  {
  }

  /**
   * The absolute reversal score rewards what it claims to: with
   * non-negative weights and a positive total, lower RSI, a lower ADX
   * Z-score, higher CMF and a lower RS rating never lower the score.
   */
  lemma ReversalScoreDominance(rsi1: real, adxZ1: real, cmf1: real, rs1: real,
                               rsi2: real, adxZ2: real, cmf2: real, rs2: real, d: Dict<real>)
    requires rsi1 <= rsi2 && adxZ1 <= adxZ2 && cmf1 >= cmf2 && rs1 <= rs2
    requires ReversalWeightsWithDefaults(d).NonNegative() && Total(d) > 0.0
    ensures ReversalScore(rsi2, adxZ2, cmf2, rs2, d).value <= ReversalScore(rsi1, adxZ1, cmf1, rs1, d).value
  {
    var w := ReversalWeightsWithDefaults(d);
    NormPointsMonotone(rsi1, adxZ1, cmf1, rs1, rsi2, adxZ2, cmf2, rs2, w);
    RatioMonotone(NormPoints(rsi2, adxZ2, cmf2, rs2, w), NormPoints(rsi1, adxZ1, cmf1, rs1, w), Total(d));
  }

  lemma NormPointsMonotone(rsi1: real, adxZ1: real, cmf1: real, rs1: real,
                           rsi2: real, adxZ2: real, cmf2: real, rs2: real, w: ReversalWeights)
    requires rsi1 <= rsi2 && adxZ1 <= adxZ2 && cmf1 >= cmf2 && rs1 <= rs2 && w.NonNegative()
    ensures NormPoints(rsi2, adxZ2, cmf2, rs2, w) <= NormPoints(rsi1, adxZ1, cmf1, rs1, w)
  {
    var a1, b1 := RsiNorm(rsi2), RsiNorm(rsi1);
    var a2, b2 := AdxZNorm(adxZ2), AdxZNorm(adxZ1);
    var a3, b3 := CmfNorm(cmf2), CmfNorm(cmf1);
    var a4, b4 := RsNorm(rs2), RsNorm(rs1);
    MulMonotone(a1, b1, w.rsi);
    MulMonotone(a2, b2, w.adxZ);
    MulMonotone(a3, b3, w.cmf);
    MulMonotone(a4, b4, w.rsRating);
    SumMonotone(a1 * w.rsi, a2 * w.adxZ, a3 * w.cmf, a4 * w.rsRating, b1 * w.rsi, b2 * w.adxZ, b3 * w.cmf, b4 * w.rsRating);
  }

  /**
   * With indicators in their natural ranges and weights that are the whole
   * dictionary, the score is a weighted average of 0-10 values times 100.
   */
  lemma ReversalScoreBounds(rsi: real, adxZ: real, cmf: real, rs: real, d: Dict<real>)
    requires 0.0 <= rsi <= 100.0 && -5.0 <= adxZ && -1.0 <= cmf <= 1.0 && 0.0 <= rs <= 10.0
    requires ReversalWeightsWithDefaults(d).NonNegative()
    requires Total(d) == ReversalWeightsWithDefaults(d).Sum() && Total(d) > 0.0
    ensures 0.0 <= ReversalScore(rsi, adxZ, cmf, rs, d).value <= 1000.0
  {
    var w := ReversalWeightsWithDefaults(d);
    var t := Total(d);
    NormPointsBounds(rsi, adxZ, cmf, rs, w);
    var p := NormPoints(rsi, adxZ, cmf, rs, w);
    RatioMonotone(0.0, p, t);
    RatioMonotone(p, 10.0 * t, t);
    assert 10.0 * t / t * 100.0 == 1000.0;
  }

  /**
   * Dividing by the total weight makes the absolute score independent of
   * the weights' scale: multiplying every weight of a dictionary that holds
   * all four keys by a positive factor changes nothing.
   */
  lemma ReversalScoreScaleInvariant(rsi: real, adxZ: real, cmf: real, rs: real, d: Dict<real>, c: real)
    requires HasReversalKeys(d) && c > 0.0
    ensures ReversalScore(rsi, adxZ, cmf, rs, Scale(d, c)) == ReversalScore(rsi, adxZ, cmf, rs, d)
  {
    TotalOfScale(d, c);
    ReversalWeightsOfScale(d, c);
    var w := ReversalWeightsWithDefaults(d);
    var ws := ReversalWeightsWithDefaults(Scale(d, c));
    NormPointsScale(rsi, adxZ, cmf, rs, w, ws, c);
    ReversalScoreRatio(rsi, adxZ, cmf, rs, d, Scale(d, c), c);
  }

  lemma ReversalScoreRatio(rsi: real, adxZ: real, cmf: real, rs: real, d: Dict<real>, ds: Dict<real>, c: real)
    requires c > 0.0 && Total(ds) == c * Total(d)
    requires NormPoints(rsi, adxZ, cmf, rs, ReversalWeightsWithDefaults(ds))
             == c * NormPoints(rsi, adxZ, cmf, rs, ReversalWeightsWithDefaults(d))
    ensures ReversalScore(rsi, adxZ, cmf, rs, ds) == ReversalScore(rsi, adxZ, cmf, rs, d)
  {
    CancelFactor(NormPoints(rsi, adxZ, cmf, rs, ReversalWeightsWithDefaults(ds)), Total(ds),
                 NormPoints(rsi, adxZ, cmf, rs, ReversalWeightsWithDefaults(d)), Total(d), c);
  }

  lemma NormPointsScale(rsi: real, adxZ: real, cmf: real, rs: real, w: ReversalWeights, ws: ReversalWeights, c: real)
    requires ScaledReversalWeights(ws, w, c)
    ensures NormPoints(rsi, adxZ, cmf, rs, ws) == c * NormPoints(rsi, adxZ, cmf, rs, w)
  {
    var a1, a2, a3, a4 := RsiNorm(rsi), AdxZNorm(adxZ), CmfNorm(cmf), RsNorm(rs);
    assert a1 * (c * w.rsi) == c * (a1 * w.rsi);
    assert a2 * (c * w.adxZ) == c * (a2 * w.adxZ);
    assert a3 * (c * w.cmf) == c * (a3 * w.cmf);
    assert a4 * (c * w.rsRating) == c * (a4 * w.rsRating);
  }

  lemma NormPointsBounds(rsi: real, adxZ: real, cmf: real, rs: real, w: ReversalWeights)
    requires 0.0 <= rsi <= 100.0 && -5.0 <= adxZ && -1.0 <= cmf <= 1.0 && 0.0 <= rs <= 10.0
    requires w.NonNegative()
    ensures 0.0 <= NormPoints(rsi, adxZ, cmf, rs, w) <= 10.0 * w.Sum()
  {
    WeightedBounds(RsiNorm(rsi), AdxZNorm(adxZ), CmfNorm(cmf), RsNorm(rs), w.rsi, w.adxZ, w.cmf, w.rsRating);
  }

  /** Four values in [0, 10] weighted by non-negative weights stay within 0 and ten times the weight sum. */
  lemma WeightedBounds(a1: real, a2: real, a3: real, a4: real, w1: real, w2: real, w3: real, w4: real)
    requires 0.0 <= a1 <= 10.0 && 0.0 <= a2 <= 10.0 && 0.0 <= a3 <= 10.0 && 0.0 <= a4 <= 10.0
    requires w1 >= 0.0 && w2 >= 0.0 && w3 >= 0.0 && w4 >= 0.0
    ensures 0.0 <= a1 * w1 + a2 * w2 + a3 * w3 + a4 * w4 <= 10.0 * (w1 + w2 + w3 + w4)
  {
    MulBounds(a1, w1);
    MulBounds(a2, w2);
    MulBounds(a3, w3);
    MulBounds(a4, w4);
    SumMonotone(0.0, 0.0, 0.0, 0.0, a1 * w1, a2 * w2, a3 * w3, a4 * w4);
    SumMonotone(a1 * w1, a2 * w2, a3 * w3, a4 * w4, 10.0 * w1, 10.0 * w2, 10.0 * w3, 10.0 * w4);
  }

  // ---------------------------------------------------------------------------
  // Reversal status

  /** The user filter: absent or empty thresholds let everything through. */
  predicate PassesFilter(rsi: real, adxZ: real, thr: Option<Dict<real>>) {
    match thr
    case None => true
    case Some(d) => !Truthy(d) || (rsi < Get(d, "RSI", 40.0) && adxZ < Get(d, "ADX_Z", 0.0))
  }

  /** `determine_reversal_status`: the user filter first, then the BUY_DIV and Watch tiers. */
  function ReversalStatus(rsi: real, adxZ: real, cmf: real, thr: Option<Dict<real>>): (s: Status)
    ensures s == BuyDiv <==> PassesFilter(rsi, adxZ, thr) && Config.Meets(Config.ReversalBuyDiv, rsi, adxZ, cmf)
    ensures s == Watch <==> PassesFilter(rsi, adxZ, thr) && !Config.Meets(Config.ReversalBuyDiv, rsi, adxZ, cmf)
                            && Config.Meets(Config.ReversalWatch, rsi, adxZ, cmf)
  {
    if !PassesFilter(rsi, adxZ, thr) then No
    else if Config.Meets(Config.ReversalBuyDiv, rsi, adxZ, cmf) then BuyDiv
    else if Config.Meets(Config.ReversalWatch, rsi, adxZ, cmf) then Watch
    else No
  }

  /** Every candidate is inside the Watch envelope: RSI < 50, ADX Z < 0.5, CMF > 0. */
  lemma CandidatesWithinWatchTier(rsi: real, adxZ: real, cmf: real, thr: Option<Dict<real>>)
    requires ReversalStatus(rsi, adxZ, cmf, thr) != No
    ensures rsi < 50.0 && adxZ < 0.5 && cmf > 0.0
  {
  }

  /** The user filter can only demote to No; it never changes BUY_DIV into Watch or back. */
  lemma FilterOnlyDemotes(rsi: real, adxZ: real, cmf: real, thr: Option<Dict<real>>)
    ensures ReversalStatus(rsi, adxZ, cmf, thr) == No
         || ReversalStatus(rsi, adxZ, cmf, thr) == ReversalStatus(rsi, adxZ, cmf, None)
  {
  }

  /**
   * The sidebar's default filter (RSI below 40, ADX Z-score below -0.5)
   * coincides with the BUY_DIV thresholds, so it keeps every BUY_DIV and
   * leaves as Watch only the candidates whose CMF lies in (0, 0.1].
   */
  lemma SidebarDefaultsKeepBuyDiv(rsi: real, adxZ: real, cmf: real)
    ensures var thr := Some([("RSI", 40.0), ("ADX_Z", -0.5)]);
            (ReversalStatus(rsi, adxZ, cmf, thr) == BuyDiv <==> Config.Meets(Config.ReversalBuyDiv, rsi, adxZ, cmf))
            && (ReversalStatus(rsi, adxZ, cmf, thr) == Watch <==> rsi < 40.0 && adxZ < -0.5 && 0.0 < cmf <= 0.1)
  {
    var d := [("RSI", 40.0), ("ADX_Z", -0.5)];
    assert Get(d, "RSI", 40.0) == 40.0;
    assert d[1..] == [("ADX_Z", -0.5)];
    assert Get(d, "ADX_Z", 0.0) == -0.5;
  }

  // ---------------------------------------------------------------------------
  // One sector

  /** One row of the results table. */
  datatype EntityResult = EntityResult(
    sector: string, symbol: string, price: real, changePct: real,
    rsi: real, adx: real, adxZ: real, diSpread: real, cmf: real,
    mansfieldRs: real, rsRating: real,
    momentumScore: real, reversalScore: Option<real>, status: Status)

  /**
   * `analyze_sector`: the latest indicator values (50 for an entirely
   * undefined RSI, 0 for the others), the RS rating, the absolute reversal
   * score, the status and the price data, with the momentum score left at 0
   * for the batch to fill in. None when the indicator library raises.
   */
  function AnalyzeSector(name: string, data: PriceSeries, bench: Option<PriceSeries>,
                         rw: Option<Dict<real>>, symbol: Option<string>, thr: Option<Dict<real>>,
                         ind: IndicatorFn): (r: Option<EntityResult>)
    ensures r.None? <==> ind(data, bench).None?
    ensures r.Some? ==> r.value.sector == name && r.value.momentumScore == 0.0
                        && 0.0 <= r.value.rsRating <= 10.0
                        && (r.value.symbol == "N/A" <==> symbol.None? || symbol.value == "" || symbol.value == "N/A")
                        && (r.value.reversalScore.None? <==> Total(rw.GetOr(Config.DefaultReversalWeights)) == 0.0)
  {
    match ind(data, bench)
    case None => None
    case Some(v) =>
      var weights := rw.GetOr(Config.DefaultReversalWeights);
      var rsi := v.rsi.GetOr(50.0);
      var cmf := v.cmf.GetOr(0.0);
      var rs := AnalyzerRsRating(data, bench);
      Some(EntityResult(
        name,
        if symbol.Some? && symbol.value != "" then symbol.value else "N/A",
        LastClose(data), ChangePct(data),
        rsi, v.adx.GetOr(0.0), v.adxZ, v.diSpread.GetOr(0.0), cmf,
        v.mansfieldRs, rs,
        0.0, ReversalScore(rsi, v.adxZ, cmf, rs, weights), ReversalStatus(rsi, v.adxZ, cmf, thr)))
  }

  /** The default reversal weights total 100, so an analyser row always carries a number. */
  lemma DefaultWeightsGiveScore(name: string, data: PriceSeries, bench: Option<PriceSeries>,
                                symbol: Option<string>, thr: Option<Dict<real>>, ind: IndicatorFn)
    requires ind(data, bench).Some?
    ensures AnalyzeSector(name, data, bench, None, symbol, thr, ind).value.reversalScore.Some?
  {
    Config.DefaultWeightsSumTo100();
  }

  // ---------------------------------------------------------------------------
  // The batch

  /** The row `analyze_all_sectors` keeps for one dictionary entry: none for the benchmark or a failed analysis. */
  function SectorEntry(entry: (string, PriceSeries), bench: Option<PriceSeries>, rw: Option<Dict<real>>,
                       symbols: Option<Dict<string>>, thr: Option<Dict<real>>, ind: IndicatorFn): (rs: seq<EntityResult>)
    ensures |rs| <= 1
    ensures forall r :: r in rs ==> r.sector == entry.0 && entry.0 != Config.Benchmark
    ensures rs == [] <==> entry.0 == Config.Benchmark || ind(entry.1, bench).None?
  {
    if entry.0 == Config.Benchmark then []
    else
      var symbol := if symbols.Some? && Truthy(symbols.value) then Get(symbols.value, entry.0, "N/A") else "N/A";
      match AnalyzeSector(entry.0, entry.1, bench, rw, Some(symbol), thr, ind)
      case None => []
      case Some(r) => [r]
  }

  /** The rows collected by the loop of `analyze_all_sectors`, in dictionary order. */
  function CollectResults(sectors: seq<(string, PriceSeries)>, bench: Option<PriceSeries>, rw: Option<Dict<real>>,
                          symbols: Option<Dict<string>>, thr: Option<Dict<real>>, ind: IndicatorFn): (rs: seq<EntityResult>)
    ensures |rs| <= |sectors|
    ensures forall r :: r in rs ==> r.sector != Config.Benchmark
    decreases |sectors|
  {
    if |sectors| == 0 then []
    else CollectResults(sectors[..|sectors| - 1], bench, rw, symbols, thr, ind)
         + SectorEntry(sectors[|sectors| - 1], bench, rw, symbols, thr, ind)
  }

  /** No row is collected exactly when every entry is the benchmark or fails to analyse. */
  lemma {:induction false} CollectResultsEmpty(sectors: seq<(string, PriceSeries)>, bench: Option<PriceSeries>,
                                               rw: Option<Dict<real>>, symbols: Option<Dict<string>>,
                                               thr: Option<Dict<real>>, ind: IndicatorFn)
    ensures CollectResults(sectors, bench, rw, symbols, thr, ind) == [] <==>
              forall i :: 0 <= i < |sectors| ==> sectors[i].0 == Config.Benchmark || ind(sectors[i].1, bench).None?
  {
    if |sectors| > 0 {
      var init := sectors[..|sectors| - 1];
      CollectResultsEmpty(init, bench, rw, symbols, thr, ind);
      assert forall i :: 0 <= i < |init| ==> init[i] == sectors[i];
    }
  }

  /** Every row collected names a sector of the input other than the benchmark. */
  lemma {:induction false} CollectResultsFromInput(sectors: seq<(string, PriceSeries)>, bench: Option<PriceSeries>,
                                                   rw: Option<Dict<real>>, symbols: Option<Dict<string>>,
                                                   thr: Option<Dict<real>>, ind: IndicatorFn)
    ensures forall r :: r in CollectResults(sectors, bench, rw, symbols, thr, ind) ==>
              exists i :: 0 <= i < |sectors| && sectors[i].0 == r.sector && r.sector != Config.Benchmark
  {
    if |sectors| > 0 {
      var init := sectors[..|sectors| - 1];
      CollectResultsFromInput(init, bench, rw, symbols, thr, ind);
      forall r | r in CollectResults(sectors, bench, rw, symbols, thr, ind)
        ensures exists i :: 0 <= i < |sectors| && sectors[i].0 == r.sector && r.sector != Config.Benchmark
      {
        if r in CollectResults(init, bench, rw, symbols, thr, ind) {
          var i :| 0 <= i < |init| && init[i].0 == r.sector && r.sector != Config.Benchmark;
          assert sectors[i] == init[i];
        } else {
          assert sectors[|sectors| - 1].0 == r.sector;
        }
      }
    }
  }

  lemma CollectResultsStep(sectors: seq<(string, PriceSeries)>, k: nat, bench: Option<PriceSeries>,
                           rw: Option<Dict<real>>, symbols: Option<Dict<string>>,
                           thr: Option<Dict<real>>, ind: IndicatorFn)
    requires k < |sectors|
    ensures CollectResults(sectors[..k + 1], bench, rw, symbols, thr, ind)
         == CollectResults(sectors[..k], bench, rw, symbols, thr, ind) + SectorEntry(sectors[k], bench, rw, symbols, thr, ind)
  {
    assert sectors[..k + 1][..k] == sectors[..k];
  }

  function MetricsOf(r: EntityResult): Metrics {
    Metrics(r.rsi, r.adxZ, r.cmf, r.rsRating, r.diSpread)
  }

  function Pool(rows: seq<EntityResult>): (p: seq<Metrics>)
    ensures |p| == |rows| && forall i :: 0 <= i < |rows| ==> p[i] == MetricsOf(rows[i])
  {
    seq(|rows|, i requires 0 <= i < |rows| => MetricsOf(rows[i]))
  }

  /** `df[df['Reversal_Status'] != 'No']`: the reversal candidates, in table order. */
  function Eligible(rows: seq<EntityResult>): (e: seq<EntityResult>)
    ensures |e| <= |rows|
    ensures forall r :: r in e ==> r in rows && r.status != No
  {
    if |rows| == 0 then []
    else (if rows[0].status != No then [rows[0]] else []) + Eligible(rows[1..])
  }

  lemma {:induction false} EligibleContains(rows: seq<EntityResult>, i: nat)
    requires i < |rows| && rows[i].status != No
    ensures rows[i] in Eligible(rows)
  {
    if i > 0 {
      EligibleContains(rows[1..], i - 1);
    }
  }

  /**
   * The ranked reversal score of a candidate: weighted ranks renormalised
   * by the total weight when weights are given, the fixed 40/40/10/10
   * otherwise.
   */
  function EligibleReversal(candidates: seq<Metrics>, m: Metrics, rw: Option<Dict<real>>): Option<real> {
    if rw.Some? && Truthy(rw.value) then
      RankedReversal(candidates, m, ReversalWeightsWithDefaults(rw.value), Total(rw.value))
    else Some(FixedRankedReversal(candidates, m))
  }

  /** One row after the batch step: its momentum score, and its reversal score when it is a candidate. */
  function ScoreRow(rows: seq<EntityResult>, i: nat, mw: Option<Dict<real>>, rw: Option<Dict<real>>): EntityResult
    requires i < |rows|
  {
    var r := rows[i];
    var momentum := BatchMomentum(Pool(rows), MetricsOf(r), MomentumWeightsWithDefaults(mw.GetOr(Config.DefaultMomentumWeights)));
    var reversal := if r.status != No then EligibleReversal(Pool(Eligible(rows)), MetricsOf(r), rw) else r.reversalScore;
    r.(momentumScore := momentum, reversalScore := reversal)
  }

  /** The two rows agree on everything the batch step does not write. */
  predicate SameExceptScores(a: EntityResult, b: EntityResult) {
    a.sector == b.sector && a.symbol == b.symbol && a.price == b.price && a.changePct == b.changePct
    && MetricsOf(a) == MetricsOf(b) && a.adx == b.adx && a.mansfieldRs == b.mansfieldRs && a.status == b.status
  }

  /**
   * The batch step of `analyze_all_sectors`: every row gets its rank-based
   * momentum score; the reversal candidates get their rank-based reversal
   * score, ranked among the candidates only; nothing else changes.
   */
  function ScoreBatch(rows: seq<EntityResult>, mw: Option<Dict<real>>, rw: Option<Dict<real>>): (scored: seq<EntityResult>)
    ensures |scored| == |rows|
    ensures forall i :: 0 <= i < |rows| ==> SameExceptScores(scored[i], rows[i])
    ensures forall i :: 0 <= i < |rows| && rows[i].status == No ==> scored[i].reversalScore == rows[i].reversalScore
  {
    seq(|rows|, i requires 0 <= i < |rows| => ScoreRow(rows, i, mw, rw))
  }

  /** Rows that agree on their metrics and statuses have the same candidate pool. */
  lemma {:induction false} SameCandidatePool(a: seq<EntityResult>, b: seq<EntityResult>)
    requires |a| == |b|
    requires forall i :: 0 <= i < |a| ==> MetricsOf(a[i]) == MetricsOf(b[i]) && a[i].status == b[i].status
    ensures Pool(Eligible(a)) == Pool(Eligible(b))
  {
    if |a| > 0 {
      SameCandidatePool(a[1..], b[1..]);
      var ha := if a[0].status != No then [a[0]] else [];
      var hb := if b[0].status != No then [b[0]] else [];
      PoolConcat(ha, Eligible(a[1..]));
      PoolConcat(hb, Eligible(b[1..]));
      assert Pool(ha) == Pool(hb);
    }
  }

  lemma PoolConcat(x: seq<EntityResult>, y: seq<EntityResult>)
    ensures Pool(x + y) == Pool(x) + Pool(y)
  {
    assert |Pool(x + y)| == |Pool(x) + Pool(y)|;
    forall i | 0 <= i < |x + y| ensures Pool(x + y)[i] == (Pool(x) + Pool(y))[i] {
      if i < |x| {
        assert (x + y)[i] == x[i];
      } else {
        assert (x + y)[i] == y[i - |x|];
      }
    }
  }

  /** Scoring a scored batch again changes nothing: the scores depend only on metrics and statuses. */
  lemma ScoreBatchIdempotent(rows: seq<EntityResult>, mw: Option<Dict<real>>, rw: Option<Dict<real>>)
    ensures ScoreBatch(ScoreBatch(rows, mw, rw), mw, rw) == ScoreBatch(rows, mw, rw)
  {
    var s := ScoreBatch(rows, mw, rw);
    assert forall i :: 0 <= i < |rows| ==> MetricsOf(s[i]) == MetricsOf(rows[i]) && s[i].status == rows[i].status;
    assert Pool(s) == Pool(rows);
    SameCandidatePool(s, rows);
    var t := ScoreBatch(s, mw, rw);
    forall i | 0 <= i < |rows| ensures t[i] == s[i] {
      assert t[i] == ScoreRow(s, i, mw, rw) && s[i] == ScoreRow(rows, i, mw, rw);
    }
  }

  /**
   * With non-negative momentum weights, a row's momentum score lies between
   * the weight sum and the row count times it, over 100.
   */
  lemma BatchMomentumBounds(rows: seq<EntityResult>, i: nat, mw: Option<Dict<real>>, rw: Option<Dict<real>>)
    requires i < |rows|
    requires MomentumWeightsWithDefaults(mw.GetOr(Config.DefaultMomentumWeights)).NonNegative()
    ensures var w := MomentumWeightsWithDefaults(mw.GetOr(Config.DefaultMomentumWeights));
            w.Sum() / 100.0 <= ScoreBatch(rows, mw, rw)[i].momentumScore <= Times(|rows|, w.Sum()) / 100.0
  {
    var w := MomentumWeightsWithDefaults(mw.GetOr(Config.DefaultMomentumWeights));
    assert Pool(rows)[i] == MetricsOf(rows[i]);
    MomentumPointsBounds(Pool(rows), MetricsOf(rows[i]), w);
  }

  /**
   * In the batch, a row at least as strong as another on all four momentum
   * columns scores at least as high, strictly when its RS rating is higher
   * and RS carries weight.
   */
  lemma BatchMomentumDominance(rows: seq<EntityResult>, i: nat, j: nat, mw: Option<Dict<real>>, rw: Option<Dict<real>>)
    requires i < |rows| && j < |rows|
    requires MomentumWeightsWithDefaults(mw.GetOr(Config.DefaultMomentumWeights)).NonNegative()
    requires rows[i].adxZ >= rows[j].adxZ && rows[i].rsRating >= rows[j].rsRating
    requires rows[i].rsi >= rows[j].rsi && rows[i].diSpread >= rows[j].diSpread
    ensures ScoreBatch(rows, mw, rw)[j].momentumScore <= ScoreBatch(rows, mw, rw)[i].momentumScore
    ensures rows[i].rsRating > rows[j].rsRating && MomentumWeightsWithDefaults(mw.GetOr(Config.DefaultMomentumWeights)).rsRating > 0.0
            ==> ScoreBatch(rows, mw, rw)[j].momentumScore < ScoreBatch(rows, mw, rw)[i].momentumScore
  {
    var w := MomentumWeightsWithDefaults(mw.GetOr(Config.DefaultMomentumWeights));
    assert Pool(rows)[j] == MetricsOf(rows[j]);
    MomentumDominance(Pool(rows), MetricsOf(rows[i]), MetricsOf(rows[j]), w);
  }

  /**
   * A reversal candidate's ranked score lies between 100 and 100 times the
   * number of candidates, whichever branch computes it, for weights that
   * are non-negative and make up the whole dictionary.
   */
  lemma BatchReversalBounds(rows: seq<EntityResult>, i: nat, mw: Option<Dict<real>>, rw: Option<Dict<real>>)
    requires i < |rows| && rows[i].status != No
    requires rw.Some? && Truthy(rw.value) ==>
               ReversalWeightsWithDefaults(rw.value).NonNegative()
               && Total(rw.value) == ReversalWeightsWithDefaults(rw.value).Sum() && Total(rw.value) > 0.0
    ensures ScoreBatch(rows, mw, rw)[i].reversalScore.Some?
    ensures 100.0 <= ScoreBatch(rows, mw, rw)[i].reversalScore.value <= 100.0 * |Eligible(rows)| as real
  {
    var cands := Pool(Eligible(rows));
    var m := MetricsOf(rows[i]);
    EligibleContains(rows, i);
    var k :| 0 <= k < |Eligible(rows)| && Eligible(rows)[k] == rows[i];
    assert cands[k] == m;
    assert ScoreBatch(rows, mw, rw)[i].reversalScore == EligibleReversal(cands, m, rw);
    EligibleReversalBounds(cands, m, rw);
  }

  /** The candidate's reversal score under either branch, for a candidate in the pool. */
  lemma EligibleReversalBounds(cands: seq<Metrics>, m: Metrics, rw: Option<Dict<real>>)
    requires m in cands
    requires rw.Some? && Truthy(rw.value) ==>
               ReversalWeightsWithDefaults(rw.value).NonNegative()
               && Total(rw.value) == ReversalWeightsWithDefaults(rw.value).Sum() && Total(rw.value) > 0.0
    ensures EligibleReversal(cands, m, rw).Some?
    ensures 100.0 <= EligibleReversal(cands, m, rw).value <= 100.0 * |cands| as real
  {
    if rw.Some? && Truthy(rw.value) {
      RankedReversalBounds(cands, m, ReversalWeightsWithDefaults(rw.value));
    } else {
      var w := ReversalWeightsWithDefaults(Config.DefaultReversalWeights);
      assert w == ReversalWeights(40.0, 40.0, 10.0, 10.0);
      FixedReversalIsDefault(cands, m);
      RankedReversalBounds(cands, m, w);
    }
  }

  /** The loop body of `analyze_all_sectors`: the row one dictionary entry contributes, if any. */
  method AnalyzeEntry(entry: (string, PriceSeries), bench: Option<PriceSeries>, rw: Option<Dict<real>>,
                      symbols: Option<Dict<string>>, thr: Option<Dict<real>>, ind: IndicatorFn)
    returns (kept: seq<EntityResult>)
    ensures kept == SectorEntry(entry, bench, rw, symbols, thr, ind)
  {
    var (name, data) := entry;
    kept := [];
    if name != Config.Benchmark {
      var symbol := if symbols.Some? && Truthy(symbols.value) then Get(symbols.value, name, "N/A") else "N/A";
      var result := AnalyzeSector(name, data, bench, rw, Some(symbol), thr, ind);
      if result.Some? {
        kept := [result.value];
      }
    }
  }

  /**
   * `analyze_all_sectors`: analyse every entry but the benchmark, drop the
   * failures, and score the batch; None when no row survives.
   */
  method AnalyzeAllSectors(sectors: seq<(string, PriceSeries)>, bench: Option<PriceSeries>,
                           mw: Option<Dict<real>>, rw: Option<Dict<real>>, symbols: Option<Dict<string>>,
                           thr: Option<Dict<real>>, ind: IndicatorFn)
    returns (table: Option<seq<EntityResult>>)
    ensures table.None? <==> forall i :: 0 <= i < |sectors| ==> sectors[i].0 == Config.Benchmark || ind(sectors[i].1, bench).None?
    ensures table.Some? ==> table.value == ScoreBatch(CollectResults(sectors, bench, rw, symbols, thr, ind), mw, rw)
    ensures table.Some? ==> forall r :: r in table.value ==> r.sector != Config.Benchmark
  {
    var results: seq<EntityResult> := [];
    for k := 0 to |sectors|
      invariant results == CollectResults(sectors[..k], bench, rw, symbols, thr, ind)
    {
      CollectResultsStep(sectors, k, bench, rw, symbols, thr, ind);
      var kept := AnalyzeEntry(sectors[k], bench, rw, symbols, thr, ind);
      results := results + kept;
    }
    assert sectors[..|sectors|] == sectors;
    CollectResultsEmpty(sectors, bench, rw, symbols, thr, ind);
    if results == [] {
      return None;
    }
    var scored := ScoreBatch(results, mw, rw);
    forall r | r in scored ensures r.sector != Config.Benchmark {
      var j :| 0 <= j < |scored| && scored[j] == r;
      assert SameExceptScores(scored[j], results[j]) && results[j] in results;
    }
    return Some(scored);
  }
}
