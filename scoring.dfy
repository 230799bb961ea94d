/**
 * Rank-based composite scores. Each entity of a pool is ranked on four
 * indicator columns and its score is the weighted sum of its ranks, either
 * over 100 (the batch momentum score), over the total weight times 100 (the
 * renormalised scores of the replayers and of the reversal ranking) or with
 * fixed coefficients.
 */
module Scoring {
  import opened Wrappers
  import opened Dicts
  import opened Ranking
  import Config

  /** The indicator values an entity is ranked on. */
  datatype Metrics = Metrics(rsi: real, adxZ: real, cmf: real, rsRating: real, diSpread: real)

  function Rsis(pool: seq<Metrics>): (c: seq<real>)
    ensures |c| == |pool| && forall i :: 0 <= i < |pool| ==> c[i] == pool[i].rsi
  {
    seq(|pool|, i requires 0 <= i < |pool| => pool[i].rsi)
  }

  function AdxZs(pool: seq<Metrics>): (c: seq<real>)
    ensures |c| == |pool| && forall i :: 0 <= i < |pool| ==> c[i] == pool[i].adxZ
  {
    seq(|pool|, i requires 0 <= i < |pool| => pool[i].adxZ)
  }

  function Cmfs(pool: seq<Metrics>): (c: seq<real>)
    ensures |c| == |pool| && forall i :: 0 <= i < |pool| ==> c[i] == pool[i].cmf
  {
    seq(|pool|, i requires 0 <= i < |pool| => pool[i].cmf)
  }

  function RsRatings(pool: seq<Metrics>): (c: seq<real>)
    ensures |c| == |pool| && forall i :: 0 <= i < |pool| ==> c[i] == pool[i].rsRating
  {
    seq(|pool|, i requires 0 <= i < |pool| => pool[i].rsRating)
  }

  function DiSpreads(pool: seq<Metrics>): (c: seq<real>)
    ensures |c| == |pool| && forall i :: 0 <= i < |pool| ==> c[i] == pool[i].diSpread
  {
    seq(|pool|, i requires 0 <= i < |pool| => pool[i].diSpread)
  }

  /** A member of the pool contributes its values to every column. */
  lemma InColumns(pool: seq<Metrics>, m: Metrics)
    requires m in pool
    ensures m.rsi in Rsis(pool) && m.adxZ in AdxZs(pool) && m.cmf in Cmfs(pool)
    ensures m.rsRating in RsRatings(pool) && m.diSpread in DiSpreads(pool)
  {
    var i :| 0 <= i < |pool| && pool[i] == m;
    assert Rsis(pool)[i] == m.rsi && AdxZs(pool)[i] == m.adxZ && Cmfs(pool)[i] == m.cmf;
    assert RsRatings(pool)[i] == m.rsRating && DiSpreads(pool)[i] == m.diSpread;
  }

  /** Percentage weights of the momentum score. */
  datatype MomentumWeights = MomentumWeights(adxZ: real, rsRating: real, rsi: real, diSpread: real) {
    function Sum(): real { adxZ + rsRating + rsi + diSpread }
    predicate NonNegative() { adxZ >= 0.0 && rsRating >= 0.0 && rsi >= 0.0 && diSpread >= 0.0 }
  }

  /** Percentage weights of the reversal score. */
  datatype ReversalWeights = ReversalWeights(rsRating: real, cmf: real, rsi: real, adxZ: real) {
    function Sum(): real { rsRating + cmf + rsi + adxZ }
    predicate NonNegative() { rsRating >= 0.0 && cmf >= 0.0 && rsi >= 0.0 && adxZ >= 0.0 }
  }

  /** The four momentum weights read from a dictionary with `.get` and the built-in fallbacks. */
  function MomentumWeightsOf(d: Dict<real>, adxZ: real, rsRating: real, rsi: real, diSpread: real): MomentumWeights {
    MomentumWeights(Get(d, "ADX_Z", adxZ), Get(d, "RS_Rating", rsRating), Get(d, "RSI", rsi), Get(d, "DI_Spread", diSpread))
  }

  /** The four reversal weights read from a dictionary with `.get` and the built-in fallbacks. */
  function ReversalWeightsOf(d: Dict<real>, rsRating: real, cmf: real, rsi: real, adxZ: real): ReversalWeights {
    ReversalWeights(Get(d, "RS_Rating", rsRating), Get(d, "CMF", cmf), Get(d, "RSI", rsi), Get(d, "ADX_Z", adxZ))
  }

  /** The fallbacks every momentum scorer uses: 20 / 40 / 30 / 10. */
  function MomentumWeightsWithDefaults(d: Dict<real>): MomentumWeights {
    MomentumWeightsOf(d, 20.0, 40.0, 30.0, 10.0)
  }

  /** The fallbacks every reversal scorer uses: 40 / 40 / 10 / 10. */
  function ReversalWeightsWithDefaults(d: Dict<real>): ReversalWeights {
    ReversalWeightsOf(d, 40.0, 40.0, 10.0, 10.0)
  }

  /**
   * A rank times a weight, spelt as repeated addition so that sums of
   * weighted ranks stay linear for the solver; `TimesIsProduct` shows it is
   * the product.
   */
  function Times(r: nat, w: real): real {
    if r == 0 then 0.0 else Times(r - 1, w) + w
  }

  /** The weighted sum of four ranks. */
  function Weigh(r1: nat, r2: nat, r3: nat, r4: nat, w1: real, w2: real, w3: real, w4: real): real {
    Times(r1, w1) + Times(r2, w2) + Times(r3, w3) + Times(r4, w4)
  }

  /** Weighted sum of the ascending ranks: the highest value in a column earns the most. */
  function MomentumPoints(pool: seq<Metrics>, m: Metrics, w: MomentumWeights): real {
    Weigh(RankAsc(AdxZs(pool), m.adxZ), RankAsc(RsRatings(pool), m.rsRating),
          RankAsc(Rsis(pool), m.rsi), RankAsc(DiSpreads(pool), m.diSpread),
          w.adxZ, w.rsRating, w.rsi, w.diSpread)
  }

  /** The batch momentum score: ranks times percentage weights over 100. */
  function BatchMomentum(pool: seq<Metrics>, m: Metrics, w: MomentumWeights): real {
    MomentumPoints(pool, m, w) / 100.0
  }

  /** The sector-trend momentum score with its fixed coefficients. */
  function FixedMomentum(pool: seq<Metrics>, m: Metrics): real {
    RankAsc(AdxZs(pool), m.adxZ) as real * 0.20
    + RankAsc(RsRatings(pool), m.rsRating) as real * 0.40
    + RankAsc(Rsis(pool), m.rsi) as real * 0.30
    + RankAsc(DiSpreads(pool), m.diSpread) as real * 0.10
  }

  /**
   * The replayed momentum score: each rank times its weight over the total
   * weight, times 100. None stands for the not-a-number a zero total gives.
   */
  function RenormalisedMomentum(pool: seq<Metrics>, m: Metrics, w: MomentumWeights, total: real): (s: Option<real>)
    ensures s.None? <==> total == 0.0
  {
    if total == 0.0 then None else Some(MomentumPoints(pool, m, w) / total * 100.0)
  }

  /**
   * Reversal rank points as the source ranks them: RS rating, RSI and ADX
   * Z-score ascending, CMF descending.
   */
  function AsWrittenReversalPoints(pool: seq<Metrics>, m: Metrics, w: ReversalWeights): real {
    Weigh(RankAsc(RsRatings(pool), m.rsRating), RankDesc(Cmfs(pool), m.cmf),
          RankAsc(Rsis(pool), m.rsi), RankAsc(AdxZs(pool), m.adxZ),
          w.rsRating, w.cmf, w.rsi, w.adxZ)
  }

  /**
   * Reversal rank points as intended: the lowest RS rating, RSI and ADX
   * Z-score and the highest CMF earn the most.
   */
  function ReversalPoints(pool: seq<Metrics>, m: Metrics, w: ReversalWeights): real {
    Weigh(RankDesc(RsRatings(pool), m.rsRating), RankAsc(Cmfs(pool), m.cmf),
          RankDesc(Rsis(pool), m.rsi), RankDesc(AdxZs(pool), m.adxZ),
          w.rsRating, w.cmf, w.rsi, w.adxZ)
  }

  function AsWrittenRankedReversal(pool: seq<Metrics>, m: Metrics, w: ReversalWeights, total: real): (s: Option<real>)
    ensures s.None? <==> total == 0.0
  {
    if total == 0.0 then None else Some(AsWrittenReversalPoints(pool, m, w) / total * 100.0)
  }

  /** The reversal ranking score: rank points over the total weight, times 100. */
  function RankedReversal(pool: seq<Metrics>, m: Metrics, w: ReversalWeights, total: real): (s: Option<real>)
    ensures s.None? <==> total == 0.0
  {
    if total == 0.0 then None else Some(ReversalPoints(pool, m, w) / total * 100.0)
  }

  /** The reversal ranking score with the fixed coefficients used when no weights are given. */
  function FixedRankedReversal(pool: seq<Metrics>, m: Metrics): real {
    RankDesc(RsRatings(pool), m.rsRating) as real * (0.40 * 100.0)
    + RankAsc(Cmfs(pool), m.cmf) as real * (0.40 * 100.0)
    + RankDesc(Rsis(pool), m.rsi) as real * (0.10 * 100.0)
    + RankDesc(AdxZs(pool), m.adxZ) as real * (0.10 * 100.0)
  }

  // ---------------------------------------------------------------------------
  // Properties

  lemma {:induction false} TimesIsProduct(r: nat, w: real)
    ensures Times(r, w) == r as real * w
  {
    if r > 0 {
      TimesIsProduct(r - 1, w);
    }
  }

  lemma {:induction false} TimesMonotone(r: nat, s: nat, w: real)
    requires r <= s && w >= 0.0
    ensures Times(r, w) <= Times(s, w)
    ensures r < s && w > 0.0 ==> Times(r, w) < Times(s, w)
  {
    if r < s {
      TimesMonotone(r, s - 1, w);
    }
  }

  lemma TimesScale(r: nat, w: real, c: real)
    ensures Times(r, c * w) == c * Times(r, w)
  {
    TimesIsProduct(r, c * w);
    TimesIsProduct(r, w);
    assert r as real * (c * w) == c * (r as real * w);
  }

  lemma {:induction false} TimesAdd(r: nat, a: real, b: real)
    ensures Times(r, a + b) == Times(r, a) + Times(r, b)
  {
    if r > 0 {
      TimesAdd(r - 1, a, b);
    }
  }

  lemma WeighBounds(r1: nat, r2: nat, r3: nat, r4: nat, n: nat, w1: real, w2: real, w3: real, w4: real)
    requires 1 <= r1 <= n && 1 <= r2 <= n && 1 <= r3 <= n && 1 <= r4 <= n
    requires w1 >= 0.0 && w2 >= 0.0 && w3 >= 0.0 && w4 >= 0.0
    ensures w1 + w2 + w3 + w4 <= Weigh(r1, r2, r3, r4, w1, w2, w3, w4) <= Times(n, w1 + w2 + w3 + w4)
  {
    TimesMonotone(1, r1, w1);
    TimesMonotone(r1, n, w1);
    TimesMonotone(1, r2, w2);
    TimesMonotone(r2, n, w2);
    TimesMonotone(1, r3, w3);
    TimesMonotone(r3, n, w3);
    TimesMonotone(1, r4, w4);
    TimesMonotone(r4, n, w4);
    TimesAdd(n, w1, w2);
    TimesAdd(n, w1 + w2, w3);
    TimesAdd(n, w1 + w2 + w3, w4);
  }

  lemma WeighMonotone(r1: nat, r2: nat, r3: nat, r4: nat, s1: nat, s2: nat, s3: nat, s4: nat,
                      w1: real, w2: real, w3: real, w4: real)
    requires r1 <= s1 && r2 <= s2 && r3 <= s3 && r4 <= s4
    requires w1 >= 0.0 && w2 >= 0.0 && w3 >= 0.0 && w4 >= 0.0
    ensures Weigh(r1, r2, r3, r4, w1, w2, w3, w4) <= Weigh(s1, s2, s3, s4, w1, w2, w3, w4)
    ensures (r1 < s1 && w1 > 0.0) || (r2 < s2 && w2 > 0.0) || (r3 < s3 && w3 > 0.0) || (r4 < s4 && w4 > 0.0) ==>
              Weigh(r1, r2, r3, r4, w1, w2, w3, w4) < Weigh(s1, s2, s3, s4, w1, w2, w3, w4)
  {
    TimesMonotone(r1, s1, w1);
    TimesMonotone(r2, s2, w2);
    TimesMonotone(r3, s3, w3);
    TimesMonotone(r4, s4, w4);
  }

  lemma TimesOne(w: real)
    ensures Times(1, w) == w
  {
  }

  lemma TimesTwo(w: real)
    ensures Times(2, w) == w + w
  {
    assert Times(2, w) == Times(1, w) + w;
    TimesOne(w);
  }

  lemma WeighScale(r1: nat, r2: nat, r3: nat, r4: nat, w1: real, w2: real, w3: real, w4: real, c: real)
    ensures Weigh(r1, r2, r3, r4, c * w1, c * w2, c * w3, c * w4) == c * Weigh(r1, r2, r3, r4, w1, w2, w3, w4)
  {
    TimesScale(r1, w1, c);
    TimesScale(r2, w2, c);
    TimesScale(r3, w3, c);
    TimesScale(r4, w4, c);
  }

  /** Renormalising points `p` by total `t` turns the bounds `t <= p <= n t` into `100 <= . <= 100 n`. */
  lemma RenormaliseBounds(p: real, t: real, n: nat)
    requires t > 0.0 && t <= p <= Times(n, t)
    ensures 100.0 <= p / t * 100.0 <= 100.0 * n as real
  {
    TimesIsProduct(n, t);
    assert p / t >= 1.0;
    assert p / t <= n as real;
  }

  /**
   * With non-negative weights, a member of the pool earns between the sum
   * of the weights (rank 1 everywhere) and the pool size times that sum.
   */
  lemma MomentumPointsBounds(pool: seq<Metrics>, m: Metrics, w: MomentumWeights)
    requires m in pool && w.NonNegative()
    ensures w.Sum() <= MomentumPoints(pool, m, w) <= Times(|pool|, w.Sum())
  {
    InColumns(pool, m);
    RankBounds(AdxZs(pool), m.adxZ);
    RankBounds(RsRatings(pool), m.rsRating);
    RankBounds(Rsis(pool), m.rsi);
    RankBounds(DiSpreads(pool), m.diSpread);
    WeighBounds(RankAsc(AdxZs(pool), m.adxZ), RankAsc(RsRatings(pool), m.rsRating),
                RankAsc(Rsis(pool), m.rsi), RankAsc(DiSpreads(pool), m.diSpread), |pool|,
                w.adxZ, w.rsRating, w.rsi, w.diSpread);
  }

  /** The renormalised momentum score of a pool member lies in [100, 100 * |pool|]. */
  lemma RenormalisedMomentumBounds(pool: seq<Metrics>, m: Metrics, w: MomentumWeights)
    requires m in pool && w.NonNegative() && w.Sum() > 0.0
    ensures RenormalisedMomentum(pool, m, w, w.Sum()).Some?
    ensures 100.0 <= RenormalisedMomentum(pool, m, w, w.Sum()).value <= 100.0 * |pool| as real
  {
    MomentumPointsBounds(pool, m, w);
    RenormaliseBounds(MomentumPoints(pool, m, w), w.Sum(), |pool|);
  }

  /**
   * An entity at least as strong as another on all four momentum columns
   * scores at least as high; strictly higher when its RS rating is strictly
   * higher and RS carries weight.
   */
  lemma MomentumDominance(pool: seq<Metrics>, a: Metrics, b: Metrics, w: MomentumWeights)
    requires b in pool && w.NonNegative()
    requires a.adxZ >= b.adxZ && a.rsRating >= b.rsRating && a.rsi >= b.rsi && a.diSpread >= b.diSpread
    ensures MomentumPoints(pool, b, w) <= MomentumPoints(pool, a, w)
    ensures a.rsRating > b.rsRating && w.rsRating > 0.0 ==>
              MomentumPoints(pool, b, w) < MomentumPoints(pool, a, w)
  {
    InColumns(pool, b);
    RankMonotone(AdxZs(pool), b.adxZ, a.adxZ);
    RankMonotone(RsRatings(pool), b.rsRating, a.rsRating);
    RankMonotone(Rsis(pool), b.rsi, a.rsi);
    RankMonotone(DiSpreads(pool), b.diSpread, a.diSpread);
    WeighMonotone(RankAsc(AdxZs(pool), b.adxZ), RankAsc(RsRatings(pool), b.rsRating),
                  RankAsc(Rsis(pool), b.rsi), RankAsc(DiSpreads(pool), b.diSpread),
                  RankAsc(AdxZs(pool), a.adxZ), RankAsc(RsRatings(pool), a.rsRating),
                  RankAsc(Rsis(pool), a.rsi), RankAsc(DiSpreads(pool), a.diSpread),
                  w.adxZ, w.rsRating, w.rsi, w.diSpread);
  }

  /** The trend's fixed coefficients are the default weights of the batch score. */
  lemma FixedMomentumIsDefault(pool: seq<Metrics>, m: Metrics)
    ensures FixedMomentum(pool, m) == BatchMomentum(pool, m, MomentumWeightsWithDefaults(Config.DefaultMomentumWeights))
  {
    var w := MomentumWeightsWithDefaults(Config.DefaultMomentumWeights);
    assert w == MomentumWeights(20.0, 40.0, 30.0, 10.0);
    TimesIsProduct(RankAsc(AdxZs(pool), m.adxZ), 20.0);
    TimesIsProduct(RankAsc(RsRatings(pool), m.rsRating), 40.0);
    TimesIsProduct(RankAsc(Rsis(pool), m.rsi), 30.0);
    TimesIsProduct(RankAsc(DiSpreads(pool), m.diSpread), 10.0);
  }

  /**
   * Weights totalling 100 make the replayed score 100 times the batch
   * score: the replayers report on a scale one hundred times larger.
   */
  lemma RenormalisedAtHundred(pool: seq<Metrics>, m: Metrics, w: MomentumWeights)
    ensures RenormalisedMomentum(pool, m, w, 100.0) == Some(100.0 * BatchMomentum(pool, m, w))
  {
  }

  lemma CancelFactor(ps: real, ts: real, p: real, t: real, c: real)
    requires ps == c * p && ts == c * t && c > 0.0
    ensures ts == 0.0 <==> t == 0.0
    ensures t != 0.0 ==> ps / ts * 100.0 == p / t * 100.0
  {
    if t != 0.0 {
      assert c * p / (c * t) == p / t;
    }
  }

  /** The four weight keys a scorer reads all appear in the dictionary. */
  ghost predicate HasMomentumKeys(d: Dict<real>) {
    HasKey(d, "ADX_Z") && HasKey(d, "RS_Rating") && HasKey(d, "RSI") && HasKey(d, "DI_Spread")
  }

  ghost predicate HasReversalKeys(d: Dict<real>) {
    HasKey(d, "RS_Rating") && HasKey(d, "CMF") && HasKey(d, "RSI") && HasKey(d, "ADX_Z")
  }

  /** Weights read from a dictionary scaled by `c` are the weights read from it, scaled. */
  lemma MomentumWeightsOfScale(d: Dict<real>, c: real)
    requires HasMomentumKeys(d)
    ensures ScaledMomentumWeights(MomentumWeightsWithDefaults(Scale(d, c)), MomentumWeightsWithDefaults(d), c)
  {
    GetOfScale(d, c, "ADX_Z", 20.0);
    GetOfScale(d, c, "RS_Rating", 40.0);
    GetOfScale(d, c, "RSI", 30.0);
    GetOfScale(d, c, "DI_Spread", 10.0);
  }

  /** `ws` is `w` with every weight multiplied by `c`. */
  predicate ScaledMomentumWeights(ws: MomentumWeights, w: MomentumWeights, c: real) {
    ws.adxZ == c * w.adxZ && ws.rsRating == c * w.rsRating && ws.rsi == c * w.rsi && ws.diSpread == c * w.diSpread
  }

  lemma MomentumPointsScale(pool: seq<Metrics>, m: Metrics, w: MomentumWeights, ws: MomentumWeights, c: real)
    requires ScaledMomentumWeights(ws, w, c)
    ensures MomentumPoints(pool, m, ws) == c * MomentumPoints(pool, m, w)
  {
    WeighScale(RankAsc(AdxZs(pool), m.adxZ), RankAsc(RsRatings(pool), m.rsRating),
               RankAsc(Rsis(pool), m.rsi), RankAsc(DiSpreads(pool), m.diSpread),
               w.adxZ, w.rsRating, w.rsi, w.diSpread, c);
  }


  lemma RenormalisedMomentumRatio(pool: seq<Metrics>, m: Metrics, w: MomentumWeights, ws: MomentumWeights, t: real, ts: real, c: real)
    requires MomentumPoints(pool, m, ws) == c * MomentumPoints(pool, m, w) && ts == c * t && c > 0.0
    ensures RenormalisedMomentum(pool, m, ws, ts) == RenormalisedMomentum(pool, m, w, t)
  {
    CancelFactor(MomentumPoints(pool, m, ws), ts, MomentumPoints(pool, m, w), t, c);
  }

  /**
   * Renormalising makes the replayed momentum score independent of the
   * weights' scale: multiplying every weight by a positive factor changes
   * nothing, so weights need not sum to 100.
   */
  lemma RenormalisedMomentumScaleInvariant(pool: seq<Metrics>, m: Metrics, d: Dict<real>, c: real)
    requires HasMomentumKeys(d) && c > 0.0
    ensures RenormalisedMomentum(pool, m, MomentumWeightsWithDefaults(Scale(d, c)), Total(Scale(d, c)))
         == RenormalisedMomentum(pool, m, MomentumWeightsWithDefaults(d), Total(d))
  {
    TotalOfScale(d, c);
    MomentumWeightsOfScale(d, c);
    var w := MomentumWeightsWithDefaults(d);
    MomentumPointsScale(pool, m, w, MomentumWeightsWithDefaults(Scale(d, c)), c);
    RenormalisedMomentumRatio(pool, m, w, MomentumWeightsWithDefaults(Scale(d, c)), Total(d), Total(Scale(d, c)), c);
  }

  /** With non-negative weights, a candidate earns between the weight sum and the pool size times it. */
  lemma ReversalPointsBounds(pool: seq<Metrics>, m: Metrics, w: ReversalWeights)
    requires m in pool && w.NonNegative()
    ensures w.Sum() <= ReversalPoints(pool, m, w) <= Times(|pool|, w.Sum())
  {
    InColumns(pool, m);
    RankBounds(RsRatings(pool), m.rsRating);
    RankBounds(Cmfs(pool), m.cmf);
    RankBounds(Rsis(pool), m.rsi);
    RankBounds(AdxZs(pool), m.adxZ);
    WeighBounds(RankDesc(RsRatings(pool), m.rsRating), RankAsc(Cmfs(pool), m.cmf),
                RankDesc(Rsis(pool), m.rsi), RankDesc(AdxZs(pool), m.adxZ), |pool|,
                w.rsRating, w.cmf, w.rsi, w.adxZ);
  }

  /** The ranked reversal score of an eligible candidate lies in [100, 100 * |pool|]. */
  lemma RankedReversalBounds(pool: seq<Metrics>, m: Metrics, w: ReversalWeights)
    requires m in pool && w.NonNegative() && w.Sum() > 0.0
    ensures RankedReversal(pool, m, w, w.Sum()).Some?
    ensures 100.0 <= RankedReversal(pool, m, w, w.Sum()).value <= 100.0 * |pool| as real
  {
    ReversalPointsBounds(pool, m, w);
    RenormaliseBounds(ReversalPoints(pool, m, w), w.Sum(), |pool|);
  }

  /** `a` looks at least as much like a reversal candidate as `b` on every ranked column. */
  predicate MoreOversold(a: Metrics, b: Metrics) {
    a.rsRating <= b.rsRating && a.rsi <= b.rsi && a.adxZ <= b.adxZ && a.cmf >= b.cmf
  }

  /**
   * The intended ordering: a candidate that is lower on RS rating, RSI and
   * ADX Z-score and higher on CMF than another scores at least as high;
   * strictly higher when its RS rating is strictly lower and RS carries weight.
   */
  lemma ReversalDominance(pool: seq<Metrics>, a: Metrics, b: Metrics, w: ReversalWeights)
    requires b in pool && w.NonNegative() && MoreOversold(a, b)
    ensures ReversalPoints(pool, b, w) <= ReversalPoints(pool, a, w)
    ensures a.rsRating < b.rsRating && w.rsRating > 0.0 ==> ReversalPoints(pool, b, w) < ReversalPoints(pool, a, w)
  {
    InColumns(pool, b);
    RankMonotone(RsRatings(pool), a.rsRating, b.rsRating);
    RankMonotone(Cmfs(pool), b.cmf, a.cmf);
    RankMonotone(Rsis(pool), a.rsi, b.rsi);
    RankMonotone(AdxZs(pool), a.adxZ, b.adxZ);
    WeighMonotone(RankDesc(RsRatings(pool), b.rsRating), RankAsc(Cmfs(pool), b.cmf),
                  RankDesc(Rsis(pool), b.rsi), RankDesc(AdxZs(pool), b.adxZ),
                  RankDesc(RsRatings(pool), a.rsRating), RankAsc(Cmfs(pool), a.cmf),
                  RankDesc(Rsis(pool), a.rsi), RankDesc(AdxZs(pool), a.adxZ),
                  w.rsRating, w.cmf, w.rsi, w.adxZ);
  }

  /** The fixed reversal coefficients are the default weights renormalised by their total of 100. */
  lemma FixedReversalIsDefault(pool: seq<Metrics>, m: Metrics)
    ensures RankedReversal(pool, m, ReversalWeightsWithDefaults(Config.DefaultReversalWeights), 100.0)
         == Some(FixedRankedReversal(pool, m))
  {
    var w := ReversalWeightsWithDefaults(Config.DefaultReversalWeights);
    assert w == ReversalWeights(40.0, 40.0, 10.0, 10.0);
    TimesIsProduct(RankDesc(RsRatings(pool), m.rsRating), 40.0);
    TimesIsProduct(RankAsc(Cmfs(pool), m.cmf), 40.0);
    TimesIsProduct(RankDesc(Rsis(pool), m.rsi), 10.0);
    TimesIsProduct(RankDesc(AdxZs(pool), m.adxZ), 10.0);
  }

  lemma ReversalWeightsOfScale(d: Dict<real>, c: real)
    requires HasReversalKeys(d)
    ensures ScaledReversalWeights(ReversalWeightsWithDefaults(Scale(d, c)), ReversalWeightsWithDefaults(d), c)
  {
    GetOfScale(d, c, "RS_Rating", 40.0);
    GetOfScale(d, c, "CMF", 40.0);
    GetOfScale(d, c, "RSI", 10.0);
    GetOfScale(d, c, "ADX_Z", 10.0);
  }

  /** `ws` is `w` with every weight multiplied by `c`. */
  predicate ScaledReversalWeights(ws: ReversalWeights, w: ReversalWeights, c: real) {
    ws.rsRating == c * w.rsRating && ws.cmf == c * w.cmf && ws.rsi == c * w.rsi && ws.adxZ == c * w.adxZ
  }

  lemma ReversalPointsScale(pool: seq<Metrics>, m: Metrics, w: ReversalWeights, ws: ReversalWeights, c: real)
    requires ScaledReversalWeights(ws, w, c)
    ensures ReversalPoints(pool, m, ws) == c * ReversalPoints(pool, m, w)
  {
    WeighScale(RankDesc(RsRatings(pool), m.rsRating), RankAsc(Cmfs(pool), m.cmf),
               RankDesc(Rsis(pool), m.rsi), RankDesc(AdxZs(pool), m.adxZ),
               w.rsRating, w.cmf, w.rsi, w.adxZ, c);
  }


  lemma RankedReversalRatio(pool: seq<Metrics>, m: Metrics, w: ReversalWeights, ws: ReversalWeights, t: real, ts: real, c: real)
    requires ReversalPoints(pool, m, ws) == c * ReversalPoints(pool, m, w) && ts == c * t && c > 0.0
    ensures RankedReversal(pool, m, ws, ts) == RankedReversal(pool, m, w, t)
  {
    CancelFactor(ReversalPoints(pool, m, ws), ts, ReversalPoints(pool, m, w), t, c);
  }

  /** Scaling the reversal weights by a positive factor leaves the ranked reversal score unchanged. */
  lemma RankedReversalScaleInvariant(pool: seq<Metrics>, m: Metrics, d: Dict<real>, c: real)
    requires HasReversalKeys(d) && c > 0.0
    ensures RankedReversal(pool, m, ReversalWeightsWithDefaults(Scale(d, c)), Total(Scale(d, c)))
         == RankedReversal(pool, m, ReversalWeightsWithDefaults(d), Total(d))
  {
    TotalOfScale(d, c);
    ReversalWeightsOfScale(d, c);
    var w := ReversalWeightsWithDefaults(d);
    ReversalPointsScale(pool, m, w, ReversalWeightsWithDefaults(Scale(d, c)), c);
    RankedReversalRatio(pool, m, w, ReversalWeightsWithDefaults(Scale(d, c)), Total(d), Total(Scale(d, c)), c);
  }

  /** A sole eligible candidate takes rank 1 everywhere and scores exactly 100. */
  lemma SoleCandidateScoresHundred(m: Metrics, w: ReversalWeights)
    requires w.Sum() != 0.0
    ensures RankedReversal([m], m, w, w.Sum()) == Some(100.0)
  {
    RankSingleton(m.rsRating, m.rsRating);
    RankSingleton(m.cmf, m.cmf);
    RankSingleton(m.rsi, m.rsi);
    RankSingleton(m.adxZ, m.adxZ);
    assert RsRatings([m]) == [m.rsRating] && Cmfs([m]) == [m.cmf];
    assert Rsis([m]) == [m.rsi] && AdxZs([m]) == [m.adxZ];
    TimesOne(w.rsRating);
    TimesOne(w.cmf);
    TimesOne(w.rsi);
    TimesOne(w.adxZ);
    assert ReversalPoints([m], m, w) == w.Sum();
    assert w.Sum() / w.Sum() == 1.0;
  }

  /**
   * The source's directions invert the intended ordering. Of two eligible
   * candidates, `a` is more oversold than `b` on every column, yet the
   * source's ranks give `a` 100 and `b` 200 under the default weights,
   * while the intended ranks give `a` 200 and `b` 100.
   */
  lemma AsWrittenReversalInverted()
    ensures var a := Metrics(25.0, -1.5, 0.3, 2.0, 0.0);
            var b := Metrics(35.0, -0.6, 0.15, 4.0, 0.0);
            var w := ReversalWeights(40.0, 40.0, 10.0, 10.0);
            MoreOversold(a, b)
            && AsWrittenRankedReversal([a, b], a, w, 100.0) == Some(100.0)
            && AsWrittenRankedReversal([a, b], b, w, 100.0) == Some(200.0)
            && RankedReversal([a, b], a, w, 100.0) == Some(200.0)
            && RankedReversal([a, b], b, w, 100.0) == Some(100.0)
  {
    var a := Metrics(25.0, -1.5, 0.3, 2.0, 0.0);
    var b := Metrics(35.0, -0.6, 0.15, 4.0, 0.0);
    var w := ReversalWeights(40.0, 40.0, 10.0, 10.0);
    ExamplePoints(a, b, w);
    TimesOne(40.0);
    TimesOne(10.0);
    TimesTwo(40.0);
    TimesTwo(10.0);
    assert Weigh(1, 1, 1, 1, 40.0, 40.0, 10.0, 10.0) == 100.0;
    assert Weigh(2, 2, 2, 2, 40.0, 40.0, 10.0, 10.0) == 200.0;
  }

  /** Of two candidates, the strictly more oversold one takes every best rank that the source's directions give out. */
  lemma ExamplePoints(a: Metrics, b: Metrics, w: ReversalWeights)
    requires a.rsRating < b.rsRating && a.rsi < b.rsi && a.adxZ < b.adxZ && a.cmf > b.cmf
    ensures AsWrittenReversalPoints([a, b], a, w) == Weigh(1, 1, 1, 1, w.rsRating, w.cmf, w.rsi, w.adxZ)
    ensures AsWrittenReversalPoints([a, b], b, w) == Weigh(2, 2, 2, 2, w.rsRating, w.cmf, w.rsi, w.adxZ)
    ensures ReversalPoints([a, b], a, w) == Weigh(2, 2, 2, 2, w.rsRating, w.cmf, w.rsi, w.adxZ)
    ensures ReversalPoints([a, b], b, w) == Weigh(1, 1, 1, 1, w.rsRating, w.cmf, w.rsi, w.adxZ)
  {
    ExampleRanks(a, b);
  }

  /** The ranks of a two-entity pool where `a` is strictly more oversold than `b` on every column. */
  lemma ExampleRanks(a: Metrics, b: Metrics)
    requires a.rsRating < b.rsRating && a.rsi < b.rsi && a.adxZ < b.adxZ && a.cmf > b.cmf
    ensures RankAsc(RsRatings([a, b]), a.rsRating) == 1 && RankAsc(RsRatings([a, b]), b.rsRating) == 2
    ensures RankDesc(RsRatings([a, b]), a.rsRating) == 2 && RankDesc(RsRatings([a, b]), b.rsRating) == 1
    ensures RankAsc(Rsis([a, b]), a.rsi) == 1 && RankAsc(Rsis([a, b]), b.rsi) == 2
    ensures RankDesc(Rsis([a, b]), a.rsi) == 2 && RankDesc(Rsis([a, b]), b.rsi) == 1
    ensures RankAsc(AdxZs([a, b]), a.adxZ) == 1 && RankAsc(AdxZs([a, b]), b.adxZ) == 2
    ensures RankDesc(AdxZs([a, b]), a.adxZ) == 2 && RankDesc(AdxZs([a, b]), b.adxZ) == 1
    ensures RankAsc(Cmfs([a, b]), a.cmf) == 2 && RankAsc(Cmfs([a, b]), b.cmf) == 1
    ensures RankDesc(Cmfs([a, b]), a.cmf) == 1 && RankDesc(Cmfs([a, b]), b.cmf) == 2
  {
    assert RsRatings([a, b]) == [a.rsRating, b.rsRating];
    assert Rsis([a, b]) == [a.rsi, b.rsi];
    assert AdxZs([a, b]) == [a.adxZ, b.adxZ];
    assert Cmfs([a, b]) == [a.cmf, b.cmf];
    PairRanks(a.rsRating, b.rsRating);
    PairRanks(a.rsi, b.rsi);
    PairRanks(a.adxZ, b.adxZ);
    PairRanks(b.cmf, a.cmf);
  }

  /** In a two-entry column of distinct values the smaller ranks 1 ascending and 2 descending. */
  lemma PairRanks(lo: real, hi: real)
    requires lo < hi
    ensures RankAsc([lo, hi], lo) == 1 && RankAsc([lo, hi], hi) == 2
    ensures RankDesc([lo, hi], lo) == 2 && RankDesc([lo, hi], hi) == 1
    ensures RankAsc([hi, lo], lo) == 1 && RankAsc([hi, lo], hi) == 2
    ensures RankDesc([hi, lo], lo) == 2 && RankDesc([hi, lo], hi) == 1
  {
    CountSingleton(lo, lo);
    CountSingleton(lo, hi);
    CountSingleton(hi, lo);
    CountSingleton(hi, hi);
    assert [lo, hi][1..] == [hi] && [hi, lo][1..] == [lo];
  }

  lemma CountSingleton(v: real, x: real)
    ensures CountBelow([v], x) == (if v < x then 1 else 0)
    ensures CountAbove([v], x) == (if v > x then 1 else 0)
  {
    assert [v][1..] == [];
  }
}
