/**
 * Replaying the ranking at past bars (streamlit_app.py): the peer
 * snapshots every replayer builds, the momentum trend of one sector over
 * the last `periods` bars (8 in the dashboard) and its reversal trend.
 */
module Replay {
  import opened Wrappers
  import opened Periods
  import opened Dicts
  import opened Series
  import opened Ranking
  import opened Scoring
  import Analysis
  import Config

  /** One peer sector as a replayer sees it at one past bar: its full history and its values there. */
  datatype Snapshot = Snapshot(sector: string, history: PriceSeries, metrics: Metrics,
                               adx: real, mansfieldRs: real, price: real)

  /**
   * The RS rating the replayers compute inline: aligned returns, but at
   * least two common timestamps before anything but the neutral 5.
   */
  function InlineRsRating(data: PriceSeries, bench: Option<PriceSeries>): (r: real)
    ensures 0.0 <= r <= 10.0
    ensures bench.None? || |bench.value| == 0 ==> r == 5.0
  {
    if bench.Some? && |bench.value| > 0 then
      var sr := Returns(data);
      var br := Returns(bench.value);
      if CommonCount(sr, br) > 1 then AlignedRating(Restrict(sr, Stamps(br)), Restrict(br, Stamps(sr)))
      else 5.0
    else 5.0
  }

  /** The rating of two aligned return series: neutral when a cumulative return is not a number. */
  function AlignedRating(a: seq<Return>, b: seq<Return>): (r: real)
    ensures 0.0 <= r <= 10.0
  {
    match (CumulativeReturn(a), CumulativeReturn(b))
    case (Some(s), Some(t)) => Analysis.RatingFromPerformance(s - t)
    case _ => 5.0
  }

  lemma LongRelativeStrength(a: seq<Return>, b: seq<Return>)
    requires |a| >= 2 && |b| >= 2
    ensures Analysis.RelativeStrength(a, b) == AlignedRating(a, b)
  {
  }

  /** For chronological series the inline rating is exactly the analyser's rating. */
  lemma InlineRsMatchesAnalyzer(data: PriceSeries, bench: PriceSeries)
    requires Chronological(data) && Chronological(bench)
    ensures InlineRsRating(data, Some(bench)) == Analysis.AnalyzerRsRating(data, Some(bench))
  {
    if |bench| > 0 {
      var sr := Returns(data);
      var br := Returns(bench);
      if CommonCount(sr, br) > 1 {
        ChronologicalReturnsDistinct(data);
        ChronologicalReturnsDistinct(bench);
        AlignedLengths(sr, br);
        var a := Restrict(sr, Stamps(br));
        var b := Restrict(br, Stamps(sr));
        assert Analysis.AnalyzerRsRating(data, Some(bench)) == Analysis.RelativeStrength(a, b);
        LongRelativeStrength(a, b);
      } else {
        Analysis.AnalyzerRsNeedsTwoCommonReturns(data, bench);
      }
    }
  }

  function SnapshotOf(name: string, data: PriceSeries, subset: PriceSeries, benchSubset: Option<PriceSeries>, v: Indicators): Snapshot {
    Snapshot(name, data,
             Metrics(v.rsi.GetOr(50.0), v.adxZ, v.cmf.GetOr(0.0), InlineRsRating(subset, benchSubset), v.diSpread.GetOr(0.0)),
             v.adx.GetOr(0.0), v.mansfieldRs, LastClose(subset))
  }

  /**
   * The benchmark as a replayer sees it `drop` bars back: cut like the
   * sector, and still absent when there is none.
   */
  function BenchSubset(bench: Option<PriceSeries>, drop: nat): (b: Option<PriceSeries>)
    ensures b.None? <==> bench.None?
    ensures b.Some? ==> b.value == DropLast(bench.value, drop)
  {
    if bench.None? then None else Some(DropLast(bench.value, drop))
  }

  /**
   * One step of the replayers' inner loop: the sector `entry`, cut back by
   * `drop` bars, joins the peers unless it is the benchmark or keeps fewer
   * than `minBars` bars. Cutting a missing benchmark back (`drop > 0`)
   * raises before the length test, and so does a failure of the indicator
   * library (None); either abandons the whole period. At the latest bar
   * (`drop == 0`) a missing benchmark is passed on as it is.
   */
  function PeerStep(peers: Option<seq<Snapshot>>, entry: (string, PriceSeries), bench: Option<PriceSeries>,
                    drop: nat, minBars: nat, ind: IndicatorFn): (r: Option<seq<Snapshot>>)
    ensures peers.None? ==> r.None?
    ensures peers.Some? && entry.0 != Config.Benchmark && bench.None? && drop > 0 ==> r.None?
    ensures r.Some? ==> peers.Some? && |peers.value| <= |r.value| <= |peers.value| + 1 && r.value[..|peers.value|] == peers.value
    ensures r.Some? && |r.value| > |peers.value| ==>
              var s := r.value[|peers.value|];
              s.sector == entry.0 && s.history == entry.1 && s.sector != Config.Benchmark && |DropLast(s.history, drop)| >= minBars
  {
    if peers.None? then None
    else if entry.0 == Config.Benchmark then peers
    else if bench.None? && drop > 0 then None
    else
      var subset := DropLast(entry.1, drop);
      if |subset| < minBars then peers
      else
        match ind(subset, BenchSubset(bench, drop))
        case None => None
        case Some(v) => Some(peers.value + [SnapshotOf(entry.0, entry.1, subset, BenchSubset(bench, drop), v)])
  }

  /** The peers gathered from the first k sectors. */
  function PeersUpTo(sectors: seq<(string, PriceSeries)>, k: nat, bench: Option<PriceSeries>, drop: nat, minBars: nat,
                     ind: IndicatorFn): (r: Option<seq<Snapshot>>)
    requires k <= |sectors|
    ensures r.Some? ==> |r.value| <= k
  {
    if k == 0 then Some([])
    else PeerStep(PeersUpTo(sectors, k - 1, bench, drop, minBars, ind), sectors[k - 1], bench, drop, minBars, ind)
  }

  /** The peers of one period: every sector visited, None when the period is abandoned. */
  function PeerSnapshots(sectors: seq<(string, PriceSeries)>, bench: Option<PriceSeries>, drop: nat, minBars: nat,
                         ind: IndicatorFn): (r: Option<seq<Snapshot>>)
    ensures r.Some? ==> |r.value| <= |sectors|
  {
    PeersUpTo(sectors, |sectors|, bench, drop, minBars, ind)
  }

  /** No peer is the benchmark and each keeps at least `minBars` bars once cut back. */
  predicate ValidPeers(peers: seq<Snapshot>, drop: nat, minBars: nat) {
    forall j :: 0 <= j < |peers| ==> peers[j].sector != Config.Benchmark && |DropLast(peers[j].history, drop)| >= minBars
  }

  /**
   * Every peer is one of the input sectors, with its full history, and is
   * neither the benchmark nor short of `minBars` bars once cut back.
   */
  lemma {:induction false} PeersFromInput(sectors: seq<(string, PriceSeries)>, k: nat, bench: Option<PriceSeries>, drop: nat,
                                          minBars: nat, ind: IndicatorFn)
    requires k <= |sectors| && PeersUpTo(sectors, k, bench, drop, minBars, ind).Some?
    ensures ValidPeers(PeersUpTo(sectors, k, bench, drop, minBars, ind).value, drop, minBars)
    ensures forall s :: s in PeersUpTo(sectors, k, bench, drop, minBars, ind).value ==>
              exists j :: 0 <= j < k && sectors[j] == (s.sector, s.history)
  {
    if k > 0 {
      PeersFromInput(sectors, k - 1, bench, drop, minBars, ind);
      var prev := PeersUpTo(sectors, k - 1, bench, drop, minBars, ind).value;
      var now := PeersUpTo(sectors, k, bench, drop, minBars, ind).value;
      assert now[..|prev|] == prev;
      forall j | 0 <= j < |now|
        ensures now[j].sector != Config.Benchmark && |DropLast(now[j].history, drop)| >= minBars
        ensures exists j' :: 0 <= j' < k && sectors[j'] == (now[j].sector, now[j].history)
      {
        if j < |prev| {
          assert now[j] == prev[j] && prev[j] in prev;
        } else {
          assert sectors[k - 1] == (now[j].sector, now[j].history);
        }
      }
    }
  }

  /** The inner loop of every replayer: the peers at one past bar; a failure abandons the rest. */
  method CollectPeers(sectors: seq<(string, PriceSeries)>, bench: Option<PriceSeries>, drop: nat, minBars: nat, ind: IndicatorFn)
    returns (peers: Option<seq<Snapshot>>)
    ensures peers == PeerSnapshots(sectors, bench, drop, minBars, ind)
  {
    peers := Some([]);
    var k := 0;
    while k < |sectors|
      invariant k <= |sectors| && peers == PeersUpTo(sectors, k, bench, drop, minBars, ind)
      invariant peers.None? ==> PeerSnapshots(sectors, bench, drop, minBars, ind).None?
    {
      if peers.None? {
        return;
      }
      peers := VisitSector(sectors, k, peers.value, bench, drop, minBars, ind);
      k := k + 1;
      if peers.None? {
        PeerFailurePropagates(sectors, k, bench, drop, minBars, ind);
      }
    }
  }

  /** The loop body: sector k joins, is passed over, or abandons the period. */
  method VisitSector(sectors: seq<(string, PriceSeries)>, k: nat, acc: seq<Snapshot>, bench: Option<PriceSeries>,
                     drop: nat, minBars: nat, ind: IndicatorFn)
    returns (next: Option<seq<Snapshot>>)
    requires k < |sectors| && PeersUpTo(sectors, k, bench, drop, minBars, ind) == Some(acc)
    ensures next == PeersUpTo(sectors, k + 1, bench, drop, minBars, ind)
  {
    var (name, data) := sectors[k];
    PeersUpToStep(sectors, k, bench, drop, minBars, ind);
    if name == Config.Benchmark {
      return Some(acc);
    }
    if bench.None? && drop > 0 {
      return None;
    }
    var subset := DropLast(data, drop);
    if |subset| < minBars {
      return Some(acc);
    }
    var benchSubset := BenchSubset(bench, drop);
    var v := ind(subset, benchSubset);
    if v.None? {
      return None;
    }
    return Some(acc + [SnapshotOf(name, data, subset, benchSubset, v.value)]);
  }

  /** The three outcomes of visiting sector k, once the first k gave peers. */
  lemma PeersUpToStep(sectors: seq<(string, PriceSeries)>, k: nat, bench: Option<PriceSeries>, drop: nat, minBars: nat,
                      ind: IndicatorFn)
    requires k < |sectors| && PeersUpTo(sectors, k, bench, drop, minBars, ind).Some?
    ensures var acc := PeersUpTo(sectors, k, bench, drop, minBars, ind).value;
            var (name, data) := sectors[k];
            var subset := DropLast(data, drop);
            var bs := BenchSubset(bench, drop);
            var next := PeersUpTo(sectors, k + 1, bench, drop, minBars, ind);
            (name == Config.Benchmark ==> next == Some(acc))
            && (name != Config.Benchmark && bench.None? && drop > 0 ==> next.None?)
            && (name != Config.Benchmark && (bench.Some? || drop == 0) && |subset| < minBars ==> next == Some(acc))
            && (name != Config.Benchmark && (bench.Some? || drop == 0) && |subset| >= minBars ==>
                  var v := ind(subset, bs);
                  (v.None? ==> next.None?)
                  && (v.Some? ==> next == Some(acc + [SnapshotOf(name, data, subset, bs, v.value)])))
  {
  }

  /** A failure part-way through abandons the period whatever follows. */
  lemma {:induction false} PeerFailurePropagates(sectors: seq<(string, PriceSeries)>, k: nat, bench: Option<PriceSeries>,
                                                 drop: nat, minBars: nat, ind: IndicatorFn)
    requires k <= |sectors| && PeersUpTo(sectors, k, bench, drop, minBars, ind).None?
    ensures PeerSnapshots(sectors, bench, drop, minBars, ind).None?
    decreases |sectors| - k
  {
    if k < |sectors| {
      var none := PeersUpTo(sectors, k, bench, drop, minBars, ind);
      assert PeersUpTo(sectors, k + 1, bench, drop, minBars, ind) == PeerStep(none, sectors[k], bench, drop, minBars, ind);
      PeerFailurePropagates(sectors, k + 1, bench, drop, minBars, ind);
    }
  }

  function PoolOf(peers: seq<Snapshot>): (p: seq<Metrics>)
    ensures |p| == |peers| && forall j :: 0 <= j < |peers| ==> p[j] == peers[j].metrics
  {
    seq(|peers|, j requires 0 <= j < |peers| => peers[j].metrics)
  }

  /** `period_df[period_df['Sector'] == sector_name]`, first row: the target among the peers. */
  function FindSector(peers: seq<Snapshot>, name: string): (k: Option<nat>)
    ensures k.None? <==> forall j :: 0 <= j < |peers| ==> peers[j].sector != name
    ensures k.Some? ==> k.value < |peers| && peers[k.value].sector == name
                        && forall j :: 0 <= j < k.value ==> peers[j].sector != name
  {
    if |peers| == 0 then None
    else if peers[0].sector == name then Some(0)
    else
      var k := FindSector(peers[1..], name);
      if k.Some? then Some(k.value + 1) else None
  }

  // ---------------------------------------------------------------------------
  // Momentum trend

  /** One displayed period of the momentum trend: `T-offset`, its bar, values, score and rank. */
  datatype TrendRow = TrendRow(offset: nat, date: int, snapshot: Snapshot, momentumScore: real, rank: nat)

  /** The target's row among the peers of one period: fixed-coefficient momentum and its descending min-rank. */
  function TrendRowFrom(peers: seq<Snapshot>, target: string, date: int, offset: nat): (row: Option<TrendRow>)
    ensures row.None? <==> forall j :: 0 <= j < |peers| ==> peers[j].sector != target
    ensures row.Some? ==> row.value.offset == offset && row.value.date == date && row.value.snapshot.sector == target
  {
    match FindSector(peers, target)
    case None => None
    case Some(k) =>
      var pool := PoolOf(peers);
      var scores := seq(|peers|, j requires 0 <= j < |peers| => FixedMomentum(pool, peers[j].metrics));
      Some(TrendRow(offset, date, peers[k], scores[k], RankDesc(scores, scores[k])))
  }

  /**
   * The trend's momentum score is the batch momentum score under the
   * default weights, ranked among the period's peers: rank 1 exactly for
   * the period's highest score.
   */
  lemma TrendRowMatchesBatch(peers: seq<Snapshot>, target: string, date: int, offset: nat)
    requires TrendRowFrom(peers, target, date, offset).Some?
    ensures var row := TrendRowFrom(peers, target, date, offset).value;
            var pool := PoolOf(peers);
            var scores := seq(|peers|, j requires 0 <= j < |peers| => FixedMomentum(pool, peers[j].metrics));
            row.momentumScore == BatchMomentum(pool, row.snapshot.metrics, MomentumWeights(20.0, 40.0, 30.0, 10.0))
            && 1 <= row.rank <= |peers|
            && (row.rank == 1 <==> forall j :: 0 <= j < |peers| ==> scores[j] <= row.momentumScore)
  {
    var k := FindSector(peers, target).value;
    var pool := PoolOf(peers);
    var scores := seq(|peers|, j requires 0 <= j < |peers| => FixedMomentum(pool, peers[j].metrics));
    FixedMomentumIsDefault(pool, peers[k].metrics);
    assert scores[k] in scores;
    RankBounds(scores, scores[k]);
    RankDescOneIffMaximum(scores, scores[k]);
  }

  /**
   * One period of `calculate_sector_trend`: nothing when the period fails,
   * which without a benchmark every period but the latest does.
   */
  function MomentumTrendPeriod(target: string, date: int, sectors: seq<(string, PriceSeries)>,
                               bench: Option<PriceSeries>, i: nat, ind: IndicatorFn): (row: Option<TrendRow>)
    requires i >= 1
    ensures row.Some? ==> row.value.offset == i - 1 && row.value.date == date && row.value.snapshot.sector == target
  {
    PeriodRow(PeerSnapshots(sectors, bench, i - 1, 14, ind), target, date, i - 1)
  }

  lemma PeriodRowIsPeriod(target: string, date: int, sectors: seq<(string, PriceSeries)>, bench: Option<PriceSeries>,
                          i: nat, ind: IndicatorFn, peers: Option<seq<Snapshot>>)
    requires i >= 1 && peers == PeerSnapshots(sectors, bench, i - 1, 14, ind)
    ensures PeriodRow(peers, target, date, i - 1) == MomentumTrendPeriod(target, date, sectors, bench, i, ind)
  {
  }

  /** A period abandoned by a failure yields no row. */
  function PeriodRow(peers: Option<seq<Snapshot>>, target: string, date: int, offset: nat): (row: Option<TrendRow>)
    ensures row.Some? ==> row.value.offset == offset && row.value.date == date && row.value.snapshot.sector == target
  {
    if peers.None? then None else TrendRowFrom(peers.value, target, date, offset)
  }

  /** Period i of the momentum trend, dated by the selected sector's bar i back; none outside the data. */
  function TrendPeriods(target: string, data: PriceSeries, sectors: seq<(string, PriceSeries)>,
                        bench: Option<PriceSeries>, ind: IndicatorFn): nat -> Option<TrendRow>
  {
    i => if 1 <= i <= |data| then MomentumTrendPeriod(target, data[|data| - i].time, sectors, bench, i, ind) else None
  }

  lemma TrendPeriodsAt(target: string, data: PriceSeries, sectors: seq<(string, PriceSeries)>,
                       bench: Option<PriceSeries>, ind: IndicatorFn, i: nat)
    requires 1 <= i <= |data|
    ensures TrendPeriods(target, data, sectors, bench, ind)(i)
            == MomentumTrendPeriod(target, data[|data| - i].time, sectors, bench, i, ind)
  {
  }

  /** The body of the period loop of `calculate_sector_trend`, its exception handler included. */
  method MomentumPeriod(target: string, date: int, sectors: seq<(string, PriceSeries)>,
                        bench: Option<PriceSeries>, i: nat, ind: IndicatorFn) returns (row: Option<TrendRow>)
    requires i >= 1
    ensures row == MomentumTrendPeriod(target, date, sectors, bench, i, ind)
  {
    var peers := CollectPeers(sectors, bench, i - 1, 14, ind);
    PeriodRowIsPeriod(target, date, sectors, bench, i, ind, peers);
    row := PeriodRow(peers, target, date, i - 1);
  }

  /** `calculate_sector_trend`: None for missing or short data or when no period yields a row. */
  function SectorTrendTable(target: string, data: Option<PriceSeries>, sectors: seq<(string, PriceSeries)>,
                            bench: Option<PriceSeries>, periods: nat, ind: IndicatorFn): Option<seq<TrendRow>>
  {
    if data.None? || |data.value| < periods then None
    else
      var rows := Collect(TrendPeriods(target, data.value, sectors, bench, ind), periods, periods);
      if rows == [] then None else Some(rows)
  }

  /** The momentum trend of one sector over the last `periods` bars. */
  method SectorTrend(target: string, data: Option<PriceSeries>, sectors: seq<(string, PriceSeries)>,
                     bench: Option<PriceSeries>, periods: nat, ind: IndicatorFn)
    returns (table: Option<seq<TrendRow>>)
    ensures table == SectorTrendTable(target, data, sectors, bench, periods, ind)
  {
    if data.None? || |data.value| < periods {
      return None;
    }
    var bars := data.value;
    var rows: seq<TrendRow> := [];
    for n := 0 to periods
      invariant rows == Collect(TrendPeriods(target, bars, sectors, bench, ind), periods, n)
    {
      var i := periods - n;
      var row := MomentumPeriod(target, bars[|bars| - i].time, sectors, bench, i, ind);
      TrendPeriodsAt(target, bars, sectors, bench, ind, i);
      CollectStep(TrendPeriods(target, bars, sectors, bench, ind), periods, n);
      rows := rows + AsSeq(row);
    }
    if rows == [] {
      return None;
    }
    return Some(rows);
  }

  /**
   * Periods come oldest first: the rows' offsets fall strictly, all below
   * `periods` (`T-offset`, with `T` the latest bar), and every row is the
   * selected sector's.
   */
  lemma TrendRowsOrdered(target: string, data: PriceSeries, sectors: seq<(string, PriceSeries)>,
                         bench: Option<PriceSeries>, periods: nat, ind: IndicatorFn)
    requires periods <= |data|
    ensures var rows := Collect(TrendPeriods(target, data, sectors, bench, ind), periods, periods);
            (forall a :: 0 <= a < |rows| ==> rows[a].offset < periods && rows[a].snapshot.sector == target)
            && (forall a, b :: 0 <= a < b < |rows| ==> rows[a].offset > rows[b].offset)
  {
    var f := TrendPeriods(target, data, sectors, bench, ind);
    var key := (r: TrendRow) => -(r.offset as int);
    var stamp := (i: nat) => 1 - i;
    forall i | 1 <= i <= periods && f(i).Some? ensures key(f(i).value) == stamp(i) && f(i).value.snapshot.sector == target {
      TrendPeriodsAt(target, data, sectors, bench, ind, i);
    }
    if periods >= 1 {
      CollectRising(f, key, stamp, periods);
    }
    CollectFrom(f, periods, periods);
    var rows := Collect(f, periods, periods);
    forall a | 0 <= a < |rows| ensures rows[a].offset < periods && rows[a].snapshot.sector == target {
      assert rows[a] in rows;
      var i :| periods - periods < i <= periods && f(i) == Some(rows[a]);
    }
  }

  /**
   * Without a benchmark a past period has no peers: it fails at the first
   * sector that is not the benchmark, and otherwise there is none.
   */
  lemma {:induction false} NoBenchmarkPastPeers(sectors: seq<(string, PriceSeries)>, k: nat, drop: nat, minBars: nat,
                                                ind: IndicatorFn)
    requires k <= |sectors| && drop > 0
    ensures PeersUpTo(sectors, k, None, drop, minBars, ind).None? || PeersUpTo(sectors, k, None, drop, minBars, ind) == Some([])
  {
    if k > 0 {
      NoBenchmarkPastPeers(sectors, k - 1, drop, minBars, ind);
    }
  }

  /**
   * Without a benchmark only the latest period can yield a row: the trend
   * is at most the one `T` row.
   */
  lemma NoBenchmarkOnlyLatest(target: string, data: PriceSeries, sectors: seq<(string, PriceSeries)>,
                              periods: nat, ind: IndicatorFn)
    requires periods <= |data|
    ensures var t := SectorTrendTable(target, Some(data), sectors, None, periods, ind);
            t.Some? ==> |t.value| == 1 && t.value[0].offset == 0
  {
    var f := TrendPeriods(target, data, sectors, None, ind);
    forall i | 2 <= i <= periods ensures f(i).None? {
      TrendPeriodsAt(target, data, sectors, None, ind, i);
      NoBenchmarkPastPeers(sectors, |sectors|, i - 1, 14, ind);
    }
    CollectOnlyLatest(f, periods, periods);
    if periods >= 1 {
      TrendPeriodsAt(target, data, sectors, None, ind, 1);
    }
  }

  // ---------------------------------------------------------------------------
  // Reversal trend

  /** The replayers' eligibility test, with their own fallbacks (RSI below 40, ADX Z-score below -0.5). */
  predicate TrendEligible(m: Metrics, thr: Dict<real>) {
    m.rsi < Get(thr, "RSI", 40.0) && m.adxZ < Get(thr, "ADX_Z", -0.5)
  }

  function EligiblePeers(peers: seq<Snapshot>, thr: Dict<real>): (e: seq<Snapshot>)
    ensures |e| <= |peers|
    ensures forall s :: s in e <==> s in peers && TrendEligible(s.metrics, thr)
  {
    if |peers| == 0 then []
    else (if TrendEligible(peers[0].metrics, thr) then [peers[0]] else []) + EligiblePeers(peers[1..], thr)
  }

  /** `ranked_df`: the scores above zero. */
  function Positives(xs: seq<real>): (ys: seq<real>)
    ensures |ys| <= |xs|
    ensures forall y :: y in ys <==> y in xs && y > 0.0
  {
    if |xs| == 0 then []
    else (if xs[0] > 0.0 then [xs[0]] else []) + Positives(xs[1..])
  }

  /**
   * A peer's score in the reversal trend: its weighted reversal ranks
   * among the eligible peers, and 0 for the others and for the
   * not-a-number a zero total weight gives.
   */
  function TrendReversalScore(peers: seq<Snapshot>, k: nat, rw: Dict<real>, thr: Dict<real>): (r: real)
    requires k < |peers|
    ensures !TrendEligible(peers[k].metrics, thr) ==> r == 0.0
  {
    var m := peers[k].metrics;
    if TrendEligible(m, thr) then
      RankedReversal(PoolOf(EligiblePeers(peers, thr)), m, ReversalWeightsWithDefaults(rw), Total(rw)).GetOr(0.0)
    else 0.0
  }

  /** With weights that are non-negative and the whole dictionary, a peer scores above 0 exactly when eligible. */
  lemma TrendReversalScoreIffEligible(peers: seq<Snapshot>, k: nat, rw: Dict<real>, thr: Dict<real>)
    requires k < |peers|
    requires ReversalWeightsWithDefaults(rw).NonNegative() && Total(rw) == ReversalWeightsWithDefaults(rw).Sum() && Total(rw) > 0.0
    ensures TrendReversalScore(peers, k, rw, thr) > 0.0 <==> TrendEligible(peers[k].metrics, thr)
    ensures TrendEligible(peers[k].metrics, thr) ==>
              100.0 <= TrendReversalScore(peers, k, rw, thr) <= 100.0 * |EligiblePeers(peers, thr)| as real
  {
    var m := peers[k].metrics;
    if TrendEligible(m, thr) {
      var e := EligiblePeers(peers, thr);
      assert peers[k] in e;
      var j :| 0 <= j < |e| && e[j] == peers[k];
      assert PoolOf(e)[j] == m;
      RankedReversalBounds(PoolOf(e), m, ReversalWeightsWithDefaults(rw));
    }
  }

  /**
   * The trend's status: any eligible peer is Watch, BUY_DIV when it also
   * has RSI below three quarters of the threshold, an ADX Z-score half a
   * point below it and CMF above 0.1.
   */
  function TrendStatus(m: Metrics, thr: Dict<real>): (s: Analysis.Status)
    ensures s != Analysis.No <==> TrendEligible(m, thr)
  {
    if !TrendEligible(m, thr) then Analysis.No
    else if m.rsi < Get(thr, "RSI", 40.0) * 0.75 && m.adxZ < Get(thr, "ADX_Z", -0.5) - 0.5 && m.cmf > 0.1 then Analysis.BuyDiv
    else Analysis.Watch
  }

  /**
   * Although the source labels it the main table's rule, the trend's status
   * differs from it: under the sidebar defaults a sector the main table
   * calls BUY_DIV shows as Watch in the trend.
   */
  lemma TrendStatusDiffersFromTable()
    ensures var thr := [("RSI", 40.0), ("ADX_Z", -0.5)];
            var m := Metrics(35.0, -0.8, 0.2, 5.0, 0.0);
            TrendStatus(m, thr) == Analysis.Watch
            && Analysis.ReversalStatus(m.rsi, m.adxZ, m.cmf, Some(thr)) == Analysis.BuyDiv
  {
    var thr := [("RSI", 40.0), ("ADX_Z", -0.5)];
    assert thr[1..] == [("ADX_Z", -0.5)];
    assert Get(thr, "RSI", 40.0) == 40.0;
    assert Get(thr, "ADX_Z", -0.5) == -0.5;
    assert Get(thr, "ADX_Z", 0.0) == -0.5;
  }

  /** One displayed period of the reversal trend; the rank is shown only for a scored candidate. */
  datatype ReversalTrendRow = ReversalTrendRow(offset: nat, date: int, snapshot: Snapshot,
                                               status: Analysis.Status, score: real, rank: Option<nat>)

  function ReversalTrendRowFrom(peers: seq<Snapshot>, target: string, date: int, offset: nat,
                                rw: Dict<real>, thr: Dict<real>): (row: Option<ReversalTrendRow>)
    ensures row.None? <==> forall j :: 0 <= j < |peers| ==> peers[j].sector != target
    ensures row.Some? ==> row.value.offset == offset && row.value.date == date && row.value.snapshot.sector == target
    ensures row.Some? ==> (row.value.rank.Some? <==> row.value.status != Analysis.No && row.value.score > 0.0)
  {
    match FindSector(peers, target)
    case None => None
    case Some(k) =>
      var scores := seq(|peers|, j requires 0 <= j < |peers| => TrendReversalScore(peers, j, rw, thr));
      var status := TrendStatus(peers[k].metrics, thr);
      var rank := if status != Analysis.No && scores[k] > 0.0 then Some(RankDesc(Positives(scores), scores[k])) else None;
      Some(ReversalTrendRow(offset, date, peers[k], status, scores[k], rank))
  }

  /** A shown rank lies between 1 and the number of scored peers, and is 1 for the period's best score. */
  lemma ReversalTrendRankBounds(peers: seq<Snapshot>, target: string, date: int, offset: nat, rw: Dict<real>, thr: Dict<real>)
    requires ReversalTrendRowFrom(peers, target, date, offset, rw, thr).Some?
    requires ReversalTrendRowFrom(peers, target, date, offset, rw, thr).value.rank.Some?
    ensures var row := ReversalTrendRowFrom(peers, target, date, offset, rw, thr).value;
            var scores := seq(|peers|, j requires 0 <= j < |peers| => TrendReversalScore(peers, j, rw, thr));
            1 <= row.rank.value <= |Positives(scores)| <= |peers|
            && (row.rank.value == 1 <==> forall j :: 0 <= j < |peers| ==> scores[j] <= row.score)
  {
    var k := FindSector(peers, target).value;
    var scores := seq(|peers|, j requires 0 <= j < |peers| => TrendReversalScore(peers, j, rw, thr));
    PositiveRank(scores, k);
  }

  /** The descending rank of a positive entry among the positive entries. */
  lemma PositiveRank(xs: seq<real>, k: nat)
    requires k < |xs| && xs[k] > 0.0
    ensures 1 <= RankDesc(Positives(xs), xs[k]) <= |Positives(xs)| <= |xs|
    ensures RankDesc(Positives(xs), xs[k]) == 1 <==> forall j :: 0 <= j < |xs| ==> xs[j] <= xs[k]
  {
    var ps := Positives(xs);
    var x := xs[k];
    assert x in xs;
    RankBounds(ps, x);
    RankDescOneIffMaximum(ps, x);
    if forall j :: 0 <= j < |xs| ==> xs[j] <= x {
      forall i | 0 <= i < |ps| ensures ps[i] <= x {
        assert ps[i] in ps;
        var j :| 0 <= j < |xs| && xs[j] == ps[i];
      }
    } else {
      var j :| 0 <= j < |xs| && xs[j] > x;
      assert xs[j] in xs;
      assert xs[j] in ps;
      var i :| 0 <= i < |ps| && ps[i] == xs[j];
    }
  }

  function ReversalTrendPeriod(target: string, date: int, sectors: seq<(string, PriceSeries)>,
                               bench: Option<PriceSeries>, rw: Dict<real>, thr: Dict<real>,
                               i: nat, ind: IndicatorFn): (row: Option<ReversalTrendRow>)
    requires i >= 1
    ensures row.Some? ==> row.value.offset == i - 1 && row.value.date == date && row.value.snapshot.sector == target
  {
    ReversalPeriodRow(PeerSnapshots(sectors, bench, i - 1, 14, ind), target, date, i - 1, rw, thr)
  }

  function ReversalPeriodRow(peers: Option<seq<Snapshot>>, target: string, date: int, offset: nat,
                             rw: Dict<real>, thr: Dict<real>): (row: Option<ReversalTrendRow>)
    ensures row.Some? ==> row.value.offset == offset && row.value.date == date && row.value.snapshot.sector == target
  {
    if peers.None? then None else ReversalTrendRowFrom(peers.value, target, date, offset, rw, thr)
  }

  /** The body of the period loop of `calculate_reversal_trend`, its exception handler included. */
  method ReversalPeriod(target: string, date: int, sectors: seq<(string, PriceSeries)>,
                        bench: Option<PriceSeries>, rw: Dict<real>, thr: Dict<real>,
                        i: nat, ind: IndicatorFn) returns (row: Option<ReversalTrendRow>)
    requires i >= 1
    ensures row == ReversalTrendPeriod(target, date, sectors, bench, rw, thr, i, ind)
  {
    var peers := CollectPeers(sectors, bench, i - 1, 14, ind);
    ReversalPeriodRowIsPeriod(target, date, sectors, bench, rw, thr, i, ind, peers);
    row := ReversalPeriodRow(peers, target, date, i - 1, rw, thr);
  }

  lemma ReversalPeriodRowIsPeriod(target: string, date: int, sectors: seq<(string, PriceSeries)>, bench: Option<PriceSeries>,
                                  rw: Dict<real>, thr: Dict<real>, i: nat, ind: IndicatorFn, peers: Option<seq<Snapshot>>)
    requires i >= 1 && peers == PeerSnapshots(sectors, bench, i - 1, 14, ind)
    ensures ReversalPeriodRow(peers, target, date, i - 1, rw, thr) == ReversalTrendPeriod(target, date, sectors, bench, rw, thr, i, ind)
  {
  }

  /** Period i of the reversal trend; none outside the data. */
  function ReversalPeriods(target: string, data: PriceSeries, sectors: seq<(string, PriceSeries)>,
                           bench: Option<PriceSeries>, rw: Dict<real>, thr: Dict<real>,
                           ind: IndicatorFn): nat -> Option<ReversalTrendRow>
  {
    i => if 1 <= i <= |data| then ReversalTrendPeriod(target, data[|data| - i].time, sectors, bench, rw, thr, i, ind) else None
  }

  lemma ReversalPeriodsAt(target: string, data: PriceSeries, sectors: seq<(string, PriceSeries)>,
                          bench: Option<PriceSeries>, rw: Dict<real>, thr: Dict<real>, ind: IndicatorFn, i: nat)
    requires 1 <= i <= |data|
    ensures ReversalPeriods(target, data, sectors, bench, rw, thr, ind)(i)
            == ReversalTrendPeriod(target, data[|data| - i].time, sectors, bench, rw, thr, i, ind)
  {
  }

  /** `calculate_reversal_trend`. */
  function ReversalTrendTable(target: string, data: Option<PriceSeries>, sectors: seq<(string, PriceSeries)>,
                              bench: Option<PriceSeries>, rw: Dict<real>, thr: Dict<real>,
                              periods: nat, ind: IndicatorFn): Option<seq<ReversalTrendRow>>
  {
    if data.None? || |data.value| < periods then None
    else
      var rows := Collect(ReversalPeriods(target, data.value, sectors, bench, rw, thr, ind), periods, periods);
      if rows == [] then None else Some(rows)
  }

  /** The reversal trend of one sector over the last `periods` bars. */
  method ReversalTrend(target: string, data: Option<PriceSeries>, sectors: seq<(string, PriceSeries)>,
                       bench: Option<PriceSeries>, rw: Dict<real>, thr: Dict<real>,
                       periods: nat, ind: IndicatorFn)
    returns (table: Option<seq<ReversalTrendRow>>)
    ensures table == ReversalTrendTable(target, data, sectors, bench, rw, thr, periods, ind)
  {
    if data.None? || |data.value| < periods {
      return None;
    }
    var bars := data.value;
    var rows: seq<ReversalTrendRow> := [];
    for n := 0 to periods
      invariant rows == Collect(ReversalPeriods(target, bars, sectors, bench, rw, thr, ind), periods, n)
    {
      var i := periods - n;
      var row := ReversalPeriod(target, bars[|bars| - i].time, sectors, bench, rw, thr, i, ind);
      ReversalPeriodsAt(target, bars, sectors, bench, rw, thr, ind, i);
      CollectStep(ReversalPeriods(target, bars, sectors, bench, rw, thr, ind), periods, n);
      rows := rows + AsSeq(row);
    }
    if rows == [] {
      return None;
    }
    return Some(rows);
  }

  /** Reversal-trend periods also come oldest first, with strictly falling offsets below `periods`. */
  lemma ReversalTrendRowsOrdered(target: string, data: PriceSeries, sectors: seq<(string, PriceSeries)>,
                                 bench: Option<PriceSeries>, rw: Dict<real>, thr: Dict<real>,
                                 periods: nat, ind: IndicatorFn)
    requires periods <= |data|
    ensures var rows := Collect(ReversalPeriods(target, data, sectors, bench, rw, thr, ind), periods, periods);
            (forall a :: 0 <= a < |rows| ==> rows[a].offset < periods && rows[a].snapshot.sector == target)
            && (forall a, b :: 0 <= a < b < |rows| ==> rows[a].offset > rows[b].offset)
  {
    var f := ReversalPeriods(target, data, sectors, bench, rw, thr, ind);
    var key := (r: ReversalTrendRow) => -(r.offset as int);
    var stamp := (i: nat) => 1 - i;
    forall i | 1 <= i <= periods && f(i).Some? ensures key(f(i).value) == stamp(i) && f(i).value.snapshot.sector == target {
      ReversalPeriodsAt(target, data, sectors, bench, rw, thr, ind, i);
    }
    if periods >= 1 {
      CollectRising(f, key, stamp, periods);
    }
    CollectFrom(f, periods, periods);
    var rows := Collect(f, periods, periods);
    forall a | 0 <= a < |rows| ensures rows[a].offset < periods && rows[a].snapshot.sector == target {
      assert rows[a] in rows;
      var i :| periods - periods < i <= periods && f(i) == Some(rows[a]);
    }
  }

  /** The reversal trend has the same shape without a benchmark: at most the one `T` row. */
  lemma ReversalNoBenchmarkOnlyLatest(target: string, data: PriceSeries, sectors: seq<(string, PriceSeries)>,
                                      rw: Dict<real>, thr: Dict<real>, periods: nat, ind: IndicatorFn)
    requires periods <= |data|
    ensures var t := ReversalTrendTable(target, Some(data), sectors, None, rw, thr, periods, ind);
            t.Some? ==> |t.value| == 1 && t.value[0].offset == 0
  {
    var f := ReversalPeriods(target, data, sectors, None, rw, thr, ind);
    forall i | 2 <= i <= periods ensures f(i).None? {
      ReversalPeriodsAt(target, data, sectors, None, rw, thr, ind, i);
      NoBenchmarkPastPeers(sectors, |sectors|, i - 1, 14, ind);
    }
    CollectOnlyLatest(f, periods, periods);
    if periods >= 1 {
      ReversalPeriodsAt(target, data, sectors, None, rw, thr, ind, 1);
    }
  }
}
