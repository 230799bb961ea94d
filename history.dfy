/**
 * The historical top-two tables (streamlit_app.py): at each of the last
 * months of bars the peers are re-ranked on the bars they had then. The
 * momentum table records the two leaders and their forward returns, the
 * reversal table the two leading reversal candidates.
 */
module History {
  import opened Wrappers
  import opened Dicts
  import opened Series
  import opened Scoring
  import opened Replay
  import opened Periods
  import Config

  function Min(a: int, b: int): int {
    if a <= b then a else b
  }

  /** The cap on the look-back, in bars: 26 weeks, 500 hours or 126 trading days. */
  function LookbackCap(interval: string): (cap: nat)
    ensures cap >= 10
  {
    if interval == "1wk" then 26 else if interval == "1h" then 500 else 126
  }

  /**
   * `lookback_periods`: the cap for the interval, or the benchmark's length
   * less 20 bars when that is smaller. Below ten periods there is no table.
   */
  function Lookback(interval: string, benchLen: nat): (p: Option<nat>)
    ensures p.Some? <==> benchLen >= 30
    ensures p.Some? ==> 10 <= p.value <= LookbackCap(interval) && p.value + 20 <= benchLen
    ensures p.Some? ==> p.value == LookbackCap(interval) || p.value + 20 == benchLen
  {
    var room := benchLen - 20;
    var p := if interval == "1wk" then Min(26, room) else if interval == "1h" then Min(room, 500) else Min(126, room);
    if p < 10 then None else Some(p as nat)
  }

  /**
   * `calc_forward_return`: the percentage change of the close from bar idx
   * to bar idx + k. None past the end of the data, and for the
   * not-a-number that a zero close gives.
   */
  function ForwardReturn(data: PriceSeries, idx: nat, k: nat): (r: Option<real>)
    ensures r.None? <==> idx + k >= |data| || data[idx].close == 0.0
  {
    if idx + k < |data| && data[idx].close != 0.0 then
      Some((data[idx + k].close - data[idx].close) / data[idx].close * 100.0)
    else None
  }

  /** Growing the current close by the forward return gives the future close. */
  lemma ForwardReturnRoundTrip(data: PriceSeries, idx: nat, k: nat)
    requires ForwardReturn(data, idx, k).Some?
    ensures data[idx].close * (1.0 + ForwardReturn(data, idx, k).value / 100.0) == data[idx + k].close
  {
    var c := data[idx].close;
    var f := data[idx + k].close;
    var q := (f - c) / c;
    assert q * c == f - c;
    assert ForwardReturn(data, idx, k).value / 100.0 == q;
  }

  // ---------------------------------------------------------------------------
  // Picking the leaders

  /** a sorts strictly before b in a descending sort that puts missing values last. */
  predicate Beats(a: Option<real>, b: Option<real>) {
    a.Some? && (b.None? || a.value > b.value)
  }

  /**
   * The leader among the first n scores, leaving out index `skip`: no
   * index beats it, and it beats every index before it (ties go to the
   * first occurrence).
   */
  function BestUpTo(s: seq<Option<real>>, skip: int, n: nat): (r: Option<nat>)
    requires n <= |s|
    ensures r.None? <==> n == 0 || (n == 1 && skip == 0)
    ensures r.Some? ==> r.value < n && r.value != skip
    ensures r.Some? ==> forall j :: 0 <= j < n && j != skip ==> !Beats(s[j], s[r.value])
    ensures r.Some? ==> forall j :: 0 <= j < r.value && j != skip ==> Beats(s[r.value], s[j])
  {
    if n == 0 then None
    else
      var b := BestUpTo(s, skip, n - 1);
      if n - 1 == skip then b
      else if b.None? || Beats(s[n - 1], s[b.value]) then Some(n - 1)
      else b
  }

  /**
   * `sort_values(ascending=False).head(2)`: the indices of the first and
   * second rows, present exactly when there are two rows.
   */
  function TopTwo(s: seq<Option<real>>): (r: Option<(nat, nat)>)
    ensures r.Some? <==> |s| >= 2
    ensures r.Some? ==> r.value.0 < |s| && r.value.1 < |s| && r.value.0 != r.value.1
    ensures r.Some? ==> forall j :: 0 <= j < |s| ==> !Beats(s[j], s[r.value.0])
    ensures r.Some? ==> forall j :: 0 <= j < |s| && j != r.value.0 ==> !Beats(s[j], s[r.value.1])
    ensures r.Some? ==> forall j :: 0 <= j < r.value.0 ==> Beats(s[r.value.0], s[j])
    ensures r.Some? ==> forall j :: 0 <= j < r.value.1 && j != r.value.0 ==> Beats(s[r.value.1], s[j])
  {
    if |s| < 2 then None
    else
      var a := BestUpTo(s, -1, |s|).value;
      Some((a, BestUpTo(s, a, |s|).value))
  }

  /**
   * One row of `nlargest(2, ...)`: the leader outside `skip` among the
   * scores that are numbers, None when no such score remains.
   */
  function Largest(s: seq<Option<real>>, skip: int): (r: Option<nat>)
    ensures r.None? <==> forall j :: 0 <= j < |s| && j != skip ==> s[j].None?
    ensures r.Some? ==> r.value < |s| && r.value != skip && s[r.value].Some?
    ensures r.Some? ==> forall j :: 0 <= j < |s| && j != skip ==> !Beats(s[j], s[r.value])
    ensures r.Some? ==> forall j :: 0 <= j < r.value && j != skip ==> Beats(s[r.value], s[j])
  {
    var b := BestUpTo(s, skip, |s|);
    if b.Some? && s[b.value].Some? then b
    else
      assert forall j :: 0 <= j < |s| && j != skip ==> s[j].None? by {
        if b.Some? {
          forall j | 0 <= j < |s| && j != skip ensures s[j].None? {
            assert !Beats(s[j], s[b.value]);
          }
        }
      }
      None
  }

  /** `data_source.get(sector, 'N/A')`. */
  function Symbol(symbols: Dict<string>, sector: string): string {
    Get(symbols, sector, "N/A")
  }

  // ---------------------------------------------------------------------------
  // Historical momentum

  /** One leader: its sector, symbol and 7- and 14-bar forward returns. */
  datatype Pick = Pick(sector: string, symbol: string, return7: Option<real>, return14: Option<real>)

  /** One row of the historical momentum table. */
  datatype MomentumLeaders = MomentumLeaders(date: int, first: Pick, second: Pick)

  /** The renormalised momentum score of every peer of a period. */
  function MomentumScores(peers: seq<Snapshot>, w: MomentumWeights, total: real): (s: seq<Option<real>>)
    ensures |s| == |peers|
  {
    seq(|peers|, j requires 0 <= j < |peers| => RenormalisedMomentum(PoolOf(peers), peers[j].metrics, w, total))
  }

  /** The bar of `p.history` that comes right after the bars it was scored on, `len(data) - i`. */
  function Current(p: Snapshot, i: nat): nat {
    |DropLast(p.history, i)|
  }

  function PickAt(p: Snapshot, idx: nat, symbols: Dict<string>): Pick {
    Pick(p.sector, Symbol(symbols, p.sector), ForwardReturn(p.history, idx, 7), ForwardReturn(p.history, idx, 14))
  }

  /**
   * The two leaders of one period as written: both picks' forward returns
   * start from the index the first pick's history gives.
   */
  function AsWrittenMomentumLeaders(peers: seq<Snapshot>, date: int, i: nat, w: MomentumWeights, total: real,
                                    symbols: Dict<string>): (row: Option<MomentumLeaders>)
    ensures row.Some? <==> |peers| >= 2
  {
    match TopTwo(MomentumScores(peers, w, total))
    case None => None
    case Some((a, b)) =>
      var idx := Current(peers[a], i);
      Some(MomentumLeaders(date, PickAt(peers[a], idx, symbols), PickAt(peers[b], idx, symbols)))
  }

  /**
   * The two leaders of one period: the two highest momentum scores, each
   * pick's forward returns measured on its own history from the bar after
   * the ones it was scored on.
   */
  function MomentumLeadersFrom(peers: seq<Snapshot>, date: int, i: nat, w: MomentumWeights, total: real,
                               symbols: Dict<string>): (row: Option<MomentumLeaders>)
    ensures row.Some? <==> |peers| >= 2
  {
    match TopTwo(MomentumScores(peers, w, total))
    case None => None
    case Some((a, b)) =>
      Some(MomentumLeaders(date, PickAt(peers[a], Current(peers[a], i), symbols),
                           PickAt(peers[b], Current(peers[b], i), symbols)))
  }

  /**
   * The leaders are two different peers with the two highest scores
   * (first the peer no other outscores, then the best of the rest), named
   * with their symbols and valued from the bar after their scoring window.
   */
  lemma MomentumLeadersAreTopTwo(peers: seq<Snapshot>, date: int, i: nat, w: MomentumWeights, total: real,
                                 symbols: Dict<string>)
    requires |peers| >= 2
    ensures var s := MomentumScores(peers, w, total);
            var row := MomentumLeadersFrom(peers, date, i, w, total, symbols).value;
            exists a, b :: 0 <= a < |peers| && 0 <= b < |peers| && a != b
              && row.first.sector == peers[a].sector && row.second.sector == peers[b].sector
              && row.first.symbol == Symbol(symbols, peers[a].sector)
              && row.second.symbol == Symbol(symbols, peers[b].sector)
              && (forall j :: 0 <= j < |peers| ==> !Beats(s[j], s[a]))
              && (forall j :: 0 <= j < |peers| && j != a ==> !Beats(s[j], s[b]))
              && row.first.return7 == ForwardReturn(peers[a].history, Current(peers[a], i), 7)
              && row.second.return7 == ForwardReturn(peers[b].history, Current(peers[b], i), 7)
              && row.first.return14 == ForwardReturn(peers[a].history, Current(peers[a], i), 14)
              && row.second.return14 == ForwardReturn(peers[b].history, Current(peers[b], i), 14)
  {
    var s := MomentumScores(peers, w, total);
    var ab := TopTwo(s).value;
    var a, b := ab.0, ab.1;
    assert 0 <= a < |peers| && 0 <= b < |peers| && a != b;
  }

  /**
   * A peer with at least `i` bars to spare is valued from the bar right
   * after its window: the close there, grown by the 7-bar return, is the
   * close seven bars later.
   */
  lemma PickValuedAfterWindow(p: Snapshot, i: nat, symbols: Dict<string>)
    requires 1 <= i <= |p.history| && PickAt(p, Current(p, i), symbols).return7.Some?
    ensures Current(p, i) == |p.history| - i
    ensures var r := PickAt(p, Current(p, i), symbols).return7.value;
            p.history[|p.history| - i].close * (1.0 + r / 100.0) == p.history[|p.history| - i + 7].close
  {
    ForwardReturnRoundTrip(p.history, Current(p, i), 7);
  }

  /** A rising close, one bar per time step. */
  function Ramp(n: nat): (s: PriceSeries)
    ensures |s| == n
  {
    seq(n, j requires 0 <= j < n => Bar(j, 1.0, 1.0, 1.0, (j + 1) as real, 1.0))
  }

  /** Two peers that tie on every indicator; the second has ten bars less history. */
  function TiedPeers(): (peers: seq<Snapshot>)
    ensures |peers| == 2
  {
    var m := Metrics(30.0, 0.0, 0.0, 5.0, 0.0);
    [Snapshot("A", Ramp(80), m, 0.0, 0.0, 80.0), Snapshot("B", Ramp(70), m, 0.0, 0.0, 70.0)]
  }

  /** Tied scores keep the input order: "A" first, "B" second. */
  lemma TiedPeersInOrder()
    ensures TopTwo(MomentumScores(TiedPeers(), MomentumWeightsWithDefaults(Config.DefaultMomentumWeights), 100.0)) == Some((0, 1))
  {
    var s := MomentumScores(TiedPeers(), MomentumWeightsWithDefaults(Config.DefaultMomentumWeights), 100.0);
    assert s[0] == s[1];
    assert BestUpTo(s, -1, 1) == Some(0);
    assert BestUpTo(s, -1, 2) == Some(0);
    assert BestUpTo(s, 0, 1).None?;
    assert BestUpTo(s, 0, 2) == Some(1);
  }

  /** The 7-bar returns of the shorter ramp from bar 60 and from bar 50. */
  lemma RampReturns()
    ensures ForwardReturn(Ramp(70), 60, 7) == Some(700.0 / 61.0)
    ensures ForwardReturn(Ramp(70), 50, 7) == Some(700.0 / 51.0)
  {
    assert Ramp(70)[60].close == 61.0 && Ramp(70)[67].close == 68.0;
    assert Ramp(70)[50].close == 51.0 && Ramp(70)[57].close == 58.0;
  }

  /**
   * As written the second pick's 7-bar return starts ten bars after the
   * bar it was scored at (from close 61 instead of 51).
   */
  lemma AsWrittenSecondPickMisplaced()
    ensures var w := MomentumWeightsWithDefaults(Config.DefaultMomentumWeights);
            var asWritten := AsWrittenMomentumLeaders(TiedPeers(), 0, 20, w, 100.0, []);
            var intended := MomentumLeadersFrom(TiedPeers(), 0, 20, w, 100.0, []);
            asWritten.Some? && intended.Some?
            && asWritten.value.second.sector == intended.value.second.sector == "B"
            && asWritten.value.second.return7 == Some(700.0 / 61.0)
            && intended.value.second.return7 == Some(700.0 / 51.0)
  {
    TiedPeersInOrder();
    RampReturns();
    var peers := TiedPeers();
    assert Current(peers[0], 20) == 60 && Current(peers[1], 20) == 50;
  }

  /** One period of `calculate_historical_momentum_performance`, given its peers. */
  function MomentumPeriodRow(peers: Option<seq<Snapshot>>, date: int, i: nat, mw: Dict<real>,
                             symbols: Dict<string>): (row: Option<MomentumLeaders>)
    ensures row.Some? ==> row.value.date == date
  {
    if peers.None? then None
    else MomentumLeadersFrom(peers.value, date, i, MomentumWeightsWithDefaults(mw), Total(mw), symbols)
  }

  /**
   * The period i bars back: every peer but the benchmark with at least 50
   * bars once its last i are dropped, dated by the benchmark's bar there.
   */
  function MomentumHistoryPeriod(sectors: seq<(string, PriceSeries)>, bench: PriceSeries, mw: Dict<real>,
                                 symbols: Dict<string>, i: nat, ind: IndicatorFn): (row: Option<MomentumLeaders>)
    requires 1 <= i <= |bench|
    ensures row.Some? ==> row.value.date == bench[|bench| - i].time
  {
    MomentumPeriodRow(PeerSnapshots(sectors, Some(bench), i, Config.MinDataPoints, ind), bench[|bench| - i].time, i, mw, symbols)
  }

  lemma MomentumPeriodRowIsPeriod(sectors: seq<(string, PriceSeries)>, bench: PriceSeries, mw: Dict<real>,
                                  symbols: Dict<string>, i: nat, ind: IndicatorFn, peers: Option<seq<Snapshot>>)
    requires 1 <= i <= |bench| && peers == PeerSnapshots(sectors, Some(bench), i, Config.MinDataPoints, ind)
    ensures MomentumPeriodRow(peers, bench[|bench| - i].time, i, mw, symbols)
            == MomentumHistoryPeriod(sectors, bench, mw, symbols, i, ind)
  {
  }

  /** Period i of the historical momentum table; none outside the benchmark's bars. */
  function MomentumPeriods(sectors: seq<(string, PriceSeries)>, bench: PriceSeries, mw: Dict<real>,
                           symbols: Dict<string>, ind: IndicatorFn): nat -> Option<MomentumLeaders>
  {
    i => if 1 <= i <= |bench| then MomentumHistoryPeriod(sectors, bench, mw, symbols, i, ind) else None
  }

  lemma MomentumPeriodsAt(sectors: seq<(string, PriceSeries)>, bench: PriceSeries, mw: Dict<real>,
                          symbols: Dict<string>, ind: IndicatorFn, i: nat)
    requires 1 <= i <= |bench|
    ensures MomentumPeriods(sectors, bench, mw, symbols, ind)(i) == MomentumHistoryPeriod(sectors, bench, mw, symbols, i, ind)
  {
  }

  /** `calculate_historical_momentum_performance`: None without a benchmark, a look-back or any row. */
  function HistoricalMomentumTable(sectors: seq<(string, PriceSeries)>, bench: Option<PriceSeries>, mw: Dict<real>,
                                   symbols: Dict<string>, interval: string, ind: IndicatorFn): Option<seq<MomentumLeaders>>
  {
    if bench.None? then None
    else
      match Lookback(interval, |bench.value|)
      case None => None
      case Some(p) =>
        var rows := Collect(MomentumPeriods(sectors, bench.value, mw, symbols, ind), p, p);
        if rows == [] then None else Some(rows)
  }

  /** The body of the period loop, its exception handler included. */
  method MomentumPeriod(sectors: seq<(string, PriceSeries)>, bench: PriceSeries, mw: Dict<real>,
                        symbols: Dict<string>, i: nat, ind: IndicatorFn) returns (row: Option<MomentumLeaders>)
    requires 1 <= i <= |bench|
    ensures row == MomentumHistoryPeriod(sectors, bench, mw, symbols, i, ind)
  {
    var peers := CollectPeers(sectors, Some(bench), i, Config.MinDataPoints, ind);
    MomentumPeriodRowIsPeriod(sectors, bench, mw, symbols, i, ind, peers);
    row := MomentumPeriodRow(peers, bench[|bench| - i].time, i, mw, symbols);
  }

  /** The historical momentum table, period by period from the oldest. */
  method HistoricalMomentum(sectors: seq<(string, PriceSeries)>, bench: Option<PriceSeries>, mw: Dict<real>,
                            symbols: Dict<string>, interval: string, ind: IndicatorFn)
    returns (table: Option<seq<MomentumLeaders>>)
    ensures table == HistoricalMomentumTable(sectors, bench, mw, symbols, interval, ind)
  {
    if bench.None? {
      return None;
    }
    var lookback := Lookback(interval, |bench.value|);
    if lookback.None? {
      return None;
    }
    var p := lookback.value;
    var rows: seq<MomentumLeaders> := [];
    for n := 0 to p
      invariant rows == Collect(MomentumPeriods(sectors, bench.value, mw, symbols, ind), p, n)
    {
      var row := MomentumPeriod(sectors, bench.value, mw, symbols, p - n, ind);
      MomentumPeriodsAt(sectors, bench.value, mw, symbols, ind, p - n);
      CollectStep(MomentumPeriods(sectors, bench.value, mw, symbols, ind), p, n);
      rows := rows + AsSeq(row);
    }
    if rows == [] {
      return None;
    }
    return Some(rows);
  }

  // ---------------------------------------------------------------------------
  // Historical reversal

  /** One row of the historical reversal table; the second place may be "N/A". */
  datatype ReversalLeaders = ReversalLeaders(date: int, firstSector: string, firstSymbol: string,
                                             secondSector: string, secondSymbol: string)

  /** The reversal score of every candidate, ranked among the candidates. */
  function ReversalScores(cands: seq<Snapshot>, w: ReversalWeights, total: real): (s: seq<Option<real>>)
    ensures |s| == |cands|
    ensures forall j :: 0 <= j < |s| ==> (s[j].None? <==> total == 0.0)
  {
    seq(|cands|, j requires 0 <= j < |cands| => RankedReversal(PoolOf(cands), cands[j].metrics, w, total))
  }

  /**
   * With non-negative weights and their sum as the total, every candidate
   * gets a number in [100, 100 × number of candidates].
   */
  lemma ReversalScoresBounds(cands: seq<Snapshot>, w: ReversalWeights)
    requires w.NonNegative() && w.Sum() > 0.0
    ensures forall j :: 0 <= j < |cands| ==>
              ReversalScores(cands, w, w.Sum())[j].Some?
              && 100.0 <= ReversalScores(cands, w, w.Sum())[j].value <= 100.0 * |cands| as real
  {
    var pool := PoolOf(cands);
    forall j | 0 <= j < |cands|
      ensures ReversalScores(cands, w, w.Sum())[j].Some?
              && 100.0 <= ReversalScores(cands, w, w.Sum())[j].value <= 100.0 * |cands| as real
    {
      assert pool[j] == cands[j].metrics && pool[j] in pool;
      RankedReversalBounds(pool, cands[j].metrics, w);
    }
  }

  /**
   * The candidates' indices of the first and, when there is one, second
   * row of `nlargest(2, 'Reversal_Score')`, which leaves out scores that
   * are not numbers.
   */
  function ReversalTopTwo(s: seq<Option<real>>): (r: Option<(nat, Option<nat>)>)
    ensures r.None? <==> forall j :: 0 <= j < |s| ==> s[j].None?
    ensures r.Some? ==> r.value.0 < |s| && s[r.value.0].Some?
                        && forall j :: 0 <= j < |s| ==> !Beats(s[j], s[r.value.0])
    ensures r.Some? && r.value.1.Some? ==>
              var b := r.value.1.value;
              b < |s| && b != r.value.0 && s[b].Some? && forall j :: 0 <= j < |s| && j != r.value.0 ==> !Beats(s[j], s[b])
    ensures r.Some? ==> (r.value.1.None? <==> forall j :: 0 <= j < |s| && j != r.value.0 ==> s[j].None?)
  {
    match Largest(s, -1)
    case None => None
    case Some(a) => Some((a, Largest(s, a)))
  }

  /** `Rank_n_Symbol`: "N/A" for a missing place, else the sector's symbol. */
  function PlaceSymbol(symbols: Dict<string>, sector: string): string {
    if sector == "N/A" then "N/A" else Symbol(symbols, sector)
  }

  /**
   * The two leading reversal candidates of one period: the peers passing
   * the thresholds, ranked among themselves.
   */
  function ReversalLeadersFrom(peers: seq<Snapshot>, date: int, rw: Dict<real>, thr: Dict<real>,
                               symbols: Dict<string>): (row: Option<ReversalLeaders>)
    ensures row.Some? ==> row.value.date == date
    ensures row.Some? ==> exists j :: 0 <= j < |peers| && peers[j].sector == row.value.firstSector
                                      && TrendEligible(peers[j].metrics, thr)
    ensures row.Some? && row.value.secondSector != "N/A" ==>
              exists j :: 0 <= j < |peers| && peers[j].sector == row.value.secondSector
                          && TrendEligible(peers[j].metrics, thr)
  {
    var cands := EligiblePeers(peers, thr);
    if |cands| == 0 then None
    else
      var s := ReversalScores(cands, ReversalWeightsWithDefaults(rw), Total(rw));
      match ReversalTopTwo(s)
      case None => None
      case Some((a, b)) =>
        assert cands[a] in cands;
        var first := cands[a].sector;
        var second := if b.Some? then cands[b.value].sector else "N/A";
        assert b.Some? ==> cands[b.value] in cands;
        Some(ReversalLeaders(date, first, PlaceSymbol(symbols, first), second, PlaceSymbol(symbols, second)))
  }

  /** A zero total weight makes every score not a number, so no period has leaders. */
  lemma ZeroWeightsNoReversalLeaders(peers: seq<Snapshot>, date: int, rw: Dict<real>, thr: Dict<real>,
                                     symbols: Dict<string>)
    requires Total(rw) == 0.0
    ensures ReversalLeadersFrom(peers, date, rw, thr, symbols).None?
  {
    var cands := EligiblePeers(peers, thr);
    if |cands| > 0 {
      var s := ReversalScores(cands, ReversalWeightsWithDefaults(rw), Total(rw));
      assert forall j :: 0 <= j < |s| ==> s[j].None?;
    }
  }

  /**
   * With a non-zero total weight a period has leaders exactly when some
   * peer passes the thresholds, and a second place exactly when two do.
   */
  lemma ReversalLeadersIffCandidates(peers: seq<Snapshot>, date: int, rw: Dict<real>, thr: Dict<real>,
                                     symbols: Dict<string>)
    requires Total(rw) != 0.0
    ensures var row := ReversalLeadersFrom(peers, date, rw, thr, symbols);
            var cands := EligiblePeers(peers, thr);
            (row.Some? <==> |cands| >= 1)
            && (row.Some? ==> row.value.firstSector == cands[ReversalTopTwo(ReversalScores(cands, ReversalWeightsWithDefaults(rw), Total(rw))).value.0].sector)
            && (row.Some? && |cands| >= 2 ==> ReversalTopTwo(ReversalScores(cands, ReversalWeightsWithDefaults(rw), Total(rw))).value.1.Some?)
            && (row.Some? && |cands| == 1 ==> row.value.secondSector == "N/A")
  {
    var cands := EligiblePeers(peers, thr);
    if |cands| >= 1 {
      var s := ReversalScores(cands, ReversalWeightsWithDefaults(rw), Total(rw));
      assert s[0].Some?;
      if |cands| >= 2 {
        var a := ReversalTopTwo(s).value.0;
        var j := if a == 0 then 1 else 0;
        assert j != a && s[j].Some?;
      }
    }
  }

  /** One period of `calculate_historical_reversal_performance`, given its peers. */
  function ReversalPeriodLeaders(peers: Option<seq<Snapshot>>, date: int, rw: Dict<real>, thr: Dict<real>,
                                 symbols: Dict<string>): (row: Option<ReversalLeaders>)
    ensures row.Some? ==> row.value.date == date
  {
    if peers.None? then None else ReversalLeadersFrom(peers.value, date, rw, thr, symbols)
  }

  function ReversalHistoryPeriod(sectors: seq<(string, PriceSeries)>, bench: PriceSeries, rw: Dict<real>,
                                 thr: Dict<real>, symbols: Dict<string>, i: nat, ind: IndicatorFn): (row: Option<ReversalLeaders>)
    requires 1 <= i <= |bench|
    ensures row.Some? ==> row.value.date == bench[|bench| - i].time
  {
    ReversalPeriodLeaders(PeerSnapshots(sectors, Some(bench), i, Config.MinDataPoints, ind), bench[|bench| - i].time, rw, thr, symbols)
  }

  lemma ReversalPeriodLeadersIsPeriod(sectors: seq<(string, PriceSeries)>, bench: PriceSeries, rw: Dict<real>,
                                      thr: Dict<real>, symbols: Dict<string>, i: nat, ind: IndicatorFn,
                                      peers: Option<seq<Snapshot>>)
    requires 1 <= i <= |bench| && peers == PeerSnapshots(sectors, Some(bench), i, Config.MinDataPoints, ind)
    ensures ReversalPeriodLeaders(peers, bench[|bench| - i].time, rw, thr, symbols)
            == ReversalHistoryPeriod(sectors, bench, rw, thr, symbols, i, ind)
  {
  }

  /** Period i of the historical reversal table; none outside the benchmark's bars. */
  function ReversalPeriods(sectors: seq<(string, PriceSeries)>, bench: PriceSeries, rw: Dict<real>, thr: Dict<real>,
                           symbols: Dict<string>, ind: IndicatorFn): nat -> Option<ReversalLeaders>
  {
    i => if 1 <= i <= |bench| then ReversalHistoryPeriod(sectors, bench, rw, thr, symbols, i, ind) else None
  }

  lemma ReversalPeriodsAt(sectors: seq<(string, PriceSeries)>, bench: PriceSeries, rw: Dict<real>, thr: Dict<real>,
                          symbols: Dict<string>, ind: IndicatorFn, i: nat)
    requires 1 <= i <= |bench|
    ensures ReversalPeriods(sectors, bench, rw, thr, symbols, ind)(i) == ReversalHistoryPeriod(sectors, bench, rw, thr, symbols, i, ind)
  {
  }

  /** `calculate_historical_reversal_performance`: None without a benchmark, a look-back or any row. */
  function HistoricalReversalTable(sectors: seq<(string, PriceSeries)>, bench: Option<PriceSeries>, rw: Dict<real>,
                                   thr: Dict<real>, symbols: Dict<string>, interval: string,
                                   ind: IndicatorFn): Option<seq<ReversalLeaders>>
  {
    if bench.None? then None
    else
      match Lookback(interval, |bench.value|)
      case None => None
      case Some(p) =>
        var rows := Collect(ReversalPeriods(sectors, bench.value, rw, thr, symbols, ind), p, p);
        if rows == [] then None else Some(rows)
  }

  method ReversalPeriod(sectors: seq<(string, PriceSeries)>, bench: PriceSeries, rw: Dict<real>, thr: Dict<real>,
                        symbols: Dict<string>, i: nat, ind: IndicatorFn) returns (row: Option<ReversalLeaders>)
    requires 1 <= i <= |bench|
    ensures row == ReversalHistoryPeriod(sectors, bench, rw, thr, symbols, i, ind)
  {
    var peers := CollectPeers(sectors, Some(bench), i, Config.MinDataPoints, ind);
    ReversalPeriodLeadersIsPeriod(sectors, bench, rw, thr, symbols, i, ind, peers);
    row := ReversalPeriodLeaders(peers, bench[|bench| - i].time, rw, thr, symbols);
  }

  /** The historical reversal table, period by period from the oldest. */
  method HistoricalReversal(sectors: seq<(string, PriceSeries)>, bench: Option<PriceSeries>, rw: Dict<real>,
                            thr: Dict<real>, symbols: Dict<string>, interval: string, ind: IndicatorFn)
    returns (table: Option<seq<ReversalLeaders>>)
    ensures table == HistoricalReversalTable(sectors, bench, rw, thr, symbols, interval, ind)
  {
    if bench.None? {
      return None;
    }
    var lookback := Lookback(interval, |bench.value|);
    if lookback.None? {
      return None;
    }
    var p := lookback.value;
    var rows: seq<ReversalLeaders> := [];
    for n := 0 to p
      invariant rows == Collect(ReversalPeriods(sectors, bench.value, rw, thr, symbols, ind), p, n)
    {
      var row := ReversalPeriod(sectors, bench.value, rw, thr, symbols, p - n, ind);
      ReversalPeriodsAt(sectors, bench.value, rw, thr, symbols, ind, p - n);
      CollectStep(ReversalPeriods(sectors, bench.value, rw, thr, symbols, ind), p, n);
      rows := rows + AsSeq(row);
    }
    if rows == [] {
      return None;
    }
    return Some(rows);
  }

  // ---------------------------------------------------------------------------
  // Both tables run oldest to newest

  /** The benchmark's time stamp of period i, the bar i back from the end. */
  function BenchStamps(bench: PriceSeries): nat -> int {
    i => if 1 <= i <= |bench| then bench[|bench| - i].time else 0
  }

  /** Over a chronological benchmark the stamps rise as the periods approach the present. */
  lemma BenchStampsRise(bench: PriceSeries, top: nat)
    requires 1 <= top <= |bench| && Chronological(bench)
    ensures forall i :: 1 < i <= top ==> BenchStamps(bench)(i) < BenchStamps(bench)(i - 1)
    ensures BenchStamps(bench)(top) == bench[|bench| - top].time && BenchStamps(bench)(1) == bench[|bench| - 1].time
  {
    forall i | 1 < i <= top ensures BenchStamps(bench)(i) < BenchStamps(bench)(i - 1) {
      assert BenchStamps(bench)(i) == bench[|bench| - i].time;
      assert BenchStamps(bench)(i - 1) == bench[|bench| - i + 1].time;
    }
  }

  /**
   * Rows whose key is the benchmark stamp of their period come out with
   * strictly rising keys, within the benchmark's last `top` bars.
   */
  lemma StampedRowsRise<R>(f: nat -> Option<R>, key: R -> int, bench: PriceSeries, top: nat)
    requires 1 <= top <= |bench| && Chronological(bench)
    requires forall i :: 1 <= i <= top && f(i).Some? ==> key(f(i).value) == BenchStamps(bench)(i)
    ensures var rows := Collect(f, top, top);
            (forall a :: 0 <= a < |rows| ==> bench[|bench| - top].time <= key(rows[a]) <= bench[|bench| - 1].time)
            && (forall a, b :: 0 <= a < b < |rows| ==> key(rows[a]) < key(rows[b]))
  {
    BenchStampsRise(bench, top);
    CollectRising(f, key, BenchStamps(bench), top);
  }

  /** Each period's row is dated by the benchmark's bar of that period. */
  lemma MomentumPeriodsStamped(sectors: seq<(string, PriceSeries)>, bench: PriceSeries, mw: Dict<real>,
                              symbols: Dict<string>, ind: IndicatorFn, top: nat)
    requires top <= |bench|
    ensures forall i :: 1 <= i <= top && MomentumPeriods(sectors, bench, mw, symbols, ind)(i).Some? ==>
              MomentumPeriods(sectors, bench, mw, symbols, ind)(i).value.date == BenchStamps(bench)(i)
  {
    forall i | 1 <= i <= top && MomentumPeriods(sectors, bench, mw, symbols, ind)(i).Some?
      ensures MomentumPeriods(sectors, bench, mw, symbols, ind)(i).value.date == BenchStamps(bench)(i)
    {
      MomentumPeriodsAt(sectors, bench, mw, symbols, ind, i);
    }
  }

  /**
   * Over a chronological benchmark the momentum table's dates rise
   * strictly, each one of the benchmark's last `lookback` bars.
   */
  lemma MomentumRowsRise(sectors: seq<(string, PriceSeries)>, bench: PriceSeries, mw: Dict<real>,
                         symbols: Dict<string>, lookback: nat, ind: IndicatorFn)
    requires 1 <= lookback <= |bench| && Chronological(bench)
    ensures var rows := Collect(MomentumPeriods(sectors, bench, mw, symbols, ind), lookback, lookback);
            (forall a :: 0 <= a < |rows| ==> bench[|bench| - lookback].time <= rows[a].date <= bench[|bench| - 1].time)
            && (forall a, b :: 0 <= a < b < |rows| ==> rows[a].date < rows[b].date)
  {
    MomentumPeriodsStamped(sectors, bench, mw, symbols, ind, lookback);
    StampedRowsRise(MomentumPeriods(sectors, bench, mw, symbols, ind), (r: MomentumLeaders) => r.date, bench, lookback);
  }

  /** Each period's row is dated by the benchmark's bar of that period. */
  lemma ReversalPeriodsStamped(sectors: seq<(string, PriceSeries)>, bench: PriceSeries, rw: Dict<real>, thr: Dict<real>,
                              symbols: Dict<string>, ind: IndicatorFn, top: nat)
    requires top <= |bench|
    ensures forall i :: 1 <= i <= top && ReversalPeriods(sectors, bench, rw, thr, symbols, ind)(i).Some? ==>
              ReversalPeriods(sectors, bench, rw, thr, symbols, ind)(i).value.date == BenchStamps(bench)(i)
  {
    forall i | 1 <= i <= top && ReversalPeriods(sectors, bench, rw, thr, symbols, ind)(i).Some?
      ensures ReversalPeriods(sectors, bench, rw, thr, symbols, ind)(i).value.date == BenchStamps(bench)(i)
    {
      ReversalPeriodsAt(sectors, bench, rw, thr, symbols, ind, i);
    }
  }

  /** The reversal table's dates rise in the same way. */
  lemma ReversalRowsRise(sectors: seq<(string, PriceSeries)>, bench: PriceSeries, rw: Dict<real>, thr: Dict<real>,
                         symbols: Dict<string>, lookback: nat, ind: IndicatorFn)
    requires 1 <= lookback <= |bench| && Chronological(bench)
    ensures var rows := Collect(ReversalPeriods(sectors, bench, rw, thr, symbols, ind), lookback, lookback);
            (forall a :: 0 <= a < |rows| ==> bench[|bench| - lookback].time <= rows[a].date <= bench[|bench| - 1].time)
            && (forall a, b :: 0 <= a < b < |rows| ==> rows[a].date < rows[b].date)
  {
    ReversalPeriodsStamped(sectors, bench, rw, thr, symbols, ind, lookback);
    StampedRowsRise(ReversalPeriods(sectors, bench, rw, thr, symbols, ind), (r: ReversalLeaders) => r.date, bench, lookback);
  }
}
