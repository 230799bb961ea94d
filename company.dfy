/**
 * The company drill-down (company_analysis.py): every company of one sector
 * is fetched, measured against the Nifty 50 and either ranked by its
 * momentum score (the momentum tab) or classified as a reversal candidate
 * (the reversal tab).
 */
module Company {
  import opened Wrappers
  import opened Dicts
  import opened Series
  import Analysis
  import Config
  import Replay

  /** The benchmark's ticker. */
  const NiftySymbol: string := "^NSEI"

  /** A company's entry in the sector table: `{'name': …, 'weight': …}`, either key possibly missing. */
  datatype CompanyInfo = CompanyInfo(name: Option<string>, weight: Option<real>)

  /** The data fetcher: None when it raises or returns None. */
  type FetchFn = string -> Option<PriceSeries>

  /** Why a tab stops before it shows a table. */
  datatype TabError = NoSectorSelected | NoCompanyData | NoBenchmarkData | IndicatorRaised

  datatype TabResult<T> = Failure(error: TabError) | Success(report: T)

  // ---------------------------------------------------------------------------
  // Fetching

  /** A fetch that yields data the tabs keep: not None and not empty. */
  predicate Usable(d: Option<PriceSeries>) {
    d.Some? && |d.value| > 0
  }

  /** `companies_data`: the symbols whose fetch gave data, with that data, in list order. */
  function Fetched(symbols: seq<string>, fetch: FetchFn): (data: seq<(string, PriceSeries)>)
    ensures |data| <= |symbols|
  {
    if |symbols| == 0 then []
    else
      var s := symbols[|symbols| - 1];
      Fetched(symbols[..|symbols| - 1], fetch) + (if Usable(fetch(s)) then [(s, fetch(s).value)] else [])
  }

  /** `failed_companies`: the symbols whose fetch raised or gave nothing, in list order. */
  function FailedSymbols(symbols: seq<string>, fetch: FetchFn): (failed: seq<string>)
    ensures |failed| <= |symbols|
  {
    if |symbols| == 0 then []
    else
      var s := symbols[|symbols| - 1];
      FailedSymbols(symbols[..|symbols| - 1], fetch) + (if Usable(fetch(s)) then [] else [s])
  }

  /**
   * Every symbol lands in exactly one of the two lists: the kept data is
   * the symbol's own non-empty fetch, the failed ones are those whose
   * fetch gave nothing.
   */
  lemma {:induction false} FetchPartition(symbols: seq<string>, fetch: FetchFn)
    ensures |Fetched(symbols, fetch)| + |FailedSymbols(symbols, fetch)| == |symbols|
    ensures forall e :: e in Fetched(symbols, fetch) ==> e.0 in symbols && |e.1| > 0 && fetch(e.0) == Some(e.1)
    ensures forall s :: s in symbols && Usable(fetch(s)) ==> (s, fetch(s).value) in Fetched(symbols, fetch)
    ensures forall s :: s in FailedSymbols(symbols, fetch) <==> s in symbols && !Usable(fetch(s))
  {
    if |symbols| > 0 {
      var init := symbols[..|symbols| - 1];
      var s := symbols[|symbols| - 1];
      FetchPartition(init, fetch);
      assert symbols == init + [s];
    }
  }

  /** The fetch loop of both tabs. */
  method FetchCompanies(symbols: seq<string>, fetch: FetchFn) returns (data: seq<(string, PriceSeries)>, failed: seq<string>)
    ensures data == Fetched(symbols, fetch) && failed == FailedSymbols(symbols, fetch)
  {
    data, failed := [], [];
    for k := 0 to |symbols|
      invariant data == Fetched(symbols[..k], fetch) && failed == FailedSymbols(symbols[..k], fetch)
    {
      assert symbols[..k + 1][..k] == symbols[..k];
      var d := fetch(symbols[k]);
      if d.Some? && |d.value| > 0 {
        data := data + [(symbols[k], d.value)];
      } else {
        failed := failed + [symbols[k]];
      }
    }
    assert symbols[..|symbols|] == symbols;
  }

  // ---------------------------------------------------------------------------
  // A loop that stops at the first exception

  /** `[f(x) for x in xs]` where f may raise (None): None as soon as one call does. */
  function MapAll<A, B>(f: A -> Option<B>, xs: seq<A>): (r: Option<seq<B>>)
    ensures r.Some? ==> |r.value| == |xs|
  {
    if |xs| == 0 then Some([])
    else match MapAll(f, xs[..|xs| - 1])
      case None => None
      case Some(ys) => if f(xs[|xs| - 1]).None? then None else Some(ys + [f(xs[|xs| - 1]).value])
  }

  /** The whole loop raises exactly when one call does; otherwise result k is the value of call k. */
  lemma {:induction false} MapAllResults<A, B>(f: A -> Option<B>, xs: seq<A>)
    ensures MapAll(f, xs).None? <==> exists k :: 0 <= k < |xs| && f(xs[k]).None?
    ensures MapAll(f, xs).Some? ==> forall k :: 0 <= k < |xs| ==> f(xs[k]) == Some(MapAll(f, xs).value[k])
  {
    if |xs| > 0 {
      var init := xs[..|xs| - 1];
      MapAllResults(f, init);
      if MapAll(f, init).None? {
        var k :| 0 <= k < |init| && f(init[k]).None?;
        assert xs[k] == init[k];
      }
      if MapAll(f, xs).Some? {
        forall k | 0 <= k < |xs| ensures f(xs[k]) == Some(MapAll(f, xs).value[k]) {
          if k < |init| {
            assert xs[k] == init[k];
          }
        }
      }
    }
  }

  /** One more element extends the prefix's results, or raises. */
  lemma MapAllStep<A, B>(f: A -> Option<B>, xs: seq<A>, k: nat)
    requires k < |xs| && MapAll(f, xs[..k]).Some?
    ensures f(xs[k]).None? ==> MapAll(f, xs[..k + 1]).None?
    ensures f(xs[k]).Some? ==> MapAll(f, xs[..k + 1]) == Some(MapAll(f, xs[..k]).value + [f(xs[k]).value])
  {
    assert xs[..k + 1][..k] == xs[..k];
  }

  /** A raise part-way through ends the whole loop. */
  lemma {:induction false} MapAllFailureSticks<A, B>(f: A -> Option<B>, xs: seq<A>, k: nat)
    requires k <= |xs| && MapAll(f, xs[..k]).None?
    ensures MapAll(f, xs).None?
    decreases |xs| - k
  {
    if k < |xs| {
      assert xs[..k + 1][..k] == xs[..k];
      MapAllFailureSticks(f, xs, k + 1);
    } else {
      assert xs[..k] == xs;
    }
  }

  // ---------------------------------------------------------------------------
  // One company's figures

  /**
   * The company RS rating: aligned returns, neutral 5 with at most one
   * common timestamp. There is no not-a-number guard: a cumulative return
   * that is not a number makes `max(0, min(10, nan))`, which is 10.
   */
  function CompanyRsRating(data: PriceSeries, bench: PriceSeries): (r: real)
    ensures 0.0 <= r <= 10.0
    ensures CommonCount(Returns(data), Returns(bench)) <= 1 ==> r == 5.0
  {
    var sr := Returns(data);
    var br := Returns(bench);
    if CommonCount(sr, br) > 1 then
      match (CumulativeReturn(Restrict(sr, Stamps(br))), CumulativeReturn(Restrict(br, Stamps(sr))))
      case (Some(s), Some(t)) => Analysis.RatingFromPerformance(s - t)
      case _ => 10.0
    else 5.0
  }

  /**
   * Where both cumulative returns are numbers the company rating is the
   * replayers' inline rating; where one is not, the company rating is 10
   * and the inline rating the neutral 5.
   */
  lemma CompanyRsAgainstInline(data: PriceSeries, bench: PriceSeries)
    requires |bench| > 0
    ensures var sr := Returns(data);
            var br := Returns(bench);
            var numbers := CumulativeReturn(Restrict(sr, Stamps(br))).Some? && CumulativeReturn(Restrict(br, Stamps(sr))).Some?;
            (CommonCount(sr, br) <= 1 || numbers ==> CompanyRsRating(data, bench) == Replay.InlineRsRating(data, Some(bench)))
            && (CommonCount(sr, br) > 1 && !numbers ==>
                  CompanyRsRating(data, bench) == 10.0 && Replay.InlineRsRating(data, Some(bench)) == 5.0)
  {
    var sr := Returns(data);
    var br := Returns(bench);
    var a := Restrict(sr, Stamps(br));
    var b := Restrict(br, Stamps(sr));
    if CommonCount(sr, br) > 1 {
      assert Replay.InlineRsRating(data, Some(bench)) == Replay.AlignedRating(a, b);
    }
  }

  /**
   * The ADX Z-score as written: a scalar is never an `isinstance` of a
   * pandas Series, so the value is always dropped.
   */
  function AsWrittenAdxZ(v: Indicators): (z: Option<real>)
    ensures z.None?
  {
    None
  }

  /** The ADX Z-score as intended: the scalar the library returns. */
  function CompanyAdxZ(v: Indicators): (z: Option<real>)
    ensures z == Some(v.adxZ)
  {
    Some(v.adxZ)
  }

  /** `info.get('name', symbol)`. */
  function CompanyName(info: Dict<CompanyInfo>, symbol: string): string {
    Get(info, symbol, CompanyInfo(None, None)).name.GetOr(symbol)
  }

  /** `info.get('weight', 0)`, shown only when positive. */
  function ShownWeight(info: Dict<CompanyInfo>, symbol: string): (w: Option<real>)
    ensures w.Some? ==> w.value > 0.0
  {
    var weight := Get(info, symbol, CompanyInfo(None, None)).weight.GetOr(0.0);
    if weight > 0.0 then Some(weight) else None
  }

  // ---------------------------------------------------------------------------
  // The momentum tab

  /** One row of the momentum table, None standing for "N/A". */
  datatype CompanyRow = CompanyRow(company: string, symbol: string, price: real, changePct: real,
                                   momentum: real, mansfieldRs: real, rsRating: real,
                                   rsi: Option<real>, adx: Option<real>, adxZ: Option<real>,
                                   diSpread: Option<real>, cmf: Option<real>)

  /** The row of one company: its momentum score is its RS rating. */
  function MomentumRowOf(symbol: string, data: PriceSeries, info: Dict<CompanyInfo>, bench: PriceSeries,
                         v: Indicators, adxZOf: Indicators -> Option<real>): (row: CompanyRow)
    ensures MomentumFacts(row) && row.adxZ == adxZOf(v)
  {
    var rs := CompanyRsRating(data, bench);
    CompanyRow(CompanyName(info, symbol), symbol, LastClose(data), ChangePct(data), rs, v.mansfieldRs, rs,
               v.rsi, v.adx, adxZOf(v), v.diSpread, v.cmf)
  }

  /** The momentum score is the RS rating, on the 0-10 scale. */
  predicate MomentumFacts(r: CompanyRow) {
    r.momentum == r.rsRating && 0.0 <= r.momentum <= 10.0
  }

  /** The loop body of the momentum tab: the indicator library may raise (None). */
  function MomentumRowAt(info: Dict<CompanyInfo>, bench: PriceSeries, ind: IndicatorFn,
                         adxZOf: Indicators -> Option<real>): ((string, PriceSeries)) -> Option<CompanyRow>
  {
    (e: (string, PriceSeries)) => match ind(e.1, Some(bench))
         case None => None
         case Some(v) => Some(MomentumRowOf(e.0, e.1, info, bench, v, adxZOf))
  }

  /** The analysis loop of the momentum tab. */
  method AnalyseCompanies(data: seq<(string, PriceSeries)>, info: Dict<CompanyInfo>, bench: PriceSeries, ind: IndicatorFn)
    returns (rows: Option<seq<CompanyRow>>)
    ensures rows == MapAll(MomentumRowAt(info, bench, ind, CompanyAdxZ), data)
  {
    ghost var f := MomentumRowAt(info, bench, ind, CompanyAdxZ);
    var acc: seq<CompanyRow> := [];
    for k := 0 to |data|
      invariant MapAll(f, data[..k]) == Some(acc)
    {
      var (symbol, series) := data[k];
      var v := ind(series, Some(bench));
      MapAllStep(f, data, k);
      if v.None? {
        MapAllFailureSticks(f, data, k + 1);
        return None;
      }
      acc := acc + [MomentumRowOf(symbol, series, info, bench, v.value, CompanyAdxZ)];
    }
    assert data[..|data|] == data;
    return Some(acc);
  }

  /** Rows in descending momentum order. */
  predicate SortedByMomentum(rows: seq<CompanyRow>) {
    forall i, j :: 0 <= i < j < |rows| ==> rows[i].momentum >= rows[j].momentum
  }

  /** Insert a row ahead of every row it does not score below. */
  function InsertByMomentum(x: CompanyRow, rows: seq<CompanyRow>): (r: seq<CompanyRow>)
    ensures |r| == |rows| + 1
  {
    if |rows| == 0 || x.momentum >= rows[0].momentum then [x] + rows
    else [rows[0]] + InsertByMomentum(x, rows[1..])
  }

  /** Insertion adds the row and nothing else. */
  lemma {:induction false} InsertAdds(x: CompanyRow, rows: seq<CompanyRow>)
    ensures multiset(InsertByMomentum(x, rows)) == multiset(rows) + multiset{x}
  {
    if |rows| > 0 && x.momentum < rows[0].momentum {
      InsertAdds(x, rows[1..]);
      assert rows == [rows[0]] + rows[1..];
    }
  }

  /** Insertion keeps every score at most a bound that the row and the rows respect. */
  lemma {:induction false} InsertBelow(x: CompanyRow, rows: seq<CompanyRow>, m: real)
    requires x.momentum <= m && forall k :: 0 <= k < |rows| ==> rows[k].momentum <= m
    ensures forall k :: 0 <= k < |rows| + 1 ==> InsertByMomentum(x, rows)[k].momentum <= m
  {
    if |rows| > 0 && x.momentum < rows[0].momentum {
      InsertBelow(x, rows[1..], m);
    }
  }

  lemma {:induction false} InsertKeepsOrder(x: CompanyRow, rows: seq<CompanyRow>)
    requires SortedByMomentum(rows)
    ensures SortedByMomentum(InsertByMomentum(x, rows))
    ensures multiset(InsertByMomentum(x, rows)) == multiset(rows) + multiset{x}
  {
    InsertAdds(x, rows);
    if |rows| > 0 && x.momentum < rows[0].momentum {
      InsertKeepsOrder(x, rows[1..]);
      InsertBelow(x, rows[1..], rows[0].momentum);
    }
  }

  /** `sort_values('_score_float', ascending=False)`, earlier rows first among equal scores. */
  function SortByMomentum(rows: seq<CompanyRow>): (r: seq<CompanyRow>)
    ensures |r| == |rows|
  {
    if |rows| == 0 then [] else InsertByMomentum(rows[0], SortByMomentum(rows[1..]))
  }

  /** The sort puts the rows in descending momentum order and neither loses nor adds one. */
  lemma {:induction false} SortByMomentumSorts(rows: seq<CompanyRow>)
    ensures SortedByMomentum(SortByMomentum(rows))
    ensures multiset(SortByMomentum(rows)) == multiset(rows)
  {
    if |rows| > 0 {
      SortByMomentumSorts(rows[1..]);
      InsertKeepsOrder(rows[0], SortByMomentum(rows[1..]));
      assert rows == [rows[0]] + rows[1..];
    }
  }

  datatype RankedRow = RankedRow(rank: nat, row: CompanyRow)

  /** `df['Rank'] = range(1, len(df) + 1)` on the sorted rows. */
  method AssignRanks(sorted: seq<CompanyRow>) returns (ranked: seq<RankedRow>)
    ensures |ranked| == |sorted|
    ensures forall k :: 0 <= k < |sorted| ==> ranked[k] == RankedRow(k + 1, sorted[k])
  {
    ranked := [];
    for k := 0 to |sorted|
      invariant |ranked| == k && forall j :: 0 <= j < k ==> ranked[j] == RankedRow(j + 1, sorted[j])
    {
      ranked := ranked + [RankedRow(k + 1, sorted[k])];
    }
  }

  /** The ranked table as a value. */
  function Ranked(sorted: seq<CompanyRow>): (ranked: seq<RankedRow>)
    ensures |ranked| == |sorted| && forall k :: 0 <= k < |sorted| ==> ranked[k] == RankedRow(k + 1, sorted[k])
  {
    seq(|sorted|, k requires 0 <= k < |sorted| => RankedRow(k + 1, sorted[k]))
  }

  function RowsOf(ranked: seq<RankedRow>): (rows: seq<CompanyRow>)
    ensures |rows| == |ranked| && forall k :: 0 <= k < |ranked| ==> rows[k] == ranked[k].row
  {
    seq(|ranked|, k requires 0 <= k < |ranked| => ranked[k].row)
  }

  /**
   * The ranks run 1..N without gaps or repeats, a better rank never has a
   * lower score, and the ranked rows are the analysed rows.
   */
  lemma RankedByMomentum(rows: seq<CompanyRow>)
    ensures var ranked := Ranked(SortByMomentum(rows));
            (forall k :: 0 <= k < |ranked| ==> ranked[k].rank == k + 1)
            && (forall a, b :: 0 <= a < |ranked| && 0 <= b < |ranked| && ranked[a].rank < ranked[b].rank ==>
                  ranked[a].row.momentum >= ranked[b].row.momentum)
            && multiset(RowsOf(ranked)) == multiset(rows)
  {
    SortByMomentumSorts(rows);
    assert RowsOf(Ranked(SortByMomentum(rows))) == SortByMomentum(rows);
  }

  // Summary figures

  function Sum(xs: seq<real>): real {
    if |xs| == 0 then 0.0 else xs[0] + Sum(xs[1..])
  }

  /** `max(xs) if xs else 0`. */
  function Highest(xs: seq<real>): (m: real)
    ensures |xs| == 0 ==> m == 0.0
    ensures |xs| > 0 ==> m in xs && forall k :: 0 <= k < |xs| ==> xs[k] <= m
  {
    if |xs| <= 1 then (if |xs| == 0 then 0.0 else xs[0])
    else
      var rest := Highest(xs[1..]);
      assert forall k :: 1 <= k < |xs| ==> xs[k] == xs[1..][k - 1];
      if xs[0] >= rest then xs[0] else rest
  }

  /** `sum(xs) / len(xs) if xs else 0`. */
  function Average(xs: seq<real>): real {
    if |xs| == 0 then 0.0 else Sum(xs) / |xs| as real
  }

  /** Scores on the 0-10 scale sum to between 0 and 10 per score. */
  lemma {:induction false} SumOnScale(xs: seq<real>)
    requires forall k :: 0 <= k < |xs| ==> 0.0 <= xs[k] <= 10.0
    ensures 0.0 <= Sum(xs) <= 10.0 * |xs| as real
  {
    if |xs| > 0 {
      assert forall k :: 0 <= k < |xs[1..]| ==> xs[1..][k] == xs[k + 1];
      SumOnScale(xs[1..]);
    }
  }

  /** A total between 0 and 10 per score, divided by the number of scores, lies between 0 and 10. */
  lemma DivWithin(total: real, n: nat)
    requires n > 0 && 0.0 <= total <= 10.0 * n as real
    ensures 0.0 <= total / n as real <= 10.0
  {
  }

  /** The average and the highest of scores on the 0-10 scale are on the scale too. */
  lemma SummaryOnScale(xs: seq<real>)
    requires |xs| > 0 && forall k :: 0 <= k < |xs| ==> 0.0 <= xs[k] <= 10.0
    ensures 0.0 <= Average(xs) <= 10.0 && 0.0 <= Highest(xs) <= 10.0
  {
    SumOnScale(xs);
    DivWithin(Sum(xs), |xs|);
  }

  function Scores(rows: seq<CompanyRow>): (s: seq<real>)
    ensures |s| == |rows| && forall k :: 0 <= k < |rows| ==> s[k] == rows[k].momentum
  {
    seq(|rows|, k requires 0 <= k < |rows| => rows[k].momentum)
  }

  /** The sector's CMF sum: only rows whose CMF is not "N/A" contribute. */
  function CmfSum(rows: seq<CompanyRow>): real {
    if |rows| == 0 then 0.0 else rows[0].cmf.GetOr(0.0) + CmfSum(rows[1..])
  }

  /** The sum splits over a concatenation, and rows without a CMF add nothing. */
  lemma {:induction false} CmfSumSplits(a: seq<CompanyRow>, b: seq<CompanyRow>)
    ensures CmfSum(a + b) == CmfSum(a) + CmfSum(b)
    ensures (forall k :: 0 <= k < |a| ==> a[k].cmf.None?) ==> CmfSum(a + b) == CmfSum(b)
  {
    if |a| == 0 {
      assert a + b == b;
    } else {
      assert (a + b)[1..] == a[1..] + b;
      CmfSumSplits(a[1..], b);
      if forall k :: 0 <= k < |a| ==> a[k].cmf.None? {
        assert forall k :: 0 <= k < |a[1..]| ==> a[1..][k] == a[k + 1];
      }
    }
  }

  datatype MomentumReport = MomentumReport(ranked: seq<RankedRow>, failed: seq<string>, analysed: nat,
                                           average: real, highest: real, cmfSum: real, inflow: bool)

  function MomentumReportOf(rows: seq<CompanyRow>, failed: seq<string>): MomentumReport {
    var cmf := CmfSum(rows);
    MomentumReport(Ranked(SortByMomentum(rows)), failed, |rows|, Average(Scores(rows)), Highest(Scores(rows)),
                   cmf, cmf > 0.0)
  }

  /** `selected_sector`: None or "" when nothing is selected. */
  predicate Selected(sector: Option<string>) {
    sector.Some? && sector.value != ""
  }

  /** The symbols of the sector's table, `list(SECTOR_COMPANIES.get(sector, {}).keys())`. */
  function SymbolsOf(info: Dict<CompanyInfo>): (s: seq<string>)
    ensures |s| == |info| && forall k :: 0 <= k < |info| ==> s[k] == info[k].0
  {
    seq(|info|, k requires 0 <= k < |info| => info[k].0)
  }

  /** `display_company_momentum_tab` without its display. */
  function MomentumTab(sector: Option<string>, table: Dict<Dict<CompanyInfo>>, fetch: FetchFn, ind: IndicatorFn,
                       adxZOf: Indicators -> Option<real>): TabResult<MomentumReport>
  {
    if !Selected(sector) then Failure(NoSectorSelected)
    else
      var info := Get(table, sector.value, []);
      var symbols := SymbolsOf(info);
      var data := Fetched(symbols, fetch);
      if |data| == 0 then Failure(NoCompanyData)
      else if !Usable(fetch(NiftySymbol)) then Failure(NoBenchmarkData)
      else match MapAll(MomentumRowAt(info, fetch(NiftySymbol).value, ind, adxZOf), data)
        case None => Failure(IndicatorRaised)
        case Some(rows) => Success(MomentumReportOf(rows, FailedSymbols(symbols, fetch)))
  }

  /** The momentum tab, step by step. */
  method CompanyMomentumTab(sector: Option<string>, table: Dict<Dict<CompanyInfo>>, fetch: FetchFn, ind: IndicatorFn)
    returns (result: TabResult<MomentumReport>)
    ensures result == MomentumTab(sector, table, fetch, ind, CompanyAdxZ)
  {
    if sector.None? || sector.value == "" {
      return Failure(NoSectorSelected);
    }
    var info := Get(table, sector.value, []);
    var data, failed := FetchCompanies(SymbolsOf(info), fetch);
    if data == [] {
      return Failure(NoCompanyData);
    }
    var bench := fetch(NiftySymbol);
    if bench.None? || |bench.value| == 0 {
      return Failure(NoBenchmarkData);
    }
    var rows := AnalyseCompanies(data, info, bench.value, ind);
    if rows.None? {
      return Failure(IndicatorRaised);
    }
    var ranked := AssignRanks(SortByMomentum(rows.value));
    assert ranked == Ranked(SortByMomentum(rows.value));
    var cmf := CmfSum(rows.value);
    var scores := Scores(rows.value);
    return Success(MomentumReport(ranked, failed, |rows.value|, Average(scores), Highest(scores), cmf, cmf > 0.0));
  }

  /** Every result of a loop that did not raise has a property every call's value has. */
  lemma MapAllKeeps<A, B>(f: A -> Option<B>, xs: seq<A>, p: B -> bool)
    requires MapAll(f, xs).Some? && forall x :: f(x).Some? ==> p(f(x).value)
    ensures forall k :: 0 <= k < |xs| ==> p(MapAll(f, xs).value[k])
  {
    MapAllResults(f, xs);
  }

  /** Sorting keeps any property every row has. */
  lemma SortKeeps(rows: seq<CompanyRow>, p: CompanyRow -> bool)
    requires forall k :: 0 <= k < |rows| ==> p(rows[k])
    ensures forall k :: 0 <= k < |rows| ==> p(SortByMomentum(rows)[k])
  {
    SortByMomentumSorts(rows);
    forall k | 0 <= k < |rows| ensures p(SortByMomentum(rows)[k]) {
      assert SortByMomentum(rows)[k] in multiset(rows);
      var j :| 0 <= j < |rows| && rows[j] == SortByMomentum(rows)[k];
    }
  }

  /** A row whose momentum score is its RS rating and whose ADX Z-score is shown or not. */
  predicate RowFacts(r: CompanyRow, shown: bool) {
    MomentumFacts(r) && r.adxZ.Some? == shown
  }

  /** Each company's row has the facts, whichever way the ADX Z-score is read. */
  lemma RowAtFacts(info: Dict<CompanyInfo>, bench: PriceSeries, ind: IndicatorFn,
                   adxZOf: Indicators -> Option<real>, shown: bool)
    requires forall v :: adxZOf(v).Some? == shown
    ensures forall e :: MomentumRowAt(info, bench, ind, adxZOf)(e).Some? ==>
              RowFacts(MomentumRowAt(info, bench, ind, adxZOf)(e).value, shown)
  {
    forall e | MomentumRowAt(info, bench, ind, adxZOf)(e).Some?
      ensures RowFacts(MomentumRowAt(info, bench, ind, adxZOf)(e).value, shown)
    {
      var v := ind(e.1, Some(bench)).value;
      assert MomentumRowAt(info, bench, ind, adxZOf)(e).value == MomentumRowOf(e.0, e.1, info, bench, v, adxZOf);
    }
  }

  /** The ranked table and the summary figures of analysed rows. */
  lemma ReportOfRows(rows: seq<CompanyRow>, failed: seq<string>, shown: bool)
    requires |rows| > 0 && forall k :: 0 <= k < |rows| ==> RowFacts(rows[k], shown)
    ensures var report := MomentumReportOf(rows, failed);
            var ranked := report.ranked;
            report.analysed == |ranked| == |rows| && report.failed == failed
            && (forall k :: 0 <= k < |ranked| ==> ranked[k].rank == k + 1)
            && (forall a, b :: 0 <= a < |ranked| && 0 <= b < |ranked| && ranked[a].rank < ranked[b].rank ==>
                  ranked[a].row.momentum >= ranked[b].row.momentum)
            && multiset(RowsOf(ranked)) == multiset(rows)
            && (forall k :: 0 <= k < |ranked| ==> RowFacts(ranked[k].row, shown))
            && 0.0 <= report.average <= 10.0 && 0.0 <= report.highest <= 10.0
            && (report.inflow <==> report.cmfSum > 0.0)
  {
    RankedByMomentum(rows);
    SortKeeps(rows, (r: CompanyRow) => RowFacts(r, shown));
    var scores := Scores(rows);
    assert forall k :: 0 <= k < |scores| ==> 0.0 <= scores[k] <= 10.0 by {
      forall k | 0 <= k < |scores| ensures 0.0 <= scores[k] <= 10.0 {
        assert RowFacts(rows[k], shown);
      }
    }
    SummaryOnScale(scores);
  }

  /** The rows the momentum tab ranks, when it succeeds. */
  lemma MomentumTabRows(sector: Option<string>, table: Dict<Dict<CompanyInfo>>, fetch: FetchFn, ind: IndicatorFn,
                        adxZOf: Indicators -> Option<real>, shown: bool)
    requires MomentumTab(sector, table, fetch, ind, adxZOf).Success?
    requires forall v :: adxZOf(v).Some? == shown
    ensures var info := Get(table, sector.value, []);
            var symbols := SymbolsOf(info);
            var data := Fetched(symbols, fetch);
            var all := MapAll(MomentumRowAt(info, fetch(NiftySymbol).value, ind, adxZOf), data);
            |data| > 0 && all.Some?
            && MomentumTab(sector, table, fetch, ind, adxZOf).report == MomentumReportOf(all.value, FailedSymbols(symbols, fetch))
            && forall k :: 0 <= k < |all.value| ==> RowFacts(all.value[k], shown)
  {
    var info := Get(table, sector.value, []);
    var f := MomentumRowAt(info, fetch(NiftySymbol).value, ind, adxZOf);
    RowAtFacts(info, fetch(NiftySymbol).value, ind, adxZOf, shown);
    MapAllKeeps(f, Fetched(SymbolsOf(info), fetch), (r: CompanyRow) => RowFacts(r, shown));
  }

  /**
   * What the momentum tab shows: one row per company with data, ranked
   * 1..N by descending momentum score; each momentum score is the
   * company's RS rating, in [0, 10], and each ADX Z-score is shown; the
   * average and the highest score lie in [0, 10]; the flow reads
   * "Inflow" exactly when the CMF sum is positive.
   */
  lemma MomentumTabShows(sector: Option<string>, table: Dict<Dict<CompanyInfo>>, fetch: FetchFn, ind: IndicatorFn)
    requires MomentumTab(sector, table, fetch, ind, CompanyAdxZ).Success?
    ensures var info := Get(table, sector.value, []);
            var report := MomentumTab(sector, table, fetch, ind, CompanyAdxZ).report;
            var ranked := report.ranked;
            report.analysed == |ranked| == |Fetched(SymbolsOf(info), fetch)| > 0
            && report.analysed + |report.failed| == |info|
            && (forall k :: 0 <= k < |ranked| ==> ranked[k].rank == k + 1)
            && (forall a, b :: 0 <= a < |ranked| && 0 <= b < |ranked| && ranked[a].rank < ranked[b].rank ==>
                  ranked[a].row.momentum >= ranked[b].row.momentum)
            && (forall k :: 0 <= k < |ranked| ==>
                  ranked[k].row.momentum == ranked[k].row.rsRating && 0.0 <= ranked[k].row.momentum <= 10.0
                  && ranked[k].row.adxZ.Some?)
            && 0.0 <= report.average <= 10.0 && 0.0 <= report.highest <= 10.0
            && (report.inflow <==> report.cmfSum > 0.0)
  {
    var info := Get(table, sector.value, []);
    var symbols := SymbolsOf(info);
    var data := Fetched(symbols, fetch);
    MomentumTabRows(sector, table, fetch, ind, CompanyAdxZ, true);
    var rows := MapAll(MomentumRowAt(info, fetch(NiftySymbol).value, ind, CompanyAdxZ), data).value;
    FetchPartition(symbols, fetch);
    ReportOfRows(rows, FailedSymbols(symbols, fetch), true);
  }

  /** As written no row of the momentum table has an ADX Z-score: the column is always "N/A". */
  lemma AsWrittenMomentumAdxZMissing(sector: Option<string>, table: Dict<Dict<CompanyInfo>>, fetch: FetchFn, ind: IndicatorFn)
    requires MomentumTab(sector, table, fetch, ind, AsWrittenAdxZ).Success?
    ensures var ranked := MomentumTab(sector, table, fetch, ind, AsWrittenAdxZ).report.ranked;
            forall k :: 0 <= k < |ranked| ==> ranked[k].row.adxZ.None?
  {
    var info := Get(table, sector.value, []);
    var symbols := SymbolsOf(info);
    MomentumTabRows(sector, table, fetch, ind, AsWrittenAdxZ, false);
    var rows := MapAll(MomentumRowAt(info, fetch(NiftySymbol).value, ind, AsWrittenAdxZ), Fetched(symbols, fetch)).value;
    ReportOfRows(rows, FailedSymbols(symbols, fetch), false);
  }

  // ---------------------------------------------------------------------------
  // The reversal tab

  /**
   * The company reversal status: "No" unless RSI, ADX Z-score and CMF are
   * all numbers; then "BUY_DIV" below 40, -0.5 and above 0.1, else
   * "Watch" below 50, 0.5 and above 0.
   */
  function CompanyStatus(rsi: Option<real>, adxZ: Option<real>, cmf: Option<real>): (s: Analysis.Status)
    ensures rsi.None? || adxZ.None? || cmf.None? ==> s == Analysis.No
  {
    if rsi.Some? && adxZ.Some? && cmf.Some? then
      if rsi.value < 40.0 && adxZ.value < -0.5 && cmf.value > 0.1 then Analysis.BuyDiv
      else if rsi.value < 50.0 && adxZ.value < 0.5 && cmf.value > 0.0 then Analysis.Watch
      else Analysis.No
    else Analysis.No
  }

  /**
   * The company status follows the two tiers of the configuration, and on
   * three numbers agrees with the sector analyser's status without
   * thresholds.
   */
  lemma CompanyStatusTiers(rsi: Option<real>, adxZ: Option<real>, cmf: Option<real>)
    ensures CompanyStatus(rsi, adxZ, cmf) == Analysis.BuyDiv <==>
              rsi.Some? && adxZ.Some? && cmf.Some? && Config.Meets(Config.ReversalBuyDiv, rsi.value, adxZ.value, cmf.value)
    ensures CompanyStatus(rsi, adxZ, cmf) == Analysis.Watch <==>
              rsi.Some? && adxZ.Some? && cmf.Some? && !Config.Meets(Config.ReversalBuyDiv, rsi.value, adxZ.value, cmf.value)
              && Config.Meets(Config.ReversalWatch, rsi.value, adxZ.value, cmf.value)
    ensures rsi.Some? && adxZ.Some? && cmf.Some? ==>
              CompanyStatus(rsi, adxZ, cmf) == Analysis.ReversalStatus(rsi.value, adxZ.value, cmf.value, None)
  {
  }

  /** One row of the reversal table. */
  datatype ReversalRow = ReversalRow(company: string, symbol: string, price: real, changePct: real,
                                     weight: Option<real>, status: Analysis.Status,
                                     rsi: Option<real>, adxZ: Option<real>, cmf: Option<real>, mansfieldRs: real)

  function ReversalRowOf(symbol: string, data: PriceSeries, info: Dict<CompanyInfo>, v: Indicators,
                         adxZOf: Indicators -> Option<real>): (row: ReversalRow)
  {
    ReversalRow(CompanyName(info, symbol), symbol, LastClose(data), ChangePct(data), ShownWeight(info, symbol),
                CompanyStatus(v.rsi, adxZOf(v), v.cmf), v.rsi, adxZOf(v), v.cmf, v.mansfieldRs)
  }

  /** The loop body of the reversal tab, before the status filter. */
  function ReversalRowAt(info: Dict<CompanyInfo>, bench: PriceSeries, ind: IndicatorFn,
                         adxZOf: Indicators -> Option<real>): ((string, PriceSeries)) -> Option<ReversalRow>
  {
    (e: (string, PriceSeries)) => match ind(e.1, Some(bench))
         case None => None
         case Some(v) => Some(ReversalRowOf(e.0, e.1, info, v, adxZOf))
  }

  /** `if status != "No"`: the rows that are shown, in company order. */
  function Candidates(rows: seq<ReversalRow>): (c: seq<ReversalRow>)
    ensures |c| <= |rows|
    ensures forall r :: r in c ==> r in rows && r.status != Analysis.No
  {
    if |rows| == 0 then []
    else Candidates(rows[..|rows| - 1]) + (if rows[|rows| - 1].status != Analysis.No then [rows[|rows| - 1]] else [])
  }

  /** A row is shown exactly when its status is not "No". */
  lemma {:induction false} CandidatesExactly(rows: seq<ReversalRow>)
    ensures forall r :: r in Candidates(rows) <==> r in rows && r.status != Analysis.No
  {
    if |rows| > 0 {
      var init := rows[..|rows| - 1];
      CandidatesExactly(init);
      assert rows == init + [rows[|rows| - 1]];
    }
  }

  /** The analysis loop of the reversal tab, which keeps only the candidates. */
  method AssessCompanies(data: seq<(string, PriceSeries)>, info: Dict<CompanyInfo>, bench: PriceSeries, ind: IndicatorFn)
    returns (rows: Option<seq<ReversalRow>>)
    ensures var all := MapAll(ReversalRowAt(info, bench, ind, CompanyAdxZ), data);
            rows.None? == all.None? && (rows.Some? ==> rows.value == Candidates(all.value))
  {
    ghost var f := ReversalRowAt(info, bench, ind, CompanyAdxZ);
    ghost var all: seq<ReversalRow> := [];
    var acc: seq<ReversalRow> := [];
    for k := 0 to |data|
      invariant MapAll(f, data[..k]) == Some(all) && acc == Candidates(all)
    {
      var (symbol, series) := data[k];
      var v := ind(series, Some(bench));
      MapAllStep(f, data, k);
      if v.None? {
        MapAllFailureSticks(f, data, k + 1);
        return None;
      }
      var row := ReversalRowOf(symbol, series, info, v.value, CompanyAdxZ);
      assert (all + [row])[..|all|] == all;
      all := all + [row];
      if row.status != Analysis.No {
        acc := acc + [row];
      }
    }
    assert data[..|data|] == data;
    return Some(acc);
  }

  /** `sum(1 for r in rows if r['Status'] == status)`. */
  function CountStatus(rows: seq<ReversalRow>, s: Analysis.Status): nat {
    if |rows| == 0 then 0 else (if rows[0].status == s then 1 else 0) + CountStatus(rows[1..], s)
  }

  /** Among rows none of which is "No", the BUY_DIV and Watch counts make up the total. */
  lemma {:induction false} CountsMakeTotal(rows: seq<ReversalRow>)
    requires forall r :: r in rows ==> r.status != Analysis.No
    ensures CountStatus(rows, Analysis.BuyDiv) + CountStatus(rows, Analysis.Watch) == |rows|
  {
    if |rows| > 0 {
      assert rows[0] in rows;
      assert forall r :: r in rows[1..] ==> r in rows;
      CountsMakeTotal(rows[1..]);
    }
  }

  datatype ReversalReport = ReversalReport(rows: seq<ReversalRow>, failed: seq<string>, buyDiv: nat, watch: nat)

  function ReversalReportOf(rows: seq<ReversalRow>, failed: seq<string>): ReversalReport {
    ReversalReport(rows, failed, CountStatus(rows, Analysis.BuyDiv), CountStatus(rows, Analysis.Watch))
  }

  /** `display_company_reversal_tab` without its display. */
  function ReversalTab(sector: Option<string>, table: Dict<Dict<CompanyInfo>>, fetch: FetchFn, ind: IndicatorFn,
                       adxZOf: Indicators -> Option<real>): TabResult<ReversalReport>
  {
    if !Selected(sector) then Failure(NoSectorSelected)
    else
      var info := Get(table, sector.value, []);
      var symbols := SymbolsOf(info);
      var data := Fetched(symbols, fetch);
      if |data| == 0 then Failure(NoCompanyData)
      else if !Usable(fetch(NiftySymbol)) then Failure(NoBenchmarkData)
      else match MapAll(ReversalRowAt(info, fetch(NiftySymbol).value, ind, adxZOf), data)
        case None => Failure(IndicatorRaised)
        case Some(all) => Success(ReversalReportOf(Candidates(all), FailedSymbols(symbols, fetch)))
  }

  /** The reversal tab, step by step. */
  method CompanyReversalTab(sector: Option<string>, table: Dict<Dict<CompanyInfo>>, fetch: FetchFn, ind: IndicatorFn)
    returns (result: TabResult<ReversalReport>)
    ensures result == ReversalTab(sector, table, fetch, ind, CompanyAdxZ)
  {
    if sector.None? || sector.value == "" {
      return Failure(NoSectorSelected);
    }
    var info := Get(table, sector.value, []);
    var data, failed := FetchCompanies(SymbolsOf(info), fetch);
    if data == [] {
      return Failure(NoCompanyData);
    }
    var bench := fetch(NiftySymbol);
    if bench.None? || |bench.value| == 0 {
      return Failure(NoBenchmarkData);
    }
    var rows := AssessCompanies(data, info, bench.value, ind);
    if rows.None? {
      return Failure(IndicatorRaised);
    }
    return Success(ReversalReportOf(rows.value, failed));
  }

  /**
   * What the reversal tab shows: exactly the companies with data whose
   * status is not "No", each with the status of its own RSI, ADX Z-score
   * and CMF, and BUY_DIV and Watch counts that add up to the total.
   */
  lemma ReversalTabShows(sector: Option<string>, table: Dict<Dict<CompanyInfo>>, fetch: FetchFn, ind: IndicatorFn)
    requires ReversalTab(sector, table, fetch, ind, CompanyAdxZ).Success?
    ensures var info := Get(table, sector.value, []);
            var data := Fetched(SymbolsOf(info), fetch);
            var all := MapAll(ReversalRowAt(info, fetch(NiftySymbol).value, ind, CompanyAdxZ), data).value;
            var report := ReversalTab(sector, table, fetch, ind, CompanyAdxZ).report;
            (forall r :: r in report.rows <==> r in all && r.status != Analysis.No)
            && (forall r :: r in report.rows ==> r.status == CompanyStatus(r.rsi, r.adxZ, r.cmf) && r.adxZ.Some?)
            && report.buyDiv + report.watch == |report.rows|
  {
    var info := Get(table, sector.value, []);
    var data := Fetched(SymbolsOf(info), fetch);
    var bench := fetch(NiftySymbol).value;
    var f := ReversalRowAt(info, bench, ind, CompanyAdxZ);
    var all := MapAll(f, data).value;
    ReversalRowAtFacts(info, bench, ind, CompanyAdxZ, true);
    MapAllKeeps(f, data, (r: ReversalRow) => ReversalFacts(r, true));
    CandidatesExactly(all);
    CountsMakeTotal(Candidates(all));
    forall r | r in Candidates(all) ensures ReversalFacts(r, true) {
      var j :| 0 <= j < |all| && all[j] == r;
    }
  }

  /** A row whose status is that of its own figures, with its ADX Z-score shown or not. */
  predicate ReversalFacts(r: ReversalRow, shown: bool) {
    r.status == CompanyStatus(r.rsi, r.adxZ, r.cmf) && r.adxZ.Some? == shown
  }

  lemma ReversalRowAtFacts(info: Dict<CompanyInfo>, bench: PriceSeries, ind: IndicatorFn,
                           adxZOf: Indicators -> Option<real>, shown: bool)
    requires forall v :: adxZOf(v).Some? == shown
    ensures forall e :: ReversalRowAt(info, bench, ind, adxZOf)(e).Some? ==>
              ReversalFacts(ReversalRowAt(info, bench, ind, adxZOf)(e).value, shown)
  {
    forall e | ReversalRowAt(info, bench, ind, adxZOf)(e).Some?
      ensures ReversalFacts(ReversalRowAt(info, bench, ind, adxZOf)(e).value, shown)
    {
      var v := ind(e.1, Some(bench)).value;
      assert ReversalRowAt(info, bench, ind, adxZOf)(e).value == ReversalRowOf(e.0, e.1, info, v, adxZOf);
    }
  }

  /** As written the status never leaves "No", so the reversal tab never shows a candidate. */
  lemma AsWrittenReversalTabEmpty(sector: Option<string>, table: Dict<Dict<CompanyInfo>>, fetch: FetchFn, ind: IndicatorFn)
    requires ReversalTab(sector, table, fetch, ind, AsWrittenAdxZ).Success?
    ensures ReversalTab(sector, table, fetch, ind, AsWrittenAdxZ).report.rows == []
  {
    var info := Get(table, sector.value, []);
    var data := Fetched(SymbolsOf(info), fetch);
    var bench := fetch(NiftySymbol).value;
    var f := ReversalRowAt(info, bench, ind, AsWrittenAdxZ);
    var all := MapAll(f, data).value;
    ReversalRowAtFacts(info, bench, ind, AsWrittenAdxZ, false);
    MapAllKeeps(f, data, (r: ReversalRow) => ReversalFacts(r, false));
    CandidatesExactly(all);
  }

  /**
   * RSI 30, ADX Z-score -1 and CMF 0.2 meet BUY_DIV: the company's row is
   * BUY_DIV as intended, and "No", so never shown, as written.
   */
  lemma OversoldCompanyDropped(symbol: string, data: PriceSeries, info: Dict<CompanyInfo>)
    ensures var v := Indicators(Some(30.0), Some(10.0), Some(0.0), Some(0.2), -1.0, 0.0);
            ReversalRowOf(symbol, data, info, v, CompanyAdxZ).status == Analysis.BuyDiv
            && ReversalRowOf(symbol, data, info, v, AsWrittenAdxZ).status == Analysis.No
  {
  }
}
