/**
 * Price series as the core receives them from the data-fetch layer, the
 * return series derived from them, and the interface to the indicator
 * library, whose numerics this model does not reproduce.
 */
module Series {
  import opened Wrappers

  /** One OHLCV observation. */
  datatype Bar = Bar(time: int, open: real, high: real, low: real, close: real, volume: real)

  type PriceSeries = seq<Bar>

  /** Bars ascend strictly by timestamp (no duplicates, no disorder). */
  ghost predicate Chronological(s: PriceSeries) {
    forall i, j :: 0 <= i < j < |s| ==> s[i].time < s[j].time
  }

  /** One bar-to-bar return, stamped with the later bar's time; None when it is not a number. */
  datatype Return = Return(time: int, value: Option<real>)

  /** The return from bar k-1 to bar k, `close[k] / close[k-1] - 1`. */
  function ReturnAt(s: PriceSeries, k: nat): (r: Return)
    requires 1 <= k < |s|
    ensures r.time == s[k].time
    ensures r.value.None? <==> s[k - 1].close == 0.0
    ensures r.value.Some? ==> s[k - 1].close * (1.0 + r.value.value) == s[k].close
  {
    var prev := s[k - 1].close;
    Return(s[k].time, if prev == 0.0 then None else Some(s[k].close / prev - 1.0))
  }

  /** `s['Close'].pct_change().dropna()`: one return per bar after the first. */
  function Returns(s: PriceSeries): (r: seq<Return>)
    ensures |s| > 0 ==> |r| == |s| - 1
    ensures |s| == 0 ==> r == []
    ensures forall k :: 0 <= k < |r| ==> r[k] == ReturnAt(s, k + 1)
  {
    if |s| == 0 then [] else seq(|s| - 1, k requires 0 <= k < |s| - 1 => ReturnAt(s, k + 1))
  }

  /** The timestamps of a return series (a pandas index). */
  function Stamps(r: seq<Return>): set<int> {
    set k | 0 <= k < |r| :: r[k].time
  }

  ghost predicate DistinctStamps(r: seq<Return>) {
    forall i, j :: 0 <= i < j < |r| ==> r[i].time != r[j].time
  }

  /** `r.loc[index]` for an index drawn from `times`: the entries stamped in `times`, in order. */
  function Restrict(r: seq<Return>, times: set<int>): (q: seq<Return>)
    ensures |q| <= |r|
    ensures forall x :: x in q ==> x in r && x.time in times
  {
    if |r| == 0 then []
    else (if r[0].time in times then [r[0]] else []) + Restrict(r[1..], times)
  }

  /** `len(a.index.intersection(b.index))`. */
  function CommonCount(a: seq<Return>, b: seq<Return>): nat {
    |Stamps(a) * Stamps(b)|
  }

  /** `(1 + r).prod()`: the growth factor, None as soon as one return is not a number. */
  function Growth(r: seq<Return>): Option<real> {
    if |r| == 0 then Some(1.0)
    else match (r[0].value, Growth(r[1..]))
      case (Some(v), Some(g)) => Some((1.0 + v) * g)
      case _ => None
  }

  /** `(1 + r).prod() - 1`, the cumulative return over the series. */
  function CumulativeReturn(r: seq<Return>): (c: Option<real>)
    ensures c.None? <==> Growth(r).None?
  {
    match Growth(r)
    case Some(g) => Some(g - 1.0)
    case None => None
  }

  /** `s.iloc[:-k]` for k > 0 and `s` itself for k == 0: the series without its last k bars. */
  function DropLast(s: PriceSeries, k: nat): (r: PriceSeries)
    ensures |r| == if k < |s| then |s| - k else 0
    ensures r == s[..|r|]
  {
    if k < |s| then s[..|s| - k] else []
  }

  /** `data['Close'].iloc[-1] if len(data) > 0 else 0.0`. */
  function LastClose(s: PriceSeries): real {
    if |s| > 0 then s[|s| - 1].close else 0.0
  }

  /** The percentage change of the last close over the one before (`Change_%`). */
  function ChangePct(s: PriceSeries): (pct: real)
    ensures |s| < 2 ==> pct == 0.0
    ensures |s| >= 2 && s[|s| - 2].close == 0.0 ==> pct == 0.0
    ensures |s| >= 2 && s[|s| - 2].close != 0.0 ==>
              s[|s| - 2].close * (1.0 + pct / 100.0) == s[|s| - 1].close
  {
    var current := LastClose(s);
    var prev := if |s| > 1 then s[|s| - 2].close else current;
    if prev != 0.0 then (current - prev) / prev * 100.0 else 0.0
  }

  /**
   * The latest value of each indicator the library computes for a series
   * (RSI, ADX, DI spread and CMF are series: None when the whole series is
   * NaN), the ADX Z-score (a scalar) and the Mansfield relative strength.
   */
  datatype Indicators = Indicators(
    rsi: Option<real>, adx: Option<real>, diSpread: Option<real>, cmf: Option<real>,
    adxZ: real, mansfieldRs: real)

  /**
   * The indicator library applied to an entity's series and the benchmark
   * series it is measured against; None when the library raises.
   */
  type IndicatorFn = (PriceSeries, Option<PriceSeries>) -> Option<Indicators>

  /** Bars in chronological order give returns with distinct timestamps. */
  lemma ChronologicalReturnsDistinct(s: PriceSeries)
    requires Chronological(s)
    ensures DistinctStamps(Returns(s))
  {
    var r := Returns(s);
    forall i, j | 0 <= i < j < |r| ensures r[i].time != r[j].time {
      assert r[i].time == s[i + 1].time && r[j].time == s[j + 1].time;
    }
  }

  lemma DistinctTail(r: seq<Return>)
    requires |r| > 0 && DistinctStamps(r)
    ensures DistinctStamps(r[1..])
    ensures r[0].time !in Stamps(r[1..])
  {
    var tail := r[1..];
    forall i, j | 0 <= i < j < |tail| ensures tail[i].time != tail[j].time {
      assert tail[i] == r[i + 1] && tail[j] == r[j + 1];
    }
    forall k | 0 <= k < |tail| ensures tail[k].time != r[0].time {
      assert tail[k] == r[k + 1];
    }
  }

  lemma StampsConcat(p: seq<Return>, q: seq<Return>)
    ensures Stamps(p + q) == Stamps(p) + Stamps(q)
  {
    var pq := p + q;
    forall t | t in Stamps(pq) ensures t in Stamps(p) + Stamps(q) {
      var k :| 0 <= k < |pq| && pq[k].time == t;
      if k < |p| { assert p[k].time == t; } else { assert q[k - |p|].time == t; }
    }
    forall t | t in Stamps(p) + Stamps(q) ensures t in Stamps(pq) {
      if t in Stamps(p) {
        var k :| 0 <= k < |p| && p[k].time == t;
        assert pq[k].time == t;
      } else {
        var k :| 0 <= k < |q| && q[k].time == t;
        assert pq[k + |p|].time == t;
      }
    }
  }

  lemma StampsCons(r: seq<Return>)
    requires |r| > 0
    ensures Stamps(r) == {r[0].time} + Stamps(r[1..])
  {
    assert r == [r[0]] + r[1..];
    StampsConcat([r[0]], r[1..]);
    assert Stamps([r[0]]) == {r[0].time};
  }

  lemma DistinctConcat(p: seq<Return>, q: seq<Return>)
    requires DistinctStamps(p) && DistinctStamps(q) && Stamps(p) * Stamps(q) == {}
    ensures DistinctStamps(p + q)
  {
    var pq := p + q;
    forall i, j | 0 <= i < j < |pq| ensures pq[i].time != pq[j].time {
      if j < |p| {
        assert pq[i] == p[i] && pq[j] == p[j];
      } else if i >= |p| {
        assert pq[i] == q[i - |p|] && pq[j] == q[j - |p|];
      } else {
        var t := p[i].time;
        assert pq[i] == p[i] && t in Stamps(p);
        assert t !in Stamps(q) by { assert t !in Stamps(p) * Stamps(q); }
        assert pq[j] == q[j - |p|] && q[j - |p|].time in Stamps(q);
      }
    }
  }

  lemma {:induction false} RestrictDistinct(r: seq<Return>, times: set<int>)
    requires DistinctStamps(r)
    ensures DistinctStamps(Restrict(r, times))
    ensures Stamps(Restrict(r, times)) == Stamps(r) * times
  {
    if |r| > 0 {
      DistinctTail(r);
      RestrictDistinct(r[1..], times);
      StampsCons(r);
      var head := if r[0].time in times then [r[0]] else [];
      var rest := Restrict(r[1..], times);
      assert Restrict(r, times) == head + rest;
      StampsConcat(head, rest);
      assert Stamps(head) <= {r[0].time} by {
        if head != [] { assert Stamps(head) == {r[0].time}; }
      }
      DistinctConcat(head, rest);
    }
  }

  lemma {:induction false} DistinctStampsCount(r: seq<Return>)
    requires DistinctStamps(r)
    ensures |Stamps(r)| == |r|
  {
    if |r| > 0 {
      DistinctTail(r);
      DistinctStampsCount(r[1..]);
      StampsCons(r);
    }
  }

  /**
   * With distinct timestamps, restricting each return series to the other's
   * timestamps leaves exactly as many entries as the two indexes share.
   */
  lemma AlignedLengths(a: seq<Return>, b: seq<Return>)
    requires DistinctStamps(a) && DistinctStamps(b)
    ensures |Restrict(a, Stamps(b))| == CommonCount(a, b)
    ensures |Restrict(b, Stamps(a))| == CommonCount(a, b)
  {
    RestrictDistinct(a, Stamps(b));
    DistinctStampsCount(Restrict(a, Stamps(b)));
    RestrictDistinct(b, Stamps(a));
    DistinctStampsCount(Restrict(b, Stamps(a)));
    assert Stamps(b) * Stamps(a) == Stamps(a) * Stamps(b);
  }
}
