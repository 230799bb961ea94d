/**
 * The outer loop every replayer shares: walk the periods i = top, top - 1,
 * ..., 1 (oldest first) and keep the row each period gives, if any.
 */
module Periods {
  import opened Wrappers

  function AsSeq<T>(o: Option<T>): (s: seq<T>)
    ensures |s| <= 1 && (s == [] <==> o.None?)
    ensures o.Some? ==> s == [o.value]
  {
    if o.Some? then [o.value] else []
  }

  /** The rows of the first n periods, `top` down to `top - n + 1`. */
  function Collect<R>(period: nat -> Option<R>, top: nat, n: nat): (rows: seq<R>)
    requires n <= top
    ensures |rows| <= n
  {
    if n == 0 then [] else Collect(period, top, n - 1) + AsSeq(period(top - n + 1))
  }

  /** One more period appends its row, if it gives one. */
  lemma CollectStep<R>(period: nat -> Option<R>, top: nat, n: nat)
    requires n < top
    ensures Collect(period, top, n + 1) == Collect(period, top, n) + AsSeq(period(top - n))
  {
  }

  /** Periods that give no row leave an empty table. */
  lemma {:induction false} CollectNothing<R>(period: nat -> Option<R>, top: nat, n: nat)
    requires n <= top && forall i :: 1 <= i <= top ==> period(i).None?
    ensures Collect(period, top, n) == []
  {
    if n > 0 {
      CollectNothing(period, top, n - 1);
    }
  }

  /** When only the latest period (i = 1) can give a row, the table is that row or nothing. */
  lemma {:induction false} CollectOnlyLatest<R>(period: nat -> Option<R>, top: nat, n: nat)
    requires n <= top && forall i :: 2 <= i <= top ==> period(i).None?
    ensures Collect(period, top, n) == if n == top && top >= 1 then AsSeq(period(1)) else []
  {
    if n > 0 {
      CollectOnlyLatest(period, top, n - 1);
    }
  }

  /** Every collected row is the row of one of the periods visited. */
  lemma {:induction false} CollectFrom<R>(period: nat -> Option<R>, top: nat, n: nat)
    requires n <= top
    ensures forall r :: r in Collect(period, top, n) ==> exists i :: top - n < i <= top && period(i) == Some(r)
  {
    if n > 0 {
      CollectFrom(period, top, n - 1);
      var last := AsSeq(period(top - n + 1));
      forall r | r in Collect(period, top, n) ensures exists i :: top - n < i <= top && period(i) == Some(r) {
        if r !in Collect(period, top, n - 1) {
          assert r in last;
          assert period(top - n + 1) == Some(r);
        }
      }
    }
  }

  /** Strictly rising, between lo and hi. */
  predicate RisingBetween(xs: seq<int>, lo: int, hi: int) {
    (forall a :: 0 <= a < |xs| ==> lo <= xs[a] <= hi)
    && (forall a, b :: 0 <= a < b < |xs| ==> xs[a] < xs[b])
  }

  function Keys<R>(rows: seq<R>, key: R -> int): (k: seq<int>)
    ensures |k| == |rows| && forall a :: 0 <= a < |rows| ==> k[a] == key(rows[a])
  {
    seq(|rows|, a requires 0 <= a < |rows| => key(rows[a]))
  }

  lemma KeysAppend<R>(xs: seq<R>, ys: seq<R>, key: R -> int, lo: int, mid: int, hi: int)
    requires RisingBetween(Keys(xs, key), lo, mid) && lo <= mid < hi
    requires |ys| <= 1 && forall a :: 0 <= a < |ys| ==> key(ys[a]) == hi
    ensures RisingBetween(Keys(xs + ys, key), lo, hi)
  {
    var zs := Keys(xs + ys, key);
    forall a, b | 0 <= a < b < |zs| ensures zs[a] < zs[b] {
      if b >= |xs| {
        assert zs[a] == Keys(xs, key)[a];
      } else {
        assert zs[a] == Keys(xs, key)[a] && zs[b] == Keys(xs, key)[b];
      }
    }
    forall a | 0 <= a < |zs| ensures lo <= zs[a] <= hi {
      if a < |xs| {
        assert zs[a] == Keys(xs, key)[a];
      }
    }
  }

  /** Stamps that rise as i falls: the oldest period's stamp is the least. */
  lemma {:induction false} StampsFall(stamp: nat -> int, top: nat, j: nat)
    requires 1 <= j <= top && forall i :: 1 < i <= top ==> stamp(i) < stamp(i - 1)
    ensures stamp(top) <= stamp(j)
    decreases top - j
  {
    if j < top {
      StampsFall(stamp, top, j + 1);
    }
  }

  /**
   * When each period's row carries the key `stamp(i)` and the stamps rise
   * as i falls, the collected rows come out with strictly rising keys,
   * between the stamps of the oldest and the newest period visited.
   */
  lemma {:induction false} CollectKeysRising<R>(period: nat -> Option<R>, key: R -> int, stamp: nat -> int, top: nat, n: nat)
    requires n <= top
    requires forall i :: 1 <= i <= top && period(i).Some? ==> key(period(i).value) == stamp(i)
    requires forall i :: 1 < i <= top ==> stamp(i) < stamp(i - 1)
    ensures n >= 1 ==> RisingBetween(Keys(Collect(period, top, n), key), stamp(top), stamp(top - n + 1))
    ensures n == 0 ==> Collect(period, top, n) == []
  {
    if n == 1 {
      var ys := AsSeq(period(top));
      assert Collect(period, top, 1) == ys;
      forall a | 0 <= a < |ys| ensures key(ys[a]) == stamp(top) {
        assert ys[a] == period(top).value;
      }
      KeysAppend([], ys, key, stamp(top) - 1, stamp(top) - 1, stamp(top));
      assert [] + ys == ys;
    } else if n > 1 {
      CollectKeysRising(period, key, stamp, top, n - 1);
      var ys := AsSeq(period(top - n + 1));
      forall a | 0 <= a < |ys| ensures key(ys[a]) == stamp(top - n + 1) {
        assert ys[a] == period(top - n + 1).value;
      }
      StampsFall(stamp, top, top - n + 2);
      KeysAppend(Collect(period, top, n - 1), ys, key, stamp(top), stamp(top - n + 2), stamp(top - n + 1));
    }
  }

  /**
   * When each period's row carries the key `stamp(i)` and the stamps rise
   * as i falls, the collected rows' keys rise strictly, from at least the
   * oldest period's stamp to at most the newest one's.
   */
  lemma CollectRising<R>(period: nat -> Option<R>, key: R -> int, stamp: nat -> int, top: nat)
    requires 1 <= top
    requires forall i :: 1 <= i <= top && period(i).Some? ==> key(period(i).value) == stamp(i)
    requires forall i :: 1 < i <= top ==> stamp(i) < stamp(i - 1)
    ensures var rows := Collect(period, top, top);
            (forall a :: 0 <= a < |rows| ==> stamp(top) <= key(rows[a]) <= stamp(1))
            && (forall a, b :: 0 <= a < b < |rows| ==> key(rows[a]) < key(rows[b]))
  {
    CollectKeysRising(period, key, stamp, top, top);
    var rows := Collect(period, top, top);
    var k := Keys(rows, key);
    forall a | 0 <= a < |rows| ensures stamp(top) <= key(rows[a]) <= stamp(1) {
      assert k[a] == key(rows[a]);
    }
    forall a, b | 0 <= a < b < |rows| ensures key(rows[a]) < key(rows[b]) {
      assert k[a] == key(rows[a]) && k[b] == key(rows[b]);
    }
  }
}
