/**
 * Python dictionaries with string keys, as the sequence of their items in
 * insertion order. A Python dict cannot hold a key twice; the lookups below
 * take the first item under a key, which is the only one in a real dict.
 */
module Dicts {

  type Dict<V> = seq<(string, V)>

  ghost predicate HasKey<V>(d: Dict<V>, key: string) {
    exists k :: 0 <= k < |d| && d[k].0 == key
  }

  /** `d.get(key, default)`. */
  function Get<V>(d: Dict<V>, key: string, default: V): V {
    if |d| == 0 then default
    else if d[0].0 == key then d[0].1
    else Get(d[1..], key, default)
  }

  /** `get` returns the default exactly for a missing key, and otherwise a value stored under the key. */
  lemma {:induction false} GetFindsKey<V>(d: Dict<V>, key: string, default: V)
    ensures !HasKey(d, key) ==> Get(d, key, default) == default
    ensures HasKey(d, key) ==> exists k :: 0 <= k < |d| && d[k].0 == key && d[k].1 == Get(d, key, default)
  {
    if |d| > 0 && d[0].0 != key {
      GetFindsKey(d[1..], key, default);
      if HasKey(d, key) {
        var k :| 0 <= k < |d| && d[k].0 == key;
        assert d[1..][k - 1].0 == key;
        var j :| 0 <= j < |d[1..]| && d[1..][j].0 == key && d[1..][j].1 == Get(d, key, default);
        assert d[j + 1] == d[1..][j];
      }
    }
  }

  /** `sum(d.values())`. */
  function Total(d: Dict<real>): real {
    if |d| == 0 then 0.0 else d[0].1 + Total(d[1..])
  }

  /** Every value of `d` is at least zero. */
  ghost predicate NonNegative(d: Dict<real>) {
    forall k :: 0 <= k < |d| ==> d[k].1 >= 0.0
  }

  /** `{k: c * v for k, v in d.items()}`. */
  function Scale(d: Dict<real>, c: real): (r: Dict<real>)
    ensures |r| == |d|
  {
    if |d| == 0 then [] else [(d[0].0, c * d[0].1)] + Scale(d[1..], c)
  }

  /** Python's truth value of a dict: it is true exactly when it is non-empty. */
  predicate Truthy<V>(d: Dict<V>) {
    |d| > 0
  }

  lemma {:induction false} TotalOfNonNegative(d: Dict<real>)
    requires NonNegative(d)
    ensures Total(d) >= 0.0
  {
    if |d| > 0 {
      assert NonNegative(d[1..]) by {
        forall k | 0 <= k < |d[1..]| ensures d[1..][k].1 >= 0.0 { assert d[1..][k] == d[k + 1]; }
      }
      TotalOfNonNegative(d[1..]);
    }
  }

  /** Scaling every weight scales their sum. */
  lemma {:induction false} TotalOfScale(d: Dict<real>, c: real)
    ensures Total(Scale(d, c)) == c * Total(d)
  {
    if |d| > 0 {
      TotalOfScale(d[1..], c);
    }
  }

  /** Scaling every weight scales the weight found under a key that is present. */
  lemma {:induction false} GetOfScale(d: Dict<real>, c: real, key: string, default: real)
    requires HasKey(d, key)
    ensures Get(Scale(d, c), key, default) == c * Get(d, key, default)
  {
    var s := Scale(d, c);
    assert s[0] == (d[0].0, c * d[0].1) && s[1..] == Scale(d[1..], c);
    if d[0].0 != key {
      var k :| 0 <= k < |d| && d[k].0 == key;
      assert d[1..][k - 1].0 == key;
      GetOfScale(d[1..], c, key, default);
      assert Get(s, key, default) == Get(s[1..], key, default);
    }
  }
}
