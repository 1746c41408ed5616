/** Small numeric and collection helpers shared by every module of the model. */
module Common {

  datatype Option<+T> = None | Some(value: T) {
    function GetOr(default: T): T {
      match this
      case Some(v) => v
      case None => default
    }
  }

  function Abs(x: real): (r: real)
    ensures r >= 0.0
    ensures r == x || r == -x
  {
    if x < 0.0 then -x else x
  }

  function Max(a: real, b: real): (r: real)
    ensures r >= a && r >= b
    ensures r == a || r == b
  {
    if a >= b then a else b
  }

  function Min(a: real, b: real): (r: real)
    ensures r <= a && r <= b
    ensures r == a || r == b
  {
    if a <= b then a else b
  }

  /** numpy/pandas `clip(x, lo, hi)`, i.e. max(lo, min(hi, x)). */
  function Clip(x: real, lo: real, hi: real): (r: real)
    requires lo <= hi
    ensures lo <= r <= hi
    ensures lo <= x <= hi ==> r == x
    ensures x < lo ==> r == lo
    ensures x > hi ==> r == hi
  {
    Max(lo, Min(hi, x))
  }

  /** x / d compared with 1 for a positive divisor. */
  lemma QuotientVersusOne(x: real, d: real)
    requires d > 0.0
    ensures x >= d ==> x / d >= 1.0
    ensures x <= d ==> x / d <= 1.0
    ensures x > 0.0 ==> x / d > 0.0
    ensures x >= 0.0 ==> x / d >= 0.0
  {
    var q := x / d;
    assert q * d == x;
    assert (q - 1.0) * d == x - d;
  }

  lemma MulSign(u: real, v: real)
    requires v > 0.0
    ensures u > 0.0 ==> u * v > 0.0
    ensures u < 0.0 ==> u * v < 0.0
    ensures u == 0.0 ==> u * v == 0.0
  {
  }

  lemma MulNonNegative(u: real, v: real)
    requires u >= 0.0 && v >= 0.0
    ensures u * v >= 0.0
  {
  }

  lemma MulMonotone(u: real, v: real, d: real)
    requires u <= v && d >= 0.0
    ensures u * d <= v * d
  {
    MulNonNegative(v - u, d);
  }

  lemma MulStrictMonotone(u: real, v: real, d: real)
    requires u < v && d > 0.0
    ensures u * d < v * d
  {
    MulSign(v - u, d);
  }

  /** For a positive divisor, x / d compares with c exactly as x compares with c * d. */
  lemma QuotientCompare(x: real, d: real, c: real)
    requires d > 0.0
    ensures x / d > c <==> x > c * d
    ensures x / d < c <==> x < c * d
    ensures x / d == c <==> x == c * d
  {
    var q := x / d;
    assert q * d == x;
    assert x - c * d == (q - c) * d;
    MulSign(q - c, d);
  }

  /** Sum of a sequence of reals, left to right. */
  function Sum(xs: seq<real>): real
  {
    if |xs| == 0 then 0.0 else Sum(xs[..|xs| - 1]) + xs[|xs| - 1]
  }

  lemma {:induction false} SumAppend(xs: seq<real>, x: real)
    ensures Sum(xs + [x]) == Sum(xs) + x
  {
    assert (xs + [x])[..|xs + [x]| - 1] == xs;
  }

  /** Sum of the values of a map (the order of a Python dict does not matter for a real sum). */
  ghost function SumValues<K>(m: map<K, real>): real
    decreases |m|
  {
    if |m| == 0 then 0.0
    else
      var k :| k in m;
      m[k] + SumValues(m - {k})
  }

  /** The key the definition of SumValues picks, with the equation it satisfies. */
  lemma SumValuesUnfold<K>(m: map<K, real>) returns (j: K)
    requires |m| != 0
    ensures j in m && SumValues(m) == m[j] + SumValues(m - {j})
  {
    j :| j in m && SumValues(m) == m[j] + SumValues(m - {j});
  }

  lemma MapRemoveSize<K, V>(m: map<K, V>, k: K)
    requires k in m
    ensures |m - {k}| == |m| - 1
  {
    assert (m - {k}).Keys == m.Keys - {k};
  }

  /** Removing any key takes exactly its value out of the sum. */
  lemma {:induction false} SumValuesRemove<K>(m: map<K, real>, k: K)
    requires k in m
    ensures SumValues(m) == m[k] + SumValues(m - {k})
    decreases |m|
  {
    var j := SumValuesUnfold(m);
    if j != k {
      var mj := m - {j};
      var mk := m - {k};
      MapRemoveSize(m, j);
      MapRemoveSize(m, k);
      assert k in mj;
      assert j in mk;
      SumValuesRemove(mj, k);
      SumValuesRemove(mk, j);
      MapRemoveSwap(m, j, k);
    }
  }

  /** Removing two keys in either order leaves the same map, and the other values in place. */
  lemma MapRemoveSwap<K, V>(m: map<K, V>, j: K, k: K)
    requires j in m && k in m && j != k
    ensures k in m - {j} && j in m - {k}
    ensures (m - {j}) - {k} == (m - {k}) - {j}
    ensures (m - {j})[k] == m[k] && (m - {k})[j] == m[j]
  {
  }

  /** Adding a fresh key adds exactly its value to the sum. */
  lemma SumValuesAdd<K>(m: map<K, real>, k: K, v: real)
    requires k !in m
    ensures SumValues(m[k := v]) == SumValues(m) + v
  {
    SumValuesRemove(m[k := v], k);
    assert m[k := v] - {k} == m;
  }

  lemma {:induction false} SumValuesNonNegative<K>(m: map<K, real>)
    requires forall k :: k in m ==> m[k] >= 0.0
    ensures SumValues(m) >= 0.0
    decreases |m|
  {
    if |m| != 0 {
      var k :| k in m;
      SumValuesRemove(m, k);
      SumValuesNonNegative(m - {k});
    }
  }

  lemma {:induction false} SumValuesAllZero<K>(m: map<K, real>)
    requires forall k :: k in m ==> m[k] == 0.0
    ensures SumValues(m) == 0.0
    decreases |m|
  {
    if |m| != 0 {
      var k :| k in m;
      SumValuesRemove(m, k);
      SumValuesAllZero(m - {k});
    }
  }

  /** Overwriting (or adding) one key replaces its share of the sum. */
  lemma SumValuesUpdate<K>(m: map<K, real>, k: K, v: real)
    ensures SumValues(m[k := v]) == SumValues(m) - (if k in m then m[k] else 0.0) + v
  {
    if k in m {
      SumValuesRemove(m[k := v], k);
      SumValuesRemove(m, k);
      assert m[k := v] - {k} == m - {k};
    } else {
      SumValuesAdd(m, k, v);
    }
  }

  /** Dividing every value by t divides the sum by t. */
  lemma {:induction false} SumValuesScale<K>(m: map<K, real>, t: real)
    requires t != 0.0
    ensures SumValues(map k | k in m :: m[k] / t) == SumValues(m) / t
    decreases |m|
  {
    var d := map k | k in m :: m[k] / t;
    assert d.Keys == m.Keys;
    if |m| != 0 {
      var k :| k in m;
      var rest := m - {k};
      MapRemoveSize(m, k);
      SumValuesRemove(m, k);
      SumValuesRemove(d, k);
      assert d - {k} == map j | j in rest :: rest[j] / t;
      SumValuesScale(rest, t);
      DivideSum(m[k], SumValues(rest), t);
    } else {
      assert |d| == 0;
    }
  }

  lemma DivideSum(a: real, b: real, t: real)
    requires t != 0.0
    ensures (a + b) / t == a / t + b / t
  {
  }
}
