/** Sums of a real-valued measure over sequences and over the values of a map. */
module Totals {

  function Sum(xs: seq<real>): real {
    if xs == [] then 0.0 else Sum(xs[..|xs| - 1]) + xs[|xs| - 1]
  }

  /** The sum of `f` over the values of `m`, in whatever order its keys are taken. */
  ghost function Total<K, V>(m: map<K, V>, f: V -> real): real
    decreases |m|
  {
    if m == map[] then 0.0
    else
      var k :| k in m;
      f(m[k]) + Total(m - {k}, f)
  }

  lemma SumAppend(xs: seq<real>, x: real)
    ensures Sum(xs + [x]) == Sum(xs) + x
  {
    assert (xs + [x])[..|xs|] == xs;
  }

  // Any key may be taken first.
  lemma {:induction false} TotalSplit<K, V>(m: map<K, V>, k: K, f: V -> real)
    requires k in m
    ensures Total(m, f) == f(m[k]) + Total(m - {k}, f)
    decreases |m|
  {
    var j :| j in m && Total(m, f) == f(m[j]) + Total(m - {j}, f);
    if j != k {
      TotalSplit(m - {j}, k, f);
      TotalSplit(m - {k}, j, f);
      assert m - {j} - {k} == m - {k} - {j};
    }
  }

  lemma TotalPut<K, V>(m: map<K, V>, k: K, v: V, f: V -> real)
    ensures Total(m[k := v], f) == f(v) + Total(m - {k}, f)
  {
    TotalSplit(m[k := v], k, f);
    assert m[k := v] - {k} == m - {k};
  }

  lemma TotalAbsent<K, V>(m: map<K, V>, k: K)
    requires k !in m
    ensures m - {k} == m
  {
  }
}
