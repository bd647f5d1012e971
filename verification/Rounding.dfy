/** Decimal rounding: `quantize` under the default context, half to even. */
module Rounding {
  import opened Numbers

  /** The integer nearest to `x`; a tie goes to the even neighbour. */
  function RoundHalfEven(x: real): (n: int)
    ensures x - 0.5 <= n as real <= x + 0.5
    ensures (n as real == x - 0.5 || n as real == x + 0.5) ==> n % 2 == 0
  {
    var low := x.Floor;
    var rest := x - low as real;
    if rest < 0.5 then low
    else if rest > 0.5 then low + 1
    else if low % 2 == 0 then low
    else low + 1
  }

  /** `x.quantize(quantum)`: the multiple of `quantum` nearest to `x`. */
  function Quantize(x: real, quantum: real): real
    requires quantum > 0.0
  {
    RoundHalfEven(x / quantum) as real * quantum
  }

  // The two properties of the contract leave only one integer.
  lemma RoundUnique(x: real, n: int)
    requires x - 0.5 <= n as real <= x + 0.5
    requires (n as real == x - 0.5 || n as real == x + 0.5) ==> n % 2 == 0
    ensures RoundHalfEven(x) == n
  {
    var m := RoundHalfEven(x);
    assert -1 <= m - n <= 1;
  }

  lemma RoundMonotone(x: real, y: real)
    requires x <= y
    ensures RoundHalfEven(x) <= RoundHalfEven(y)
  {
    var m, n := RoundHalfEven(x), RoundHalfEven(y);
    assert m <= n + 1;
  }

  lemma RoundOdd(x: real)
    ensures RoundHalfEven(-x) == -RoundHalfEven(x)
  {
    RoundUnique(-x, -RoundHalfEven(x));
  }

  lemma RoundInteger(n: int)
    ensures RoundHalfEven(n as real) == n
  {
    RoundUnique(n as real, n);
  }

  lemma ScaleLe(a: real, b: real, k: real)
    requires a <= b && 0.0 <= k
    ensures a * k <= b * k
  {
  }

  lemma DivAtLeast(x: real, k: real, m: real)
    requires 0.0 < k && m <= x / k
    ensures m * k <= x
  {
  }

  lemma DivAtMost(x: real, k: real, m: real)
    requires 0.0 < k && x / k <= m
    ensures x <= m * k
  {
  }

  lemma DivLe(a: real, b: real, k: real)
    requires a <= b && 0.0 < k
    ensures a / k <= b / k
  {
    assert b / k - a / k == (b - a) / k;
  }

  lemma QuantizeNear(x: real, quantum: real)
    requires quantum > 0.0
    ensures x - 0.5 * quantum <= Quantize(x, quantum) <= x + 0.5 * quantum
  {
    var n := RoundHalfEven(x / quantum) as real;
    DivAtLeast(x, quantum, n - 0.5);
    DivAtMost(x, quantum, n + 0.5);
    assert (n - 0.5) * quantum == n * quantum - 0.5 * quantum;
    assert (n + 0.5) * quantum == n * quantum + 0.5 * quantum;
  }

  lemma QuantizeMonotone(x: real, y: real, quantum: real)
    requires quantum > 0.0 && x <= y
    ensures Quantize(x, quantum) <= Quantize(y, quantum)
  {
    DivLe(x, y, quantum);
    RoundMonotone(x / quantum, y / quantum);
    ScaleLe(RoundHalfEven(x / quantum) as real, RoundHalfEven(y / quantum) as real, quantum);
  }

  lemma QuantizeOdd(x: real, quantum: real)
    requires quantum > 0.0
    ensures Quantize(-x, quantum) == -Quantize(x, quantum)
  {
    assert (-x) / quantum == -(x / quantum);
    RoundOdd(x / quantum);
  }

  // A value already on the grid stays where it is.
  lemma QuantizeOnGrid(n: int, quantum: real)
    requires quantum > 0.0
    ensures Quantize(n as real * quantum, quantum) == n as real * quantum
  {
    assert n as real * quantum / quantum == n as real;
    RoundInteger(n);
  }

  // Rounding never crosses a grid point.
  lemma QuantizeBelowGrid(x: real, n: int, quantum: real)
    requires quantum > 0.0 && x <= n as real * quantum
    ensures Quantize(x, quantum) <= n as real * quantum
  {
    QuantizeMonotone(x, n as real * quantum, quantum);
    QuantizeOnGrid(n, quantum);
  }

  lemma QuantizeAboveGrid(x: real, n: int, quantum: real)
    requires quantum > 0.0 && n as real * quantum <= x
    ensures n as real * quantum <= Quantize(x, quantum)
  {
    QuantizeMonotone(n as real * quantum, x, quantum);
    QuantizeOnGrid(n, quantum);
  }

  lemma QuantizeIdempotent(x: real, quantum: real)
    requires quantum > 0.0
    ensures Quantize(Quantize(x, quantum), quantum) == Quantize(x, quantum)
  {
    var n := RoundHalfEven(x / quantum);
    QuantizeAboveGrid(Quantize(x, quantum), n, quantum);
    QuantizeBelowGrid(Quantize(x, quantum), n, quantum);
  }

  // ---------- what a rounded value is ----------

  function Multiple(n: int, quantum: real): real {
    n as real * quantum
  }

  predicate NearestAt(x: real, quantum: real, n: int) {
    && Abs(x - Multiple(n, quantum)) <= 0.5 * quantum
    && (Abs(x - Multiple(n, quantum)) == 0.5 * quantum ==> n % 2 == 0)
  }

  /** `r` is the multiple of `quantum` nearest to `x`, and of two equally near the even one. */
  ghost predicate NearestMultiple(x: real, quantum: real, r: real) {
    exists n: int :: r == Multiple(n, quantum) && NearestAt(x, quantum, n)
  }

  lemma NearestIff(x: real, quantum: real, n: int)
    requires quantum > 0.0
    ensures NearestAt(x, quantum, n) <==> RoundHalfEven(x / quantum) == n
  {
    var d := x / quantum - n as real;
    assert x - Multiple(n, quantum) == d * quantum;
    ShareOfQuantum(d, quantum);
    if -0.5 <= d <= 0.5 && ((d == 0.5 || d == -0.5) ==> n % 2 == 0) { RoundUnique(x / quantum, n); }
    hide Multiple;
  }

  lemma ShareOfQuantum(d: real, quantum: real)
    requires quantum > 0.0
    ensures Abs(d * quantum) <= 0.5 * quantum <==> -0.5 <= d <= 0.5
    ensures Abs(d * quantum) == 0.5 * quantum <==> d == 0.5 || d == -0.5
  {
    assert (0.5 - d) * quantum == 0.5 * quantum - d * quantum;
    assert (0.5 + d) * quantum == 0.5 * quantum + d * quantum;
    SameSign(0.5 - d, quantum);
    SameSign(0.5 + d, quantum);
  }

  lemma SameSign(a: real, k: real)
    requires 0.0 < k
    ensures (0.0 < a <==> 0.0 < a * k) && (a == 0.0 <==> a * k == 0.0)
  {
  }

  /** `quantize` gives the nearest multiple, half to even, and nothing else is that. */
  lemma QuantizeIff(x: real, quantum: real, r: real)
    requires quantum > 0.0
    ensures Quantize(x, quantum) == r <==> NearestMultiple(x, quantum, r)
  {
    var n := RoundHalfEven(x / quantum);
    assert Quantize(x, quantum) == Multiple(n, quantum);
    NearestIff(x, quantum, n);
    forall m | NearestAt(x, quantum, m)
      ensures m == n
    {
      NearestIff(x, quantum, m);
    }
    hide NearestAt, Multiple, Quantize;
  }
}
