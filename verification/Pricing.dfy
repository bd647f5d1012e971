/** core/pricing.py: rounding a price to a number of significant figures. */
module Pricing {
  import opened Numbers
  import opened Rounding

  const PRICE_SIG_FIGS := 8

  function Pow10(e: int): (p: real)
    ensures 0.0 < p
    decreases if e < 0 then -e else e
  {
    if e == 0 then 1.0
    else if e > 0 then 10.0 * Pow10(e - 1)
    else 0.1 * Pow10(e + 1)
  }

  function TenTo(n: nat): (p: int)
    ensures 1 <= p
  {
    if n == 0 then 1 else 10 * TenTo(n - 1)
  }

  /** `Decimal.adjusted()` of a nonzero number: the exponent of its leading digit. */
  function Adjusted(x: real): (e: int)
    requires x > 0.0
    ensures Pow10(e) <= x < Pow10(e + 1)
    decreases x < 1.0, if x < 1.0 then (1.0 / x).Floor else x.Floor
  {
    if x >= 10.0 then
      var e := Adjusted(x / 10.0);
      Pow10Step(e);
      Pow10Step(e + 1);
      e + 1
    else if x < 1.0 then
      ShiftUpGrows(x);
      var e := Adjusted(10.0 * x);
      Pow10Step(e - 1);
      Pow10Step(e);
      e - 1
    else
      0
  }

  function QuantizePrice(price: real, sigFigs: int := PRICE_SIG_FIGS): real {
    if price == 0.0 then price
    else Quantize(price, Pow10(Adjusted(Abs(price)) - (sigFigs - 1)))
  }

  lemma Pow10Step(e: int)
    ensures Pow10(e + 1) == 10.0 * Pow10(e)
  {
  }

  lemma ShiftUpGrows(x: real)
    requires 0.0 < x < 1.0
    ensures 10.0 * x < 1.0 ==> (1.0 / (10.0 * x)).Floor < (1.0 / x).Floor
  {
    if 10.0 * x < 1.0 {
      var y := 1.0 / (10.0 * x);
      assert 1.0 / x == 10.0 * y;
      assert y > 1.0;
    }
  }

  lemma {:induction false} Pow10Ordered(e: int, f: int)
    requires e <= f
    ensures Pow10(e) <= Pow10(f)
    decreases f - e
  {
    if e < f {
      Pow10Ordered(e, f - 1);
      Pow10Step(f - 1);
    }
  }

  lemma AdjustedMonotone(x: real, y: real)
    requires 0.0 < x <= y
    ensures Adjusted(x) <= Adjusted(y)
  {
    if Adjusted(y) + 1 <= Adjusted(x) {
      Pow10Ordered(Adjusted(y) + 1, Adjusted(x));
      assert false;
    }
  }

  // Rounding stays inside the decade of the price, end points included.
  lemma QuantizeInDecade(x: real, sigFigs: int)
    requires x > 0.0 && sigFigs >= 1
    ensures Pow10(Adjusted(x)) <= QuantizePrice(x, sigFigs) <= Pow10(Adjusted(x) + 1)
  {
    var e := Adjusted(x);
    var base := e - (sigFigs - 1);
    assert Pow10(e) <= Quantize(x, Pow10(base)) by {
      DecadeOnGrid(base, sigFigs - 1);
      QuantizeMonotone(Pow10(e), x, Pow10(base));
    }
    assert Quantize(x, Pow10(base)) <= Pow10(e + 1) by {
      DecadeOnGrid(base, sigFigs);
      QuantizeMonotone(x, Pow10(e + 1), Pow10(base));
    }
  }

  // A power of ten is a grid point of every lower power.
  lemma {:induction false} DecadeOnGrid(e: int, k: nat)
    ensures Quantize(Pow10(e + k), Pow10(e)) == Pow10(e + k)
  {
    if k == 0 {
      UnitOnGrid(Pow10(e));
    } else {
      DecadeOnGrid(e, k - 1);
      TenTimesOnGrid(Pow10(e + k - 1), Pow10(e));
    }
  }

  lemma UnitOnGrid(quantum: real)
    requires 0.0 < quantum
    ensures Quantize(quantum, quantum) == quantum
  {
    QuantizeOnGrid(1, quantum);
  }

  lemma TenTimesOnGrid(x: real, quantum: real)
    requires 0.0 < quantum && Quantize(x, quantum) == x
    ensures Quantize(10.0 * x, quantum) == 10.0 * x
  {
    var n := RoundHalfEven(x / quantum);
    assert (10 * n) as real * quantum == 10.0 * (n as real * quantum);
    QuantizeAboveGrid(10.0 * x, 10 * n, quantum);
    QuantizeBelowGrid(10.0 * x, 10 * n, quantum);
  }

  // Among prices of one sign, across decade boundaries.
  lemma PositiveMonotone(x: real, y: real, sigFigs: int)
    requires 0.0 < x <= y && sigFigs >= 1
    ensures 0.0 < QuantizePrice(x, sigFigs) <= QuantizePrice(y, sigFigs)
  {
    var e, f := Adjusted(x), Adjusted(y);
    AdjustedMonotone(x, y);
    QuantizeInDecade(x, sigFigs);
    QuantizeInDecade(y, sigFigs);
    if e == f {
      QuantizeMonotone(x, y, Pow10(e - (sigFigs - 1)));
    } else {
      Pow10Ordered(e + 1, f);
    }
  }

  /** The sign of the price carries through the rounding. */
  lemma QuantizePriceOdd(price: real, sigFigs: int)
    ensures QuantizePrice(-price, sigFigs) == -QuantizePrice(price, sigFigs)
  {
    if price != 0.0 {
      QuantizeOdd(price, Pow10(Adjusted(Abs(price)) - (sigFigs - 1)));
    }
  }

  lemma QuantizeSign(price: real, sigFigs: int)
    requires sigFigs >= 1
    ensures price > 0.0 ==> QuantizePrice(price, sigFigs) > 0.0
    ensures price < 0.0 ==> QuantizePrice(price, sigFigs) < 0.0
    ensures price == 0.0 ==> QuantizePrice(price, sigFigs) == 0.0
  {
    if price == 0.0 {
      assert QuantizePrice(price, sigFigs) == 0.0;
    } else {
      hide QuantizePrice;
      QuantizePriceOdd(price, sigFigs);
      PositiveMonotone(Abs(price), Abs(price), sigFigs);
    }
  }

  /** A larger price never rounds below a smaller one, whatever decades they lie in. */
  lemma QuantizePriceMonotone(x: real, y: real, sigFigs: int)
    requires x <= y && sigFigs >= 1
    ensures QuantizePrice(x, sigFigs) <= QuantizePrice(y, sigFigs)
  {
    hide QuantizePrice;
    QuantizeSign(x, sigFigs);
    QuantizeSign(y, sigFigs);
    if 0.0 < x {
      PositiveMonotone(x, y, sigFigs);
    } else if y < 0.0 {
      QuantizePriceOdd(x, sigFigs);
      QuantizePriceOdd(y, sigFigs);
      PositiveMonotone(-y, -x, sigFigs);
    }
  }

  /** Exactly the significant-figure counts of one or more keep every nonzero price nonzero. */
  lemma NeverCollapses(sigFigs: int)
    ensures (forall price: real :: price != 0.0 ==> QuantizePrice(price, sigFigs) != 0.0) <==> sigFigs >= 1
  {
    if sigFigs >= 1 {
      forall price: real | price != 0.0
        ensures QuantizePrice(price, sigFigs) != 0.0
      {
        PositiveMonotone(Abs(price), Abs(price), sigFigs);
        QuantizePriceOdd(price, sigFigs);
      }
    } else {
      CollapsesAtOne(sigFigs);
    }
  }

  lemma CollapsesAtOne(sigFigs: int)
    requires sigFigs < 1
    ensures QuantizePrice(1.0, sigFigs) == 0.0
  {
    var quantum := Pow10(Adjusted(1.0) - (sigFigs - 1));
    assert Pow10(1) == 10.0;
    AdjustedOfOne();
    Pow10Ordered(1, 0 - (sigFigs - 1));
    assert 0.0 <= 1.0 / quantum < 0.5 by {
      if 1.0 / quantum >= 0.5 {
        DivAtLeast(1.0, quantum, 0.5);
        assert false;
      }
    }
    RoundUnique(1.0 / quantum, 0);
  }

  lemma AdjustedOfOne()
    ensures Adjusted(1.0) == 0
  {
    assert Pow10(1) == 10.0;
    AdjustedUnique(1.0, 0);
  }

  lemma AdjustedUnique(x: real, e: int)
    requires 0.0 < x && Pow10(e) <= x < Pow10(e + 1)
    ensures Adjusted(x) == e
  {
    var f := Adjusted(x);
    if f < e {
      Pow10Ordered(f + 1, e);
      assert false;
    } else if e < f {
      Pow10Ordered(e + 1, f);
      assert false;
    }
  }

  /** Rounding twice is rounding once, also when the first rounding reached the next decade. */
  lemma QuantizePriceIdempotent(price: real, sigFigs: int)
    requires sigFigs >= 1
    ensures QuantizePrice(QuantizePrice(price, sigFigs), sigFigs) == QuantizePrice(price, sigFigs)
  {
    if price < 0.0 {
      QuantizePriceOdd(price, sigFigs);
      QuantizePriceOdd(QuantizePrice(-price, sigFigs), sigFigs);
      PositiveIdempotent(-price, sigFigs);
    } else if price > 0.0 {
      PositiveIdempotent(price, sigFigs);
    }
  }

  lemma PositiveIdempotent(x: real, sigFigs: int)
    requires x > 0.0 && sigFigs >= 1
    ensures QuantizePrice(QuantizePrice(x, sigFigs), sigFigs) == QuantizePrice(x, sigFigs)
  {
    var e, y := Adjusted(x), QuantizePrice(x, sigFigs);
    QuantizeInDecade(x, sigFigs);
    if y < Pow10(e + 1) {
      AdjustedUnique(y, e);
      QuantizeIdempotent(x, Pow10(e - (sigFigs - 1)));
    } else {
      Pow10Step(e + 1);
      AdjustedUnique(y, e + 1);
      DecadeOnGrid(e + 1 - (sigFigs - 1), sigFigs - 1);
    }
  }

  // A number has at least `10^k` quanta when its leading digit is `k` decades above the quantum.
  lemma {:induction false} QuantaInDecade(e: int, k: nat, x: real)
    requires Pow10(e + k) <= x
    ensures TenTo(k) as real * Pow10(e) <= x
  {
    if k > 0 {
      Pow10Step(e + k - 1);
      hide Pow10;
      QuantaInDecade(e, k - 1, 0.1 * x);
      TenfoldBelow(TenTo(k - 1), Pow10(e), x);
    }
  }

  lemma TenfoldBelow(n: int, p: real, x: real)
    requires n as real * p <= 0.1 * x
    ensures (10 * n) as real * p <= x
  {
    assert (10 * n) as real * p == 10.0 * (n as real * p);
  }

  /** `y` is within half a unit of `x`, the unit being the last of `places + 1` significant figures of `x`. */
  predicate WithinHalfUnit(x: real, y: real, places: nat) {
    2.0 * TenTo(places) as real * Abs(y - x) <= Abs(x)
  }

  /** Rounding to so many significant figures: a price in the decade of `10^e` becomes the nearest multiple of
      `10^(e + 1 - sigFigs)`, half to even. */
  lemma QuantizePriceIff(price: real, sigFigs: int, e: int, r: real)
    requires Pow10(e) <= Abs(price) < Pow10(e + 1)
    ensures QuantizePrice(price, sigFigs) == r <==> NearestMultiple(price, Pow10(e + 1 - sigFigs), r)
  {
    AdjustedUnique(Abs(price), e);
    QuantizeIff(price, Pow10(e + 1 - sigFigs), r);
    hide Quantize, NearestMultiple, Pow10;
  }

  /** The relative error is at most `0.5 * 10^(1 - sigFigs)`. */
  lemma QuantizePriceNear(price: real, sigFigs: int)
    requires sigFigs >= 1
    ensures WithinHalfUnit(price, QuantizePrice(price, sigFigs), sigFigs - 1)
  {
    if price != 0.0 {
      DecadeNear(price, Adjusted(Abs(price)) - (sigFigs - 1), sigFigs - 1);
    }
  }

  /** The same bound holds relative to the rounded price. */
  lemma PriceNearQuantized(price: real, sigFigs: int)
    requires sigFigs >= 1 && price > 0.0
    ensures WithinHalfUnit(QuantizePrice(price, sigFigs), price, sigFigs - 1)
  {
    QuantizeInDecade(price, sigFigs);
    var base := Adjusted(price) - (sigFigs - 1);
    QuantizeNear(price, Pow10(base));
    NearDecade(price, QuantizePrice(price, sigFigs), base, sigFigs - 1);
  }

  lemma NearDecade(x: real, y: real, e: int, k: nat)
    requires Abs(x - y) <= 0.5 * Pow10(e) && Pow10(e + k) <= y
    ensures WithinHalfUnit(y, x, k)
  {
    QuantaInDecade(e, k, y);
    NearRelative(x, y, Pow10(e), TenTo(k));
  }

  lemma NearRelative(x: real, y: real, quantum: real, n: int)
    requires 0.0 < quantum && 0 <= n && Abs(x - y) <= 0.5 * quantum && n as real * quantum <= y
    ensures 2.0 * n as real * Abs(x - y) <= Abs(y)
  {
    var error := Abs(x - y);
    ScaleLe(2.0 * error, quantum, n as real);
    assert 2.0 * n as real * error == (2.0 * error) * n as real;
  }

  lemma DecadeNear(x: real, e: int, k: nat)
    requires Pow10(e + k) <= Abs(x)
    ensures WithinHalfUnit(x, Quantize(x, Pow10(e)), k)
  {
    hide Pow10, TenTo, Quantize;
    QuantaInDecade(e, k, Abs(x));
    RelativeNear(x, Pow10(e), TenTo(k));
  }

  lemma RelativeNear(x: real, quantum: real, n: int)
    requires 0.0 < quantum && 0 <= n && n as real * quantum <= Abs(x)
    ensures 2.0 * n as real * Abs(Quantize(x, quantum) - x) <= Abs(x)
  {
    var error := Abs(Quantize(x, quantum) - x);
    QuantizeNear(x, quantum);
    ScaleLe(2.0 * error, quantum, n as real);
    assert 2.0 * n as real * error == (2.0 * error) * n as real;
  }
}
