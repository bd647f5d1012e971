/** risk/sizing.py and the affordability gate of risk/engine.py. */
module Sizing {
  import opened Numbers
  import opened Rounding

  function Cents(x: real): real {
    Quantize(x, 0.01)
  }

  function DeterministicSize(value: real, maxTradeLossPct: real, stopLossPct: real, maxPositionPct: real): real {
    if value <= 0.0 then 0.0
    else if stopLossPct <= 0.0 then 0.0
    else Cents(Min(value * maxTradeLossPct / stopLossPct, value * maxPositionPct))
  }

  /** The size left after bounding the trade to the cash held, less the buffer. */
  function AffordableSize(size: real, cash: real, bufferPct: real): real {
    Cents(Min(size, cash * (1.0 - bufferPct)))
  }

  lemma CentsNear(x: real)
    ensures x - 0.005 <= Cents(x) <= x + 0.005
  {
    QuantizeNear(x, 0.01);
  }

  // The second rounding never raises a size that is already in whole cents.
  lemma AffordableAtMost(x: real, cash: real, bufferPct: real)
    ensures AffordableSize(Cents(x), cash, bufferPct) <= Cents(x)
    ensures AffordableSize(Cents(x), cash, bufferPct) <= cash * (1.0 - bufferPct) + 0.005
  {
    QuantizeMonotone(Min(Cents(x), cash * (1.0 - bufferPct)), Cents(x), 0.01);
    QuantizeIdempotent(x, 0.01);
    CentsNear(Min(Cents(x), cash * (1.0 - bufferPct)));
  }

  /** A trade stays within both limits, up to the half cent of the rounding. */
  lemma SizeWithinLimits(value: real, maxTradeLossPct: real, stopLossPct: real, maxPositionPct: real,
                         cash: real, bufferPct: real)
    requires 0.0 < value && 0.0 < stopLossPct
    ensures var size := AffordableSize(
                DeterministicSize(value, maxTradeLossPct, stopLossPct, maxPositionPct), cash, bufferPct);
              && size <= value * maxPositionPct + 0.005
              && (size - 0.005) * stopLossPct <= value * maxTradeLossPct
  {
    var risk, cap := value * maxTradeLossPct, value * maxPositionPct;
    AffordableAtMost(Min(risk / stopLossPct, cap), cash, bufferPct);
    CentsNear(Min(risk / stopLossPct, cap));
    DivAtLeast(risk, stopLossPct,
      AffordableSize(Cents(Min(risk / stopLossPct, cap)), cash, bufferPct) - 0.005);
  }

  /** What the loss budget and the position cap allow of this account value, whichever is less. */
  function Allowed(value: real, maxTradeLossPct: real, stopLossPct: real, maxPositionPct: real): real
    requires 0.0 < stopLossPct
  {
    Min(value * maxTradeLossPct / stopLossPct, value * maxPositionPct)
  }

  /** The target is what both limits allow, to the nearest cent; without value or stop distance there is none. */
  lemma TargetInCents(value: real, maxTradeLossPct: real, stopLossPct: real, maxPositionPct: real)
    ensures var target := DeterministicSize(value, maxTradeLossPct, stopLossPct, maxPositionPct);
      && (0.0 < value && 0.0 < stopLossPct ==>
            NearestMultiple(Allowed(value, maxTradeLossPct, stopLossPct, maxPositionPct), 0.01, target))
      && (value <= 0.0 || stopLossPct <= 0.0 ==> target == 0.0)
  {
    if 0.0 < value && 0.0 < stopLossPct {
      QuantizeIff(Allowed(value, maxTradeLossPct, stopLossPct, maxPositionPct), 0.01,
                  DeterministicSize(value, maxTradeLossPct, stopLossPct, maxPositionPct));
    }
    hide NearestMultiple, Quantize, Min;
  }

  /** The size is the lesser of target and spendable cash, to the nearest cent. */
  lemma SizeInCents(target: real, cash: real, bufferPct: real)
    ensures NearestMultiple(Min(target, cash * (1.0 - bufferPct)), 0.01, AffordableSize(target, cash, bufferPct))
  {
    QuantizeIff(Min(target, cash * (1.0 - bufferPct)), 0.01, AffordableSize(target, cash, bufferPct));
    hide NearestMultiple, Quantize, Min;
  }

  /** Both roundings leave the size within half a cent of what the limits and the cash allow. */
  lemma SizeUsesLimits(value: real, maxTradeLossPct: real, stopLossPct: real, maxPositionPct: real,
                       cash: real, bufferPct: real)
    requires 0.0 < value && 0.0 < stopLossPct
    ensures var target := DeterministicSize(value, maxTradeLossPct, stopLossPct, maxPositionPct);
      && (value * maxTradeLossPct <= (target + 0.005) * stopLossPct || value * maxPositionPct <= target + 0.005)
      && (target <= AffordableSize(target, cash, bufferPct) + 0.005
          || cash * (1.0 - bufferPct) <= AffordableSize(target, cash, bufferPct) + 0.005)
  {
    var risk, cap := value * maxTradeLossPct, value * maxPositionPct;
    var target := Cents(Min(risk / stopLossPct, cap));
    CentsNear(Min(risk / stopLossPct, cap));
    CentsNear(Min(target, cash * (1.0 - bufferPct)));
    hide Cents;
    if risk / stopLossPct <= cap {
      DivAtMost(risk, stopLossPct, target + 0.005);
    }
  }

  /** Whatever the cash and the target size, an approved size and its fee fit into the cash. */
  ghost predicate AlwaysAffordable(minTradeSize: real, bufferPct: real, feePct: real) {
    forall size: real, cash: real :: AffordableSize(size, cash, bufferPct) >= minTradeSize ==>
      AffordableSize(size, cash, bufferPct) * (1.0 + feePct) <= cash
  }

  /** What the buffer saves on the smallest trade covers the half cent a size may be rounded up by. */
  predicate BufferCoversRounding(minTradeSize: real, bufferPct: real, feePct: real) {
    minTradeSize * (1.0 - (1.0 + feePct) * (1.0 - bufferPct)) >= 0.005
  }

  lemma FitsInCash(size: real, cash: real, keep: real, pay: real, minimum: real)
    requires 0.0 < keep && 0.0 < minimum <= size <= cash * keep + 0.005
    requires minimum * (1.0 - pay * keep) >= 0.005
    ensures size * pay <= cash
  {
    var saved := 1.0 - pay * keep;
    assert 0.0 < saved by {
      if saved <= 0.0 { ScaleLe(saved, 0.0, minimum); assert false; }
    }
    ScaleLe(minimum, size, saved);
    assert size * saved == size - size * pay * keep;
    assert size * pay * keep <= cash * keep;
    CancelFactor(size * pay, cash, keep);
  }

  lemma CancelFactor(a: real, b: real, k: real)
    requires 0.0 < k && a * k <= b * k
    ensures a <= b
  {
  }

  // A cash amount whose affordable size is the minimum, and which the fee overdraws.
  lemma OverdrawnCash(minimum: real, bufferPct: real, pay: real) returns (cash: real)
    requires bufferPct < 1.0 && 0.0 < minimum && Cents(minimum) == minimum
    requires minimum * (1.0 - pay * (1.0 - bufferPct)) < 0.005
    ensures AffordableSize(minimum, cash, bufferPct) == minimum
    ensures cash < minimum * pay
  {
    var keep := 1.0 - bufferPct;
    var low, high := (minimum - 0.005) / keep, Min(minimum * pay, minimum / keep);
    assert minimum * (1.0 - pay * keep) == minimum - minimum * pay * keep;
    assert low < high by {
      if minimum * pay <= low {
        DivTimes(minimum - 0.005, keep);
        ScaleLe(minimum * pay, low, keep);
        assert false;
      }
      DivLess(minimum - 0.005, minimum, keep);
    }
    cash := (low + high) * 0.5;
    DivBelow(minimum - 0.005, keep, cash);
    DivAbove(minimum, keep, cash);
    MinimumAffordable(minimum, cash, bufferPct);
  }

  lemma MinimumAffordable(minimum: real, cash: real, bufferPct: real)
    requires Cents(minimum) == minimum && minimum - 0.005 < cash * (1.0 - bufferPct) <= minimum
    ensures AffordableSize(minimum, cash, bufferPct) == minimum
  {
    var bound := cash * (1.0 - bufferPct);
    assert Min(minimum, bound) == bound;
    NearestCent(minimum, bound);
  }

  lemma DivTimes(a: real, k: real)
    requires 0.0 < k
    ensures a / k * k == a
  {
  }

  lemma DivLess(a: real, b: real, k: real)
    requires a < b && 0.0 < k
    ensures a / k < b / k
  {
    assert b / k - a / k == (b - a) / k;
  }

  lemma DivBelow(a: real, k: real, x: real)
    requires 0.0 < k && a / k < x
    ensures a < x * k
  {
  }

  lemma DivAbove(a: real, k: real, x: real)
    requires 0.0 < k && x < a / k
    ensures x * k < a
  {
  }

  // An amount of whole cents is the rounding of everything less than half a cent below it.
  lemma NearestCent(amount: real, x: real)
    requires Cents(amount) == amount && amount - 0.005 < x <= amount
    ensures Cents(x) == amount
  {
    var n := RoundHalfEven(amount / 0.01);
    RoundUnique(x / 0.01, n);
  }

  lemma CoveredFits(size: real, cash: real, minTradeSize: real, bufferPct: real, feePct: real)
    requires 0.0 < minTradeSize && bufferPct < 1.0
    requires BufferCoversRounding(minTradeSize, bufferPct, feePct)
    requires AffordableSize(size, cash, bufferPct) >= minTradeSize
    ensures AffordableSize(size, cash, bufferPct) * (1.0 + feePct) <= cash
  {
    CentsNear(Min(size, cash * (1.0 - bufferPct)));
    FitsInCash(AffordableSize(size, cash, bufferPct), cash, 1.0 - bufferPct, 1.0 + feePct, minTradeSize);
  }

  /** Exactly the settings whose buffer covers the rounding can never overdraw the cash at an opening fill. */
  lemma AffordableIff(minTradeSize: real, bufferPct: real, feePct: real)
    requires 0.0 < minTradeSize && Cents(minTradeSize) == minTradeSize && bufferPct < 1.0
    ensures AlwaysAffordable(minTradeSize, bufferPct, feePct)
            <==> BufferCoversRounding(minTradeSize, bufferPct, feePct)
  {
    if BufferCoversRounding(minTradeSize, bufferPct, feePct) {
      forall size: real, cash: real | AffordableSize(size, cash, bufferPct) >= minTradeSize
        ensures AffordableSize(size, cash, bufferPct) * (1.0 + feePct) <= cash
      {
        CoveredFits(size, cash, minTradeSize, bufferPct, feePct);
      }
    } else {
      var cash := OverdrawnCash(minTradeSize, bufferPct, 1.0 + feePct);
      assert AffordableSize(minTradeSize, cash, bufferPct) >= minTradeSize;
    }
  }
}
