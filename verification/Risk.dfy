/** risk/engine.py: the pre-trade gates, the stop price and the stop monitor. */
module Risk {
  import opened Numbers
  import opened Events
  import opened Ledger
  import opened Pricing
  import opened Rounding
  import opened Sizing

  datatype Reason =
    | ObserveMode
    | MaxOpenPositions
    | PositionExists
    | DailyLossLimit
    | InsufficientCapital
    | InsufficientCash
    | NoStopPrice

  datatype Verdict = Refused(reason: Reason) | Cleared(size: real, stop: real)

  function StopFor(side: Side, price: real, stopLossPct: real): real {
    var offset := stopLossPct * price;
    match side
    case Long => QuantizePrice(price - offset)
    case Short => QuantizePrice(price + offset)
  }

  /** The negation of the monitor's breach test. */
  predicate OnSafeSide(side: Side, price: real, stop: real) {
    match side
    case Long => stop < price
    case Short => price < stop
  }

  predicate DailyLossTripped(cfg: Settings, b: Book, value: real, day: int) {
    value > 0.0 && -DailyRealizedPnl(b, day) / value >= cfg.maxDailyLossPct
  }

  function TargetSize(cfg: Settings, value: real): real {
    DeterministicSize(value, cfg.maxTradeLossPct, cfg.stopLossPct, cfg.maxPositionPct)
  }

  ghost function Evaluate(cfg: Settings, mode: Mode, b: Book, instrument: string, side: Side, now: int): Verdict {
    if mode == Observe then Refused(ObserveMode)
    else
      var value := TotalValue(b);
      if |b.positions| >= cfg.maxOpenPositions then Refused(MaxOpenPositions)
      else if instrument in b.positions then Refused(PositionExists)
      else if DailyLossTripped(cfg, b, value, cfg.tradingDay(now)) then Refused(DailyLossLimit)
      else
        var target := TargetSize(cfg, value);
        if target <= 0.0 then Refused(InsufficientCapital)
        else
          var size := AffordableSize(target, b.cash, cfg.cashBufferPct);
          if size < cfg.minTradeSize then Refused(InsufficientCash)
          else if !Usable(b, instrument) then Refused(NoStopPrice)
          else Cleared(size, StopFor(side, b.prices[instrument], cfg.stopLossPct))
  }

  /** Half a unit in the eighth significant place. */
  const HALF_UNIT: real := 0.00000005

  lemma TenToSeven()
    ensures TenTo(7) == 10000000
  {
    assert TenTo(1) == 10;
    assert TenTo(3) == 1000;
    assert TenTo(5) == 100000;
  }

  // `stop` is within half a unit of `raw`, and `raw` lies more than half a unit from the price.
  lemma NearerThanOffset(price: real, offset: real, stop: real)
    requires 0.0 < price && 0.00000005 * price < offset
    ensures 0.0 < price - offset && WithinHalfUnit(price - offset, stop, 7) ==> stop < price
    ensures 0.0 < stop && WithinHalfUnit(stop, price + offset, 7) ==> price < stop
  {
    TenToSeven();
  }

  lemma RoundedBelow(price: real, raw: real)
    requires 0.0 < price && 0.00000005 * price < price - raw
    ensures QuantizePrice(raw) < price
  {
    if 0.0 < raw {
      QuantizePriceNear(raw, PRICE_SIG_FIGS);
      NearerThanOffset(price, price - raw, QuantizePrice(raw));
    } else {
      QuantizePriceMonotone(raw, 0.0, PRICE_SIG_FIGS);
    }
  }

  lemma RoundedAbove(price: real, raw: real)
    requires 0.0 < price && 0.00000005 * price < raw - price
    ensures price < QuantizePrice(raw)
  {
    PriceNearQuantized(raw, PRICE_SIG_FIGS);
    PositiveMonotone(raw, raw, PRICE_SIG_FIGS);
    NearerThanOffset(price, raw - price, QuantizePrice(raw));
  }

  lemma LongStopBelow(price: real, pct: real)
    requires 0.0 < price && HALF_UNIT < pct
    ensures StopFor(Long, price, pct) < price
  {
    ScaleLess(0.00000005, pct, price);
    RoundedBelow(price, price - pct * price);
  }

  lemma ShortStopAbove(price: real, pct: real)
    requires 0.0 < price && HALF_UNIT < pct
    ensures price < StopFor(Short, price, pct)
  {
    ScaleLess(0.00000005, pct, price);
    RoundedAbove(price, price + pct * price);
  }

  lemma ScaleLess(a: real, b: real, k: real)
    requires a < b && 0.0 < k
    ensures a * k < b * k
  {
  }

  /** How far a stop may be from where it should be: the rounding to eight significant figures. */
  predicate RoundsTo(exact: real, rounded: real) {
    rounded == QuantizePrice(exact) && Abs(rounded - exact) <= HALF_UNIT * Abs(exact)
  }

  lemma QuantizeRounds(exact: real)
    ensures RoundsTo(exact, QuantizePrice(exact))
  {
    QuantizePriceNear(exact, PRICE_SIG_FIGS);
    TenToSeven();
    hide QuantizePrice;
  }

  /** A share of the price away from it, on the losing side. */
  function Away(side: Side, price: real, pct: real): real {
    match side
    case Long => price * (1.0 - pct)
    case Short => price * (1.0 + pct)
  }

  /** The stop lies at its share of the price away from it, on the losing side, up to that rounding. */
  lemma StopAtDistance(side: Side, price: real, pct: real)
    ensures RoundsTo(Away(side, price, pct), StopFor(side, price, pct))
  {
    assert price * (1.0 - pct) == price - pct * price && price * (1.0 + pct) == price + pct * price;
    QuantizeRounds(price - pct * price);
    QuantizeRounds(price + pct * price);
    hide QuantizePrice, RoundsTo;
  }

  /** A clearance carries that stop, and as its size the affordable part of the target: in whole cents, what the tighter
      of the two limits allows of the account value, then what the cash less its buffer allows of that. */
  lemma ClearanceCarries(cfg: Settings, mode: Mode, b: Book, instrument: string, side: Side, now: int)
    requires Evaluate(cfg, mode, b, instrument, side, now).Cleared? && instrument in b.prices
    ensures var verdict, price, value := Evaluate(cfg, mode, b, instrument, side, now), b.prices[instrument], TotalValue(b);
      && RoundsTo(Away(side, price, cfg.stopLossPct), verdict.stop)
      && SizeFor(cfg, value, b.cash, verdict.size)
  {
    hide Evaluate, TotalValue, TargetSize, AffordableSize, StopFor, RoundsTo, Away, SizeFor;
    ClearedIff(cfg, mode, b, instrument, side, now);
    SizeMeans(cfg, TotalValue(b), b.cash);
    ClearedSize(cfg, mode, b, instrument, side, now);
    ClearedStop(cfg, mode, b, instrument, side, now);
    StopAtDistance(side, b.prices[instrument], cfg.stopLossPct);
  }

  /** What the settings allow to put at risk of this account value, to the nearest cent. */
  ghost predicate TargetFor(cfg: Settings, value: real, target: real) {
    && 0.0 < cfg.stopLossPct
    && NearestMultiple(Allowed(value, cfg.maxTradeLossPct, cfg.stopLossPct, cfg.maxPositionPct), 0.01, target)
  }

  /** What the cash, less its buffer, allows of that target, to the nearest cent. */
  ghost predicate SizeFor(cfg: Settings, value: real, cash: real, size: real) {
    exists target :: TargetFor(cfg, value, target) && NearestMultiple(Min(target, cash * (1.0 - cfg.cashBufferPct)), 0.01, size)
  }

  lemma SizeMeans(cfg: Settings, value: real, cash: real)
    requires 0.0 < value && 0.0 < TargetSize(cfg, value)
    ensures SizeFor(cfg, value, cash, AffordableSize(TargetSize(cfg, value), cash, cfg.cashBufferPct))
  {
    hide TargetSize, AffordableSize, TargetFor, NearestMultiple, Min;
    TargetMeans(cfg, value);
    SizeInCents(TargetSize(cfg, value), cash, cfg.cashBufferPct);
  }

  lemma TargetMeans(cfg: Settings, value: real)
    requires 0.0 < value && 0.0 < TargetSize(cfg, value)
    ensures TargetFor(cfg, value, TargetSize(cfg, value))
  {
    TargetInCents(value, cfg.maxTradeLossPct, cfg.stopLossPct, cfg.maxPositionPct);
    hide DeterministicSize, Allowed, NearestMultiple;
  }

  lemma ClearedStop(cfg: Settings, mode: Mode, b: Book, instrument: string, side: Side, now: int)
    requires Evaluate(cfg, mode, b, instrument, side, now).Cleared? && instrument in b.prices
    ensures Evaluate(cfg, mode, b, instrument, side, now).stop == StopFor(side, b.prices[instrument], cfg.stopLossPct)
  {
    hide TotalValue, TargetSize, AffordableSize, DailyLossTripped, StopFor;
  }

  ghost predicate StopAlwaysSafe(pct: real) {
    forall side: Side, price: real :: 0.0 < price ==> OnSafeSide(side, price, StopFor(side, price, pct))
  }

  // At this price the short stop, eight figures long, ties and rounds down to the price or below it.
  lemma ShortStopTies(pct: real)
    requires 0.0 < pct <= HALF_UNIT
    ensures exists price: real :: 0.0 < price && !OnSafeSide(Short, price, StopFor(Short, price, pct))
  {
    TieSplits(pct);
    TieIsOffset(pct);
    TieBreaks(10000000.5 / (1.0 + pct), pct);
  }

  lemma TieBreaks(price: real, pct: real)
    requires price + pct * price == 10000000.5 && 10000000.0 <= price
    ensures !OnSafeSide(Short, price, StopFor(Short, price, pct))
  {
    hide QuantizePrice;
    TieRoundsDown();
  }

  lemma TieIsOffset(pct: real)
    requires 0.0 < pct
    ensures 10000000.5 / (1.0 + pct) + pct * (10000000.5 / (1.0 + pct)) == 10000000.5
  {
    var price := 10000000.5 / (1.0 + pct);
    DivTimes(10000000.5, 1.0 + pct);
    assert price * (1.0 + pct) == price + pct * price;
  }

  lemma TieSplits(pct: real)
    requires 0.0 < pct <= HALF_UNIT
    ensures 10000000.0 <= 10000000.5 / (1.0 + pct)
  {
    if 10000000.5 / (1.0 + pct) < 10000000.0 {
      DivBelow(10000000.5, 1.0 + pct, 10000000.0);
      assert false;
    }
  }

  lemma TieRoundsDown()
    ensures QuantizePrice(10000000.5) == 10000000.0
  {
    assert Pow10(1) == 10.0;
    assert Pow10(3) == 1000.0;
    assert Pow10(5) == 100000.0;
    assert Pow10(7) == 10000000.0;
    AdjustedUnique(10000000.5, 7);
    RoundUnique(10000000.5, 10000000);
  }

  lemma LongStopAtPrice(pct: real)
    requires pct <= 0.0
    ensures !OnSafeSide(Long, 1.0, StopFor(Long, 1.0, pct))
  {
    QuantizePriceMonotone(1.0, 1.0 - pct, PRICE_SIG_FIGS);
    AdjustedOfOne();
    QuantizeInDecade(1.0, PRICE_SIG_FIGS);
  }

  /** Exactly the stop distances above half a unit in the last significant figure put
      every stop strictly beyond the price it protects, at every positive price and on both sides. */
  lemma StopSafeIff(pct: real)
    ensures StopAlwaysSafe(pct) <==> HALF_UNIT < pct
  {
    if HALF_UNIT < pct {
      forall side: Side, price: real | 0.0 < price
        ensures OnSafeSide(side, price, StopFor(side, price, pct))
      {
        LongStopBelow(price, pct);
        ShortStopAbove(price, pct);
      }
    } else if 0.0 < pct {
      ShortStopTies(pct);
    } else {
      LongStopAtPrice(pct);
    }
  }

  /** The day's realized loss is below its share of the account. */
  predicate BelowDailyLimit(cfg: Settings, b: Book, value: real, day: int) {
    -DailyRealizedPnl(b, day) < cfg.maxDailyLossPct * value
  }

  /** The notional and the loss at the stop stay within their shares of the account, up to half a cent of size. */
  predicate WithinLimits(cfg: Settings, value: real, size: real) {
    size <= value * cfg.maxPositionPct + 0.005 && (size - 0.005) * cfg.stopLossPct <= value * cfg.maxTradeLossPct
  }

  /** Every gate a clearance has passed, and the bounds on its size. */
  lemma ClearedMeans(cfg: Settings, mode: Mode, b: Book, instrument: string, side: Side, now: int)
    requires Evaluate(cfg, mode, b, instrument, side, now).Cleared?
    ensures mode != Observe
    ensures |b.positions| < cfg.maxOpenPositions && instrument !in b.positions && Usable(b, instrument)
    ensures 0.0 < TotalValue(b) && BelowDailyLimit(cfg, b, TotalValue(b), cfg.tradingDay(now))
    ensures cfg.minTradeSize <= Evaluate(cfg, mode, b, instrument, side, now).size
    ensures WithinLimits(cfg, TotalValue(b), Evaluate(cfg, mode, b, instrument, side, now).size)
  {
    var value := TotalValue(b);
    TargetWithinLimits(cfg, value, b.cash);
    NotTripped(cfg, b, value, cfg.tradingDay(now));
  }

  // A loss trips the breaker exactly when it reaches its share of the account.
  lemma TrippedIff(cfg: Settings, b: Book, value: real, day: int)
    ensures DailyLossTripped(cfg, b, value, day) <==> 0.0 < value && !BelowDailyLimit(cfg, b, value, day)
  {
    if 0.0 < value { LimitReached(-DailyRealizedPnl(b, day), value, cfg.maxDailyLossPct); }
  }

  lemma LimitReached(loss: real, value: real, limit: real)
    requires 0.0 < value
    ensures limit <= loss / value <==> limit * value <= loss
  {
    var share := loss / value;
    assert share * value == loss;
    if limit <= share { assert limit * value <= share * value; }
    if share < limit { assert share * value < limit * value; }
  }

  /** The gates, in order: each refusal is given exactly when its gate is the first that fails, and a proposal is
      cleared exactly when none does. */
  lemma GatesInOrder(cfg: Settings, mode: Mode, b: Book, instrument: string, side: Side, now: int)
    ensures var verdict, value := Evaluate(cfg, mode, b, instrument, side, now), TotalValue(b);
      var size := AffordableSize(TargetSize(cfg, value), b.cash, cfg.cashBufferPct);
      var active := mode != Observe;
      var room := active && |b.positions| < cfg.maxOpenPositions;
      var free := room && instrument !in b.positions;
      var calm := free && (value <= 0.0 || BelowDailyLimit(cfg, b, value, cfg.tradingDay(now)));
      var sized := calm && 0.0 < TargetSize(cfg, value);
      var paid := sized && cfg.minTradeSize <= size;
      && (verdict == Refused(ObserveMode) <==> !active)
      && (verdict == Refused(MaxOpenPositions) <==> active && !room)
      && (verdict == Refused(PositionExists) <==> room && !free)
      && (verdict == Refused(DailyLossLimit) <==> free && !calm)
      && (verdict == Refused(InsufficientCapital) <==> calm && !sized)
      && (verdict == Refused(InsufficientCash) <==> sized && !paid)
      && (verdict == Refused(NoStopPrice) <==> paid && !Usable(b, instrument))
      && (verdict.Cleared? <==> paid && Usable(b, instrument))
  {
    TrippedIff(cfg, b, TotalValue(b), cfg.tradingDay(now));
    hide TotalValue, TargetSize, AffordableSize, DailyLossTripped, BelowDailyLimit, StopFor;
  }

  lemma TargetNeedsValue(cfg: Settings, value: real)
    requires 0.0 < TargetSize(cfg, value)
    ensures 0.0 < value
  {
  }

  /** The engine clears a proposal if and only if all of this holds. */
  lemma ClearedIff(cfg: Settings, mode: Mode, b: Book, instrument: string, side: Side, now: int)
    ensures Evaluate(cfg, mode, b, instrument, side, now).Cleared?
            <==> && mode != Observe
                 && |b.positions| < cfg.maxOpenPositions && instrument !in b.positions && Usable(b, instrument)
                 && 0.0 < TotalValue(b) && BelowDailyLimit(cfg, b, TotalValue(b), cfg.tradingDay(now))
                 && 0.0 < TargetSize(cfg, TotalValue(b))
                 && cfg.minTradeSize <= AffordableSize(TargetSize(cfg, TotalValue(b)), b.cash, cfg.cashBufferPct)
  {
    GatesInOrder(cfg, mode, b, instrument, side, now);
    if 0.0 < TargetSize(cfg, TotalValue(b)) { TargetNeedsValue(cfg, TotalValue(b)); }
    hide Evaluate, TotalValue, TargetSize, AffordableSize, BelowDailyLimit;
  }

  lemma ClearedFree(cfg: Settings, mode: Mode, b: Book, instrument: string, side: Side, now: int)
    requires Evaluate(cfg, mode, b, instrument, side, now).Cleared?
    ensures mode != Observe && instrument !in b.positions && Usable(b, instrument)
  {
    hide TotalValue, TargetSize, AffordableSize, DailyLossTripped, StopFor;
  }

  // The size cleared is the affordable part of the target.
  lemma ClearedSize(cfg: Settings, mode: Mode, b: Book, instrument: string, side: Side, now: int)
    requires Evaluate(cfg, mode, b, instrument, side, now).Cleared?
    ensures Evaluate(cfg, mode, b, instrument, side, now).size
            == AffordableSize(TargetSize(cfg, TotalValue(b)), b.cash, cfg.cashBufferPct)
    ensures cfg.minTradeSize <= Evaluate(cfg, mode, b, instrument, side, now).size
  {
  }

  lemma NotTripped(cfg: Settings, b: Book, value: real, day: int)
    requires 0.0 < value && !DailyLossTripped(cfg, b, value, day)
    ensures BelowDailyLimit(cfg, b, value, day)
  {
    BelowLimit(-DailyRealizedPnl(b, day), value, cfg.maxDailyLossPct);
  }

  lemma BelowLimit(loss: real, value: real, limit: real)
    requires 0.0 < value && loss / value < limit
    ensures loss < limit * value
  {
  }

  lemma TargetWithinLimits(cfg: Settings, value: real, cash: real)
    requires 0.0 < TargetSize(cfg, value)
    ensures 0.0 < value
    ensures WithinLimits(cfg, value, AffordableSize(TargetSize(cfg, value), cash, cfg.cashBufferPct))
  {
    SizeWithinLimits(value, cfg.maxTradeLossPct, cfg.stopLossPct, cfg.maxPositionPct, cash, cfg.cashBufferPct);
  }
}
