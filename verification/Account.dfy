/** Money over whole runs: the conservation law at every state, and cash that never goes negative. */
module Account {
  import opened Numbers
  import opened Events
  import opened Totals
  import opened Rounding
  import opened Pricing
  import opened Sizing
  import opened Ledger
  import opened Conservation
  import opened Risk
  import opened Execution
  import opened Orders
  import opened Following
  import opened Safety

  // ---------- conservation ----------

  /** Notional bought and notional paid differ by at most the rounding of the quantity to eight decimals. */
  predicate TinyResidual(f: FillPayload)
    requires f.FillPayload?
  {
    0.0 < f.price && Abs(f.price * f.quantity - f.cost) <= 0.000000005 * f.price
  }

  ghost predicate Conserved(cfg: Settings, c: Core) {
    && CashIdentity(cfg, c.book, Residual(c.log))
    && forall e :: e in c.log && IsOpenFill(e) ==> TinyResidual(e.fill)
  }

  predicate PositivePrices(b: Book) {
    forall i :: i in b.prices ==> 0.0 < b.prices[i]
  }

  lemma SlippedPositive(cfg: Settings, side: Side, price: real)
    requires 0.0 < price && 0.0 <= cfg.slippage < 1.0
    ensures 0.0 < SlippedPrice(cfg, side, price)
  {
    ProductPositive(price, 1.0 + cfg.slippage);
    ProductPositive(price, 1.0 - cfg.slippage);
  }

  lemma ProductPositive(a: real, b: real)
    requires 0.0 < a && 0.0 < b
    ensures 0.0 < a * b
  {
  }

  lemma QuantizedPositive(x: real)
    requires 0.0 < x
    ensures 0.0 < QuantizePrice(x)
  {
    PositiveMonotone(x, x, PRICE_SIG_FIGS);
  }

  lemma OpenPricePositive(cfg: Settings, side: Side, price: real)
    requires 0.0 < price && 0.0 <= cfg.slippage < 1.0
    ensures 0.0 < OpenPrice(cfg, side, price)
  {
    SlippedPositive(cfg, side, price);
    QuantizedPositive(SlippedPrice(cfg, side, price));
  }

  lemma QuantityNear(size: real, fillPrice: real)
    requires 0.0 < fillPrice && 0.0 < size
    ensures 0.0 <= OpenQuantity(size, fillPrice)
    ensures Abs(fillPrice * OpenQuantity(size, fillPrice) - size) <= 0.000000005 * fillPrice
  {
    var units := size / fillPrice;
    var q := OpenQuantity(size, fillPrice);
    QuantizeNear(units, 0.00000001);
    QuantizeAboveGrid(units, 0, 0.00000001);
    UnitsNear(size, fillPrice, q, 0.000000005);
  }

  lemma UnitsNear(size: real, price: real, q: real, gap: real)
    requires 0.0 < price && q - gap <= size / price <= q + gap
    ensures Abs(price * q - size) <= gap * price
  {
    DivAtLeast(size, price, q - gap);
    DivAtMost(size, price, q + gap);
    assert (q - gap) * price == price * q - gap * price;
    assert (q + gap) * price == price * q + gap * price;
  }

  lemma QuietConserves(cfg: Settings, c: Core, d: Core, events: seq<Event>)
    requires Conserved(cfg, c) && Quiet(events) && d.log == c.log + events && d.book == c.book
    ensures Conserved(cfg, d)
  {
    ReplayQuiet(cfg, c.log, events);
  }

  lemma MarkedConserves(cfg: Settings, c: Core, instrument: string, price: Option<real>, now: int)
    requires Conserved(cfg, c)
    ensures Conserved(cfg, Marked(c, instrument, price, now))
  {
    ResidualOne(c.log, Ticked(instrument, price, now));
    ApplyKeepsIdentity(cfg, c.book, Residual(c.log), Ticked(instrument, price, now));
  }

  lemma ClosedConserves(cfg: Settings, c: Core, instrument: string, now: int)
    requires Conserved(cfg, c) && CanClose(c, instrument)
    ensures Conserved(cfg, Closed(cfg, c, instrument, now))
  {
    var p := c.book.positions[instrument];
    var key := Submitted(OrderKey(p.decision, Close), Close, p.decision, now);
    var fill := CloseFill(cfg, instrument, p, c.book.prices[instrument]);
    assert c.log + [key, Filled(fill, now)] == c.log + [key] + [Filled(fill, now)];
    ResidualOne(c.log, key);
    ResidualOne(c.log + [key], Filled(fill, now));
    CloseKeepsIdentity(cfg, c.book, Residual(c.log), instrument, fill.price, fill.fee, cfg.tradingDay(now));
  }

  lemma OpenFillTiny(cfg: Settings, t: Ticket, fillPrice: real)
    requires 0.0 < fillPrice && 0.0 < t.size
    ensures TinyResidual(OpenFill(cfg, t, fillPrice))
  {
    QuantityNear(t.size, fillPrice);
  }

  lemma OpenConserves(cfg: Settings, c: Core, t: Ticket, now: int)
    requires Conserved(cfg, c) && PositivePrices(c.book) && 0.0 <= cfg.slippage < 1.0
    requires t.instrument !in c.book.positions
    ensures Conserved(cfg, TryOpen(cfg, c, t, now))
  {
    if CanOpen(c, t) {
      var fillPrice := OpenPrice(cfg, t.side, c.book.prices[t.instrument]);
      OpenPricePositive(cfg, t.side, c.book.prices[t.instrument]);
      OpenFillTiny(cfg, t, fillPrice);
      FilledConserves(cfg, c, TryOpen(cfg, c, t, now), Submitted(OrderKey(t.id, Open), Open, t.id, now),
                      OpenFill(cfg, t, fillPrice), now);
    }
  }

  lemma FilledConserves(cfg: Settings, c: Core, d: Core, key: Event, f: FillPayload, now: int)
    requires Conserved(cfg, c) && key.Submitted? && IsOpenFill(Filled(f, now)) && f.instrument !in c.book.positions
    requires d.log == c.log + [key] + [Filled(f, now)] && d.book == HandleFill(c.book, f, cfg.tradingDay(now))
    requires TinyResidual(f)
    ensures Conserved(cfg, d)
  {
    ResidualOne(c.log, key);
    ResidualOne(c.log + [key], Filled(f, now));
    ApplyKeepsIdentity(cfg, c.book, Residual(c.log), Filled(f, now));
  }

  lemma WatchConserves(cfg: Settings, c: Core, instrument: string, price: Option<real>, now: int)
    requires Conserved(cfg, c)
    ensures Conserved(cfg, MonitorStop(cfg, c, instrument, price, now))
  {
    var breach := Emit(c, [LimitBreached(instrument, now)]);
    QuietConserves(cfg, c, breach, [LimitBreached(instrument, now)]);
    if CanClose(breach, instrument) { ClosedConserves(cfg, breach, instrument, now); }
  }

  lemma RetryConserves(cfg: Settings, c: Core, instrument: string, now: int)
    requires Conserved(cfg, c)
    ensures Conserved(cfg, RetryDeferred(cfg, c, instrument, now))
  {
    hide Closed;
    if CanClose(c, instrument) { ClosedConserves(cfg, c, instrument, now); }
  }

  lemma SweepConserves(cfg: Settings, c: Core, now: int)
    requires Conserved(cfg, c)
    ensures Conserved(cfg, ExpireStale(cfg, c, now))
  {
    QuietConserves(cfg, c, ExpireStale(cfg, c, now), Expiries(Stale(cfg, c.pending, now), now));
  }

  lemma TickConserves(cfg: Settings, c: Core, instrument: string, price: Option<real>, now: int)
    requires Conserved(cfg, c)
    ensures Conserved(cfg, Tick(cfg, c, instrument, price, now))
  {
    hide Conserved, MonitorStop, RetryDeferred, ExpireStale, HandleTick;
    var marked := Marked(c, instrument, price, now);
    MarkedConserves(cfg, c, instrument, price, now);
    WatchConserves(cfg, marked, instrument, price, now);
    var watched := MonitorStop(cfg, marked, instrument, price, now);
    RetryConserves(cfg, watched, instrument, now);
    SweepConserves(cfg, RetryDeferred(cfg, watched, instrument, now), now);
  }

  lemma ExecuteConserves(cfg: Settings, c: Core, id: string, now: int)
    requires Conserved(cfg, c) && PositivePrices(c.book) && 0.0 <= cfg.slippage < 1.0
    ensures Conserved(cfg, Execute(cfg, c, id, now).0)
  {
    if Level(c.mode) >= Level(Assisted) && Has(c.pending, id) {
      var parked := Find(c.pending, id);
      var d := c.(pending := Without(c.pending, id));
      QuietConserves(cfg, d, Emit(d, [Expired(id, now)]), [Expired(id, now)]);
      var verdict := Evaluate(cfg, d.mode, d.book, parked.ticket.instrument, parked.ticket.side, now);
      if verdict.Cleared? {
        OpenConserves(cfg, d, parked.ticket.(size := verdict.size, stop := Some(verdict.stop)), now);
      }
    }
  }

  lemma ProposeConserves(cfg: Settings, c: Core, id: string, instrument: string, side: Side, now: int)
    requires Conserved(cfg, c) && PositivePrices(c.book) && 0.0 <= cfg.slippage < 1.0
    ensures Conserved(cfg, Propose(cfg, c, id, instrument, side, now))
  {
    hide Evaluate, TryOpen, Conserved;
    QuietConserves(cfg, c, Emit(c, [RiskRejected(id, now)]), [RiskRejected(id, now)]);
    var verdict := Evaluate(cfg, c.mode, c.book, instrument, side, now);
    if verdict.Cleared? {
      var t := Ticket(id, instrument, side, verdict.size, Some(verdict.stop));
      ClearedFree(cfg, c.mode, c.book, instrument, side, now);
      QuietConserves(cfg, c, Emit(c, [Approved(t, now)]), [Approved(t, now)]);
      OpenConserves(cfg, Emit(c, [Approved(t, now)]), t, now);
      ParkingConserves(cfg, Emit(c, [Approved(t, now)]), HandleApproved(cfg, Emit(c, [Approved(t, now)]), t, now));
    }
  }

  lemma ParkingConserves(cfg: Settings, c: Core, d: Core)
    requires Conserved(cfg, c)
    ensures d.log == c.log && d.book == c.book ==> Conserved(cfg, d)
  {
  }

  lemma HaltConserves(cfg: Settings, c: Core, now: int)
    requires Conserved(cfg, c)
    ensures Conserved(cfg, Halt(c, now))
  {
    var halted := Emit(c.(mode := Observe), [Halted(now)]);
    QuietConserves(cfg, c, halted, [Halted(now)]);
    var flushed := ExpirePending(halted, now);
    QuietConserves(cfg, halted, flushed, Expiries(halted.pending, now));
    var changed := Emit(flushed, [ModeChanged(Observe, now)]);
    QuietConserves(cfg, flushed, changed, [ModeChanged(Observe, now)]);
    QuietConserves(cfg, changed, ExpirePending(changed, now), Expiries(changed.pending, now));
  }

  lemma RejectConserves(cfg: Settings, c: Core, id: string, now: int)
    requires Conserved(cfg, c)
    ensures Conserved(cfg, Reject(c, id, now).0)
  {
    QuietConserves(cfg, c, Emit(c.(pending := Without(c.pending, id)), [OperatorRejected(id, now)]), [OperatorRejected(id, now)]);
  }

  lemma InvalidateConserves(cfg: Settings, c: Core, instrument: string, now: int)
    requires Conserved(cfg, c)
    ensures Conserved(cfg, Invalidate(cfg, c, instrument, now))
  {
    var d := Emit(c, [ThesisInvalidated(instrument, now)]);
    QuietConserves(cfg, c, d, [ThesisInvalidated(instrument, now)]);
    if CanClose(d, instrument) { ClosedConserves(cfg, d, instrument, now); }
  }

  lemma SetModeConserves(cfg: Settings, c: Core, to: Mode, now: int)
    requires Conserved(cfg, c)
    ensures Conserved(cfg, SetMode(c, to, now))
  {
    var d := Emit(c.(mode := to), [ModeChanged(to, now)]);
    QuietConserves(cfg, c, d, [ModeChanged(to, now)]);
    QuietConserves(cfg, d, ExpirePending(d, now), Expiries(d.pending, now));
  }

  lemma NextConserves(cfg: Settings, c: Core, s: Step)
    requires Conserved(cfg, c) && PositivePrices(c.book) && 0.0 <= cfg.slippage < 1.0 && Checked(s)
    ensures Conserved(cfg, Next(cfg, c, s))
  {
    hide Conserved, Tick, Propose, HandleApproved, Execute, Reject, Invalidate, SetMode, Halt;
    match s {
      case DoTick(instrument, price, now) => TickConserves(cfg, c, instrument, price, now);
      case DoPropose(id, instrument, side, now) => ProposeConserves(cfg, c, id, instrument, side, now);
      case DoRedeliver(t, now) =>
      case DoExecute(id, now) => ExecuteConserves(cfg, c, id, now);
      case DoReject(id, now) => RejectConserves(cfg, c, id, now);
      case DoClose(instrument, now) =>
        if CanClose(c, instrument) { ClosedConserves(cfg, c, instrument, now); }
      case DoInvalidate(instrument, now) => InvalidateConserves(cfg, c, instrument, now);
      case DoSetMode(to, now) => SetModeConserves(cfg, c, to, now);
      case DoHalt(now) => HaltConserves(cfg, c, now);
    }
  }

  // ---------- costs ----------

  lemma SlippedIsOffset(cfg: Settings, price: real)
    ensures SlippedPrice(cfg, Long, price) == price + cfg.slippage * price
    ensures SlippedPrice(cfg, Short, price) == price - cfg.slippage * price
  {
  }

  // The fill price of an open is computed like a stop on the other side, at the slippage's distance.
  lemma OpenPriceIsStop(cfg: Settings, price: real)
    ensures OpenPrice(cfg, Long, price) == StopFor(Short, price, cfg.slippage)
    ensures OpenPrice(cfg, Short, price) == StopFor(Long, price, cfg.slippage)
  {
    hide QuantizePrice, SlippedPrice;
    SlippedIsOffset(cfg, price);
    assert StopFor(Short, price, cfg.slippage) == QuantizePrice(price + cfg.slippage * price);
    assert StopFor(Long, price, cfg.slippage) == QuantizePrice(price - cfg.slippage * price);
  }

  lemma OpenPriceWorse(cfg: Settings, side: Side, price: real)
    requires 0.0 < price && HALF_UNIT < cfg.slippage
    ensures match side case Long => price < OpenPrice(cfg, side, price) case Short => OpenPrice(cfg, side, price) < price
  {
    hide OpenPrice, StopFor;
    OpenPriceIsStop(cfg, price);
    StopBeyond(Long, price, cfg.slippage);
    StopBeyond(Short, price, cfg.slippage);
  }

  lemma ClosePriceWorse(cfg: Settings, side: Side, price: real)
    requires 0.0 < price && 0.0 < cfg.slippage
    ensures match side case Long => ClosePrice(cfg, side, price) < price case Short => price < ClosePrice(cfg, side, price)
  {
    ProductPositive(price, cfg.slippage);
    assert price * (1.0 + cfg.slippage) == price + price * cfg.slippage;
    assert price * (1.0 - cfg.slippage) == price - price * cfg.slippage;
  }

  lemma DifferenceProduct(a: real, b: real, q: real)
    requires a < b && 0.0 < q
    ensures a * q < b * q
  {
  }

  lemma WorseLoses(p: Position, price: real, fee: real)
    requires 0.0 < p.quantity && 0.0 <= fee && 0.0 <= p.entryFee
    requires match p.side case Long => price < p.entry case Short => p.entry < price
    ensures RealizedPnl(p, price, fee) < 0.0
  {
    match p.side {
      case Long =>
        DifferenceProduct(price, p.entry, p.quantity);
        LossAfterFees(price * p.quantity, SizeUsd(p), fee + p.entryFee);
      case Short =>
        DifferenceProduct(p.entry, price, p.quantity);
        LossAfterFees(SizeUsd(p), price * p.quantity, fee + p.entryFee);
    }
  }

  lemma LossAfterFees(received: real, paid: real, fees: real)
    requires received < paid && 0.0 <= fees
    ensures received - paid - fees < 0.0
  {
  }

  /** Opening and closing at one market price always loses: slippage is against the trader both ways, on both sides. */
  lemma NoFreeRoundTrip(cfg: Settings, p: Position, price: real, fee: real)
    requires 0.0 < price && HALF_UNIT < cfg.slippage && 0.0 < p.quantity && 0.0 <= fee && 0.0 <= p.entryFee
    requires p.entry == OpenPrice(cfg, p.side, price)
    ensures RealizedPnl(p, ClosePrice(cfg, p.side, price), fee) < 0.0
  {
    OpenPriceWorse(cfg, p.side, price);
    ClosePriceWorse(cfg, p.side, price);
    hide OpenPrice, ClosePrice;
    WorseLoses(p, ClosePrice(cfg, p.side, price), fee);
  }

  // ---------- cash ----------

  /** What buying back one unit at `price` costs, slippage and fee included. */
  function ShortCloseCost(cfg: Settings, price: real): real {
    ClosePrice(cfg, Short, price) * (1.0 + cfg.feePct)
  }

  /** What closing the position at this market price pays out, slippage and fee included; negative when it costs cash. */
  function CreditAt(cfg: Settings, p: Position, price: real): real {
    CreditOfFill(cfg, p, ClosePrice(cfg, p.side, price))
  }

  function CreditOfFill(cfg: Settings, p: Position, fillPrice: real): real {
    CloseCredit(p, fillPrice, fillPrice * p.quantity * cfg.feePct)
  }

  /** Settings under which no opening fill overdraws the cash. */
  predicate CashSettings(cfg: Settings) {
    && 0.0 <= cfg.slippage < 1.0 && 0.0 <= cfg.feePct <= 1.0
    && 0.0 < cfg.minTradeSize && cfg.cashBufferPct < 1.0
    && BufferCoversRounding(cfg.minTradeSize, cfg.cashBufferPct, cfg.feePct)
  }

  /** Prices are positive and quantities are not negative. */
  ghost predicate Sizable(b: Book) {
    PositivePrices(b) && forall i :: i in b.positions ==> 0.0 <= b.positions[i].quantity
  }

  ghost predicate CashInv(b: Book) {
    0.0 <= b.cash && Sizable(b)
  }

  /** Whatever short left the book did so while its buy-back cost was within twice its entry. */
  ghost predicate ClosesCovered(cfg: Settings, b: Book, d: Book) {
    forall i :: i in b.positions && i !in d.positions && b.positions[i].side == Short && i in d.prices ==>
      ShortCloseCost(cfg, d.prices[i]) <= 2.0 * b.positions[i].entry
  }

  lemma CreditFactors(p: Position, price: real, feePct: real)
    ensures p.side == Long ==> CloseCredit(p, price, price * p.quantity * feePct) == price * p.quantity * (1.0 - feePct)
    ensures p.side == Short ==>
              CloseCredit(p, price, price * p.quantity * feePct) == p.quantity * (2.0 * p.entry - price * (1.0 + feePct))
  {
    assert p.quantity * (2.0 * p.entry - price * (1.0 + feePct))
        == 2.0 * (p.entry * p.quantity) - price * p.quantity - price * p.quantity * feePct;
  }

  lemma ProductNonNegative(a: real, b: real)
    requires 0.0 <= a && 0.0 <= b
    ensures 0.0 <= a * b
  {
  }

  /** What is left of a short's margin and gain when buying back one unit costs `cost`. */
  function BuyBackCredit(p: Position, cost: real): real {
    p.quantity * (2.0 * p.entry - cost)
  }

  lemma ShortFillCredit(cfg: Settings, p: Position, fillPrice: real)
    requires p.side == Short
    ensures CreditOfFill(cfg, p, fillPrice) == BuyBackCredit(p, fillPrice * (1.0 + cfg.feePct))
  {
    CreditFactors(p, fillPrice, cfg.feePct);
  }

  lemma ShortCredit(cfg: Settings, p: Position, price: real)
    requires p.side == Short
    ensures CreditAt(cfg, p, price) == BuyBackCredit(p, ShortCloseCost(cfg, price))
  {
    ShortFillCredit(cfg, p, ClosePrice(cfg, Short, price));
    hide ClosePrice, CreditOfFill, BuyBackCredit;
  }

  /** Closing a short returns cash exactly while its buy-back cost is within twice the entry. */
  lemma ShortCloseCreditIff(cfg: Settings, p: Position, price: real)
    requires p.side == Short && 0.0 < p.quantity
    ensures 0.0 <= CreditAt(cfg, p, price) <==> ShortCloseCost(cfg, price) <= 2.0 * p.entry
  {
    ShortCredit(cfg, p, price);
    SignOfProduct(p.quantity, 2.0 * p.entry - ShortCloseCost(cfg, price));
  }

  lemma SignOfProduct(a: real, b: real)
    requires 0.0 < a
    ensures 0.0 <= a * b <==> 0.0 <= b
  {
  }

  lemma CreditNonNegative(cfg: Settings, p: Position, price: real)
    requires 0.0 <= p.quantity && 0.0 < price
    requires p.side == Short ==> ShortCloseCost(cfg, price) <= 2.0 * p.entry
    requires 0.0 <= cfg.slippage < 1.0 && 0.0 <= cfg.feePct <= 1.0
    ensures 0.0 <= CreditAt(cfg, p, price)
  {
    match p.side {
      case Long =>
        var f := ClosePrice(cfg, p.side, price);
        CreditFactors(p, f, cfg.feePct);
        ProductNonNegative(price, 1.0 - cfg.slippage);
        ProductNonNegative(f, p.quantity);
        ProductNonNegative(f * p.quantity, 1.0 - cfg.feePct);
      case Short =>
        ShortCredit(cfg, p, price);
        ProductNonNegative(p.quantity, 2.0 * p.entry - ShortCloseCost(cfg, price));
    }
  }

  lemma ClosedPays(cfg: Settings, c: Core, i: string, now: int)
    requires CanClose(c, i)
    ensures Closed(cfg, c, i, now).book.cash == c.book.cash + CreditAt(cfg, c.book.positions[i], c.book.prices[i])
  {
    hide RealizedPnl, CloseCredit, ClosePrice;
  }

  /** The cash left after buying back a short is not negative exactly when cash and margin cover the buy-back. */
  lemma ShortCloseCashIff(cfg: Settings, c: Core, i: string, now: int)
    requires CanClose(c, i) && c.book.positions[i].side == Short
    ensures var p, price := c.book.positions[i], c.book.prices[i];
      0.0 <= Closed(cfg, c, i, now).book.cash
      <==> 0.0 <= c.book.cash + BuyBackCredit(p, ShortCloseCost(cfg, price))
  {
    ClosedPays(cfg, c, i, now);
    ShortCredit(cfg, c.book.positions[i], c.book.prices[i]);
    hide Closed, CreditAt, ShortCloseCost, BuyBackCredit;
  }

  // ---------- every credit of a transition ----------

  function Itself(x: real): real {
    x
  }

  /** What each position that left the book paid out, at the price the book now has for it. */
  function Gone(cfg: Settings, b: Book, d: Book): map<string, real> {
    map i | i in b.positions && i !in d.positions && i in d.prices :: CreditAt(cfg, b.positions[i], d.prices[i])
  }

  ghost function Credits(cfg: Settings, b: Book, d: Book): real {
    Total(Gone(cfg, b, d), Itself)
  }

  /** Cash moved by the credits of what left the book and by nothing else. */
  ghost predicate Settled(cfg: Settings, b: Book, d: Book) {
    d.cash == b.cash + Credits(cfg, b, d)
  }

  lemma NoneGone(cfg: Settings, b: Book, d: Book)
    requires b.positions.Keys <= d.positions.Keys
    ensures Credits(cfg, b, d) == 0.0
  {
    assert Gone(cfg, b, d) == map[];
  }

  lemma OneGone(cfg: Settings, b: Book, d: Book, i: string)
    requires i in b.positions && i in d.prices && d.positions.Keys == b.positions.Keys - {i}
    ensures Credits(cfg, b, d) == CreditAt(cfg, b.positions[i], d.prices[i])
  {
    hide CreditAt, Total;
    var credit := CreditAt(cfg, b.positions[i], d.prices[i]);
    var none: map<string, real> := map[];
    assert Gone(cfg, b, d) == none[i := credit];
    TotalPut(none, i, credit, Itself);
    assert none - {i} == none;
    TotalOfNone(none, Itself);
  }

  lemma TotalOfNone(m: map<string, real>, f: real -> real)
    requires m == map[]
    ensures Total(m, f) == 0.0
  {
  }

  lemma {:induction false} TotalNonNegative(m: map<string, real>)
    requires forall i :: i in m ==> 0.0 <= m[i]
    ensures 0.0 <= Total(m, Itself)
    decreases |m|
  {
    if m != map[] {
      var i :| i in m;
      TotalSplit(m, i, Itself);
      TotalNonNegative(m - {i});
    }
  }

  lemma CoveredCredits(cfg: Settings, b: Book, d: Book)
    requires Sizable(b) && PositivePrices(d) && CashSettings(cfg) && ClosesCovered(cfg, b, d)
    ensures 0.0 <= Credits(cfg, b, d)
  {
    hide CreditAt, ShortCloseCost;
    forall i | i in b.positions && i !in d.positions && i in d.prices
      ensures 0.0 <= CreditAt(cfg, b.positions[i], d.prices[i])
    {
      CreditNonNegative(cfg, b.positions[i], d.prices[i]);
    }
    TotalNonNegative(Gone(cfg, b, d));
  }

  lemma ClosedSettles(cfg: Settings, c: Core, i: string, now: int)
    requires CanClose(c, i)
    ensures Settled(cfg, c.book, Closed(cfg, c, i, now).book)
    ensures Sizable(c.book) ==> Sizable(Closed(cfg, c, i, now).book)
  {
    ClosedEffect(cfg, c, i, now);
    ClosedPays(cfg, c, i, now);
    hide Closed, CreditAt, Credits;
    OneGone(cfg, c.book, Closed(cfg, c, i, now).book, i);
  }

  lemma CloseSettles(cfg: Settings, c: Core, i: string, now: int)
    ensures Settled(cfg, c.book, TryClose(cfg, c, i, now).book)
    ensures Settled(cfg, c.book, CloseOrDefer(cfg, c, i, now).book)
    ensures Settled(cfg, c.book, RetryDeferred(cfg, c, i, now).book)
    ensures Sizable(c.book) ==> Sizable(TryClose(cfg, c, i, now).book) && Sizable(CloseOrDefer(cfg, c, i, now).book)
                                && Sizable(RetryDeferred(cfg, c, i, now).book)
  {
    hide Closed, Credits, Sizable;
    NoneGone(cfg, c.book, c.book);
    if CanClose(c, i) { ClosedSettles(cfg, c, i, now); }
  }

  /** The same positions, whatever their marks, pay the same credits. */
  lemma SameGone(cfg: Settings, a: Book, b: Book, d: Book)
    requires SamePositions(a.positions, b.positions)
    ensures Gone(cfg, a, d) == Gone(cfg, b, d)
  {
    hide CreditAt, SamePosition;
    forall i | i in a.positions && i in d.prices
      ensures CreditAt(cfg, a.positions[i], d.prices[i]) == CreditAt(cfg, b.positions[i], d.prices[i])
    {
      SameCredit(cfg, a.positions[i], b.positions[i], d.prices[i]);
    }
  }

  lemma SameCredit(cfg: Settings, p: Position, q: Position, price: real)
    requires SamePosition(p, q)
    ensures CreditAt(cfg, p, price) == CreditAt(cfg, q, price)
  {
    var f := ClosePrice(cfg, p.side, price);
    SameClose(p, q, f, f * p.quantity * cfg.feePct);
    hide CloseCredit, ClosePrice;
  }

  lemma SettledRebased(cfg: Settings, a: Book, b: Book, d: Book)
    requires a.cash == b.cash && SamePositions(a.positions, b.positions) && Settled(cfg, b, d)
    ensures Settled(cfg, a, d)
  {
    SameGone(cfg, a, b, d);
  }

  lemma MarkedSame(c: Core, instrument: string, price: Option<real>, now: int)
    ensures SamePositions(c.book.positions, Marked(c, instrument, price, now).book.positions)
    ensures c.book.cash == Marked(c, instrument, price, now).book.cash
    ensures Sizable(c.book) && (PricedTick(instrument, price) ==> 0.0 < price.value) ==>
              Sizable(Marked(c, instrument, price, now).book)
  {
  }

  // At most one of monitor and retry closes the position.
  lemma WatchedThenRetried(cfg: Settings, marked: Core, instrument: string, price: Option<real>, now: int)
    ensures var watched := MonitorStop(cfg, marked, instrument, price, now);
      (watched.book == marked.book || instrument !in watched.book.positions)
      && Settled(cfg, marked.book, watched.book) && (Sizable(marked.book) ==> Sizable(watched.book))
  {
    hide Closed, Credits, Sizable, OnSafeSide;
    var breach := Emit(marked, [LimitBreached(instrument, now)]);
    NoneGone(cfg, marked.book, marked.book);
    CloseSettles(cfg, breach, instrument, now);
    if CanClose(breach, instrument) { ClosedEffect(cfg, breach, instrument, now); }
  }

  lemma TickSettles(cfg: Settings, c: Core, instrument: string, price: Option<real>, now: int)
    requires PricedTick(instrument, price) ==> 0.0 < price.value
    ensures Settled(cfg, c.book, Tick(cfg, c, instrument, price, now).book)
    ensures Sizable(c.book) ==> Sizable(Tick(cfg, c, instrument, price, now).book)
  {
    hide MonitorStop, Closed, Credits, Sizable, Live, Stale, SamePositions;
    var marked := Marked(c, instrument, price, now);
    MarkedSame(c, instrument, price, now);
    WatchedThenRetried(cfg, marked, instrument, price, now);
    var watched := MonitorStop(cfg, marked, instrument, price, now);
    CloseSettles(cfg, watched, instrument, now);
    var retried := RetryDeferred(cfg, watched, instrument, now);
    assert Settled(cfg, marked.book, retried.book);
    SettledRebased(cfg, c.book, marked.book, retried.book);
  }

  lemma OpenKeepsCash(cfg: Settings, c: Core, t: Ticket, now: int)
    requires CashInv(c.book) && CashSettings(cfg) && ClearedTicket(cfg, c, t, now)
    ensures CashInv(TryOpen(cfg, c, t, now).book)
    ensures c.book.positions.Keys <= TryOpen(cfg, c, t, now).book.positions.Keys
  {
    if CanOpen(c, t) {
      var price := c.book.prices[t.instrument];
      OpenPricePositive(cfg, t.side, price);
      ClearedAffordable(cfg, c, t, now);
      OpenAtKeepsCash(cfg, c.book, t, OpenPrice(cfg, t.side, price), cfg.tradingDay(now));
    }
  }

  lemma OpenAtKeepsCash(cfg: Settings, b: Book, t: Ticket, fillPrice: real, day: int)
    requires CashInv(b) && 0.0 < t.size && 0.0 < fillPrice && t.size * (1.0 + cfg.feePct) <= b.cash
    ensures CashInv(HandleFill(b, OpenFill(cfg, t, fillPrice), day))
  {
    QuantityNear(t.size, fillPrice);
    OpenedKeepsCash(cfg, b, OpenFill(cfg, t, fillPrice), t.side, day);
  }

  lemma ClearedAffordable(cfg: Settings, c: Core, t: Ticket, now: int)
    requires CashSettings(cfg) && ClearedTicket(cfg, c, t, now)
    ensures t.size * (1.0 + cfg.feePct) <= c.book.cash
  {
    hide Evaluate, TargetSize, AffordableSize, TotalValue;
    ClearedSize(cfg, c.mode, c.book, t.instrument, t.side, now);
    SizeFits(t.size, TargetSize(cfg, TotalValue(c.book)), c.book.cash, cfg.minTradeSize, cfg.cashBufferPct, cfg.feePct);
  }

  lemma SizeFits(size: real, target: real, cash: real, minTradeSize: real, bufferPct: real, feePct: real)
    requires 0.0 < minTradeSize && bufferPct < 1.0 && BufferCoversRounding(minTradeSize, bufferPct, feePct)
    requires size == AffordableSize(target, cash, bufferPct) && minTradeSize <= size
    ensures size * (1.0 + feePct) <= cash
  {
    CoveredFits(target, cash, minTradeSize, bufferPct, feePct);
  }

  lemma OpenedKeepsCash(cfg: Settings, b: Book, f: FillPayload, side: Side, day: int)
    requires CashInv(b) && f.FillPayload? && f.action == "open" && f.side == SideText(side)
    requires f.fee == f.cost * cfg.feePct && f.cost * (1.0 + cfg.feePct) <= b.cash && 0.0 <= f.quantity
    ensures CashInv(HandleFill(b, f, day))
  {
    assert f.cost * (1.0 + cfg.feePct) == f.cost + f.cost * cfg.feePct;
  }

  lemma CheckedOpenKeepsCash(cfg: Settings, c: Core, s: Step)
    requires CashInv(c.book) && CashSettings(cfg) && Checked(s) && (s.DoPropose? || s.DoExecute?)
    ensures CashInv(Next(cfg, c, s).book) && c.book.positions.Keys <= Next(cfg, c, s).book.positions.Keys
  {
    hide Next, CashInv, TryOpen, ClearedTicket;
    CheckedOpens(cfg, c, s);
    if d, t :| OpensWith(cfg, c, s, d, t, s.now) {
      OpenKeepsCash(cfg, d, t, s.now);
    }
  }

  lemma OpeningFillCosts(cfg: Settings, b: Book, f: FillPayload, side: Side, day: int)
    requires f.FillPayload? && f.action == "open" && f.side == SideText(side)
    requires f.fee == f.cost * cfg.feePct && f.cost * (1.0 + cfg.feePct) <= b.cash
    ensures 0.0 <= HandleFill(b, f, day).cash
  {
    assert f.cost * (1.0 + cfg.feePct) == f.cost + f.cost * cfg.feePct;
  }

  lemma OpenAtCosts(cfg: Settings, b: Book, t: Ticket, fillPrice: real, day: int)
    requires fillPrice != 0.0 && t.size * (1.0 + cfg.feePct) <= b.cash
    ensures 0.0 <= HandleFill(b, OpenFill(cfg, t, fillPrice), day).cash
  {
    hide OpenQuantity, HandleFill;
    OpeningFillCosts(cfg, b, OpenFill(cfg, t, fillPrice), t.side, day);
  }

  lemma OpenLeavesCash(cfg: Settings, c: Core, t: Ticket, now: int)
    requires CashSettings(cfg) && ClearedTicket(cfg, c, t, now)
    ensures TryOpen(cfg, c, t, now).book.cash == c.book.cash || 0.0 <= TryOpen(cfg, c, t, now).book.cash
  {
    ClearedAffordable(cfg, c, t, now);
    hide CashSettings, ClearedTicket, OpenPrice, OpenFill, HandleFill, Evaluate;
    if CanOpen(c, t) {
      var fillPrice := OpenPrice(cfg, t.side, c.book.prices[t.instrument]);
      if fillPrice != 0.0 { OpenAtCosts(cfg, c.book, t, fillPrice, cfg.tradingDay(now)); }
    }
  }

  /** No open leaves cash negative, whatever it was before. */
  lemma OpensNeverOverdraw(cfg: Settings, c: Core, s: Step)
    requires CashSettings(cfg) && Checked(s) && (s.DoPropose? || s.DoExecute?)
    ensures Next(cfg, c, s).book.cash == c.book.cash || 0.0 <= Next(cfg, c, s).book.cash
  {
    hide Next, TryOpen, ClearedTicket, CashSettings;
    CheckedOpens(cfg, c, s);
    if d, t :| OpensWith(cfg, c, s, d, t, s.now) {
      OpenLeavesCash(cfg, d, t, s.now);
    }
  }

  /** What a transition from a solvent book leaves: sizable positions, and cash that is not negative exactly
      when the cash before and the credits of what it closed are not. */
  ghost predicate CashDecided(cfg: Settings, b: Book, d: Book) {
    Sizable(d) && (0.0 <= d.cash <==> 0.0 <= b.cash + Credits(cfg, b, d))
  }

  lemma SettledDecides(cfg: Settings, b: Book, d: Book)
    requires Settled(cfg, b, d) && Sizable(d)
    ensures CashDecided(cfg, b, d)
  {
  }

  /** A step is solvent if and only if cash covers what its closes cost; opens always fit. */
  lemma NextCashIff(cfg: Settings, c: Core, s: Step)
    requires CashInv(c.book) && CashSettings(cfg) && Checked(s)
    ensures CashDecided(cfg, c.book, Next(cfg, c, s).book)
  {
    hide Tick, TryClose, CloseOrDefer, Propose, Execute, Credits, Sizable;
    NoneGone(cfg, c.book, c.book);
    match s {
      case DoTick(instrument, price, now) => TickSettles(cfg, c, instrument, price, now);
      case DoClose(instrument, now) => CloseSettles(cfg, c, instrument, now);
      case DoInvalidate(instrument, now) => CloseSettles(cfg, Emit(c, [ThesisInvalidated(instrument, now)]), instrument, now);
      case DoPropose(_, _, _, _) => OpeningDecided(cfg, c, s);
      case DoExecute(_, _) => OpeningDecided(cfg, c, s);
      case _ =>
    }
  }

  lemma OpeningDecided(cfg: Settings, c: Core, s: Step)
    requires CashInv(c.book) && CashSettings(cfg) && Checked(s) && (s.DoPropose? || s.DoExecute?)
    ensures CashDecided(cfg, c.book, Next(cfg, c, s).book)
  {
    hide Next, Credits;
    CheckedOpenKeepsCash(cfg, c, s);
    NoneGone(cfg, c.book, Next(cfg, c, s).book);
  }

  /** Every step keeps cash nonnegative while the shorts it closes are covered. */
  lemma NextKeepsCash(cfg: Settings, c: Core, s: Step)
    requires CashInv(c.book) && CashSettings(cfg) && Checked(s)
    requires ClosesCovered(cfg, c.book, Next(cfg, c, s).book)
    ensures CashInv(Next(cfg, c, s).book)
  {
    hide Next, Credits;
    NextCashIff(cfg, c, s);
    CoveredCredits(cfg, c.book, Next(cfg, c, s).book);
  }
}
