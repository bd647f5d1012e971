/** Stops, gates and the conservation law over whole runs whose opens all pass the risk engine. */
module Safety {
  import opened Events
  import opened Ledger
  import opened Pricing
  import opened Sizing
  import opened Risk
  import opened Execution
  import opened Orders

  /** Ticks carry positive prices, and approvals come from the risk engine alone. */
  predicate Checked(s: Step) {
    && !s.DoRedeliver?
    && (s.DoTick? && PricedTick(s.instrument, s.price) ==> 0.0 < s.price.value)
  }

  /** `t` is what the risk engine clears in this very state. */
  ghost predicate ClearedTicket(cfg: Settings, c: Core, t: Ticket, now: int) {
    t.stop.Some? && Evaluate(cfg, c.mode, c.book, t.instrument, t.side, now) == Cleared(t.size, t.stop.value)
  }

  /** A stop the monitor watches; a short is never given one at zero, which the monitor would ignore. */
  predicate Watched(p: Position) {
    p.stop.Some? && (p.side == Short ==> 0.0 < p.stop.value)
  }

  /** The last price, once there is one, is strictly on the safe side of the stop. */
  predicate SafeAt(b: Book, i: string)
    requires i in b.positions
  {
    var p := b.positions[i];
    Watched(p) && (i in b.prices ==> OnSafeSide(p.side, b.prices[i], p.stop.value))
  }

  /** Prices are positive and every held position whose price is known is strictly on the safe side of its stop. */
  ghost predicate StopInv(b: Book) {
    && (forall i :: i in b.prices ==> 0.0 < b.prices[i])
    && (forall i :: i in b.positions ==> SafeAt(b, i))
  }

  // A cleared stop lies strictly beyond the price it was computed from.
  lemma ClearedStopSafe(cfg: Settings, mode: Mode, b: Book, t: Ticket, now: int)
    requires HALF_UNIT < cfg.stopLossPct && t.stop.Some? && Usable(b, t.instrument)
    requires 0.0 < b.prices[t.instrument]
    requires Evaluate(cfg, mode, b, t.instrument, t.side, now) == Cleared(t.size, t.stop.value)
    ensures OnSafeSide(t.side, b.prices[t.instrument], t.stop.value)
  {
    hide TotalValue, TargetSize, AffordableSize, DailyLossTripped, QuantizePrice;
    StopBeyond(t.side, b.prices[t.instrument], cfg.stopLossPct);
  }

  lemma StopBeyond(side: Side, price: real, pct: real)
    requires HALF_UNIT < pct && 0.0 < price
    ensures OnSafeSide(side, price, StopFor(side, price, pct))
  {
    hide StopFor;
    StopSafeIff(pct);
  }

  lemma OpenedKeepsStops(b: Book, f: FillPayload, side: Side, day: int)
    requires StopInv(b) && f.FillPayload? && f.action == "open" && f.side == SideText(side)
    requires f.instrument in b.prices && f.stop.Some? && OnSafeSide(side, b.prices[f.instrument], f.stop.value)
    ensures StopInv(HandleFill(b, f, day))
  {
    var d := HandleFill(b, f, day);
    assert forall i :: i in b.positions ==> SafeAt(b, i);
    assert SafeAt(d, f.instrument);
  }

  lemma OpenKeepsStops(cfg: Settings, c: Core, t: Ticket, now: int)
    requires StopInv(c.book) && ClearedTicket(cfg, c, t, now) && HALF_UNIT < cfg.stopLossPct
    ensures StopInv(TryOpen(cfg, c, t, now).book)
  {
    hide Evaluate, QuantizePrice, OpenPrice, OpenQuantity, HandleFill, OnSafeSide;
    if CanOpen(c, t) {
      ClearedStopSafe(cfg, c.mode, c.book, t, now);
      var fillPrice := OpenPrice(cfg, t.side, c.book.prices[t.instrument]);
      if fillPrice != 0.0 {
        OpenedKeepsStops(c.book, OpenFill(cfg, t, fillPrice), t.side, cfg.tradingDay(now));
      }
    }
  }

  lemma ClosingKeepsStops(b: Book, instrument: string, price: real, fee: real, day: int)
    requires forall i :: i in b.prices ==> 0.0 < b.prices[i]
    requires forall i :: i in b.positions && i != instrument ==> SafeAt(b, i)
    ensures StopInv(ClosePosition(b, instrument, price, fee, day))
  {
    var d := ClosePosition(b, instrument, price, fee, day);
    assert forall i :: i in d.positions ==> SafeAt(b, i);
  }

  // A breaching tick always closes; any other tick leaves the price on the safe side, the first one included.
  lemma WatchKeepsStops(cfg: Settings, c: Core, instrument: string, price: real, now: int)
    requires StopInv(c.book) && 0.0 < price && instrument != ""
    requires CloseReady(Marked(c, instrument, Some(price), now), instrument)
    ensures StopInv(MonitorStop(cfg, Marked(c, instrument, Some(price), now), instrument, Some(price), now).book)
  {
    var marked := Marked(c, instrument, Some(price), now);
    forall i | i in marked.book.positions && i != instrument
      ensures SafeAt(marked.book, i)
    {
      assert SafeAt(c.book, i);
    }
    if instrument in c.book.positions {
      var p := c.book.positions[instrument];
      assert SafeAt(c.book, instrument);
      if SafeAt(marked.book, instrument) {
        assert MonitorStop(cfg, marked, instrument, Some(price), now) == marked;
      } else {
        var fill := CloseFill(cfg, instrument, marked.book.positions[instrument], price);
        ClosingKeepsStops(marked.book, instrument, fill.price, fill.fee, cfg.tradingDay(now));
      }
    }
  }

  lemma TickKeepsStops(cfg: Settings, c: Core, instrument: string, price: Option<real>, now: int, carried: set<string>)
    requires StopInv(c.book) && TradeInv(c, carried) && (PricedTick(instrument, price) ==> 0.0 < price.value)
    ensures StopInv(Tick(cfg, c, instrument, price, now).book)
  {
    if PricedTick(instrument, price) {
      MarkedCloseReady(c, instrument, price, now, carried);
      WatchKeepsStops(cfg, c, instrument, price.value, now);
    }
    CloseKeepsStops(cfg, MonitorStop(cfg, Marked(c, instrument, price, now), instrument, price, now), instrument, now);
  }

  lemma MarkedCloseReady(c: Core, instrument: string, price: Option<real>, now: int, carried: set<string>)
    requires TradeInv(c, carried)
    ensures CloseReady(Marked(c, instrument, price, now), instrument)
  {
    QuietKeeps(c, Marked(c, instrument, price, now), [Ticked(instrument, price, now)], carried);
    CloseSucceeds(Marked(c, instrument, price, now), carried, instrument);
  }

  // ---------- every open passes the gates ----------

  /** The ticket the step hands to `_fill`, if it gets that far; the log and queue play no part in it. */
  ghost predicate OpensWith(cfg: Settings, c: Core, s: Step, d: Core, t: Ticket, now: int) {
    && d.book == c.book && d.mode == c.mode && d.submitted == c.submitted
    && ClearedTicket(cfg, d, t, now)
    && Next(cfg, c, s) == TryOpen(cfg, d, t, now)
  }

  // A checked step that does not end in a cleared `_fill` leaves cash-for-position trades to closes.
  lemma CheckedOpens(cfg: Settings, c: Core, s: Step)
    requires Checked(s) && (s.DoPropose? || s.DoExecute?)
    ensures (exists d, t :: OpensWith(cfg, c, s, d, t, s.now))
            || (Next(cfg, c, s).book == c.book && Next(cfg, c, s).submitted == c.submitted)
  {
    match s {
      case DoPropose(id, instrument, side, now) =>
        var verdict := Evaluate(cfg, c.mode, c.book, instrument, side, now);
        if verdict.Cleared? && c.mode == Paper {
          var t := Ticket(id, instrument, side, verdict.size, Some(verdict.stop));
          assert OpensWith(cfg, c, s, Emit(c, [Approved(t, now)]), t, now);
        }
      case DoExecute(id, now) =>
        if Level(c.mode) >= Level(Assisted) && Has(c.pending, id) && !IsExpired(cfg, Find(c.pending, id), now) {
          var parked := Find(c.pending, id);
          var d := c.(pending := Without(c.pending, id));
          var verdict := Evaluate(cfg, d.mode, d.book, parked.ticket.instrument, parked.ticket.side, now);
          if verdict.Cleared? {
            assert OpensWith(cfg, c, s, d, parked.ticket.(size := verdict.size, stop := Some(verdict.stop)), now);
          }
        }
    }
  }

  lemma CloseKeepsStops(cfg: Settings, c: Core, instrument: string, now: int)
    requires StopInv(c.book)
    ensures StopInv(TryClose(cfg, c, instrument, now).book)
    ensures StopInv(CloseOrDefer(cfg, c, instrument, now).book)
    ensures StopInv(RetryDeferred(cfg, c, instrument, now).book)
  {
    if CanClose(c, instrument) {
      hide StopInv, CloseFill, ClosePosition;
      var fill := CloseFill(cfg, instrument, c.book.positions[instrument], c.book.prices[instrument]);
      StopsSafe(c.book);
      ClosingKeepsStops(c.book, instrument, fill.price, fill.fee, cfg.tradingDay(now));
      ClosedBook(cfg, c, instrument, now);
    }
  }

  lemma StopsSafe(b: Book)
    requires StopInv(b)
    ensures forall i :: i in b.prices ==> 0.0 < b.prices[i]
    ensures forall i :: i in b.positions ==> SafeAt(b, i)
  {
  }

  lemma ClosedBook(cfg: Settings, c: Core, instrument: string, now: int)
    requires CanClose(c, instrument)
    ensures var fill := CloseFill(cfg, instrument, c.book.positions[instrument], c.book.prices[instrument]);
      fill.FillPayload?
      && Closed(cfg, c, instrument, now).book == ClosePosition(c.book, instrument, fill.price, fill.fee, cfg.tradingDay(now))
  {
    hide ClosePosition;
  }

  lemma NextKeepsStops(cfg: Settings, c: Core, s: Step, carried: set<string>)
    requires StopInv(c.book) && TradeInv(c, carried) && Checked(s) && HALF_UNIT < cfg.stopLossPct
    ensures StopInv(Next(cfg, c, s).book)
  {
    hide StopInv, TradeInv, Tick, Propose, Execute, TryClose, CloseOrDefer, Stale, Live, TryOpen, ClearedTicket;
    match s {
      case DoTick(instrument, price, now) => TickKeepsStops(cfg, c, instrument, price, now, carried);
      case DoPropose(_, _, _, _) => CheckedOpenKeepsStops(cfg, c, s);
      case DoExecute(_, _) => CheckedOpenKeepsStops(cfg, c, s);
      case DoClose(instrument, now) => CloseKeepsStops(cfg, c, instrument, now);
      case DoInvalidate(instrument, now) =>
        CloseKeepsStops(cfg, Emit(c, [ThesisInvalidated(instrument, now)]), instrument, now);
      case _ =>
    }
  }

  lemma CheckedOpenKeepsStops(cfg: Settings, c: Core, s: Step)
    requires StopInv(c.book) && Checked(s) && (s.DoPropose? || s.DoExecute?) && HALF_UNIT < cfg.stopLossPct
    ensures StopInv(Next(cfg, c, s).book)
  {
    hide StopInv, Next, TryOpen;
    CheckedOpens(cfg, c, s);
    if d, t :| OpensWith(cfg, c, s, d, t, s.now) {
      OpenKeepsStops(cfg, d, t, s.now);
    }
  }
}
