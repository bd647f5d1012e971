/** Every event a step persists carries the clock of that step. */
module Clock {
  import opened Events
  import opened Ledger
  import opened Risk
  import opened Execution
  import opened Orders

  predicate Stamp(e: Event, now: int) {
    e.time == now && (e.Ticked? ==> PricedTick(e.instrument, e.price))
  }

  /** `d` adds only events stamped `now`, whose ticks are priced. */
  ghost predicate Stamped(c: Core, d: Core, now: int) {
    c.log <= d.log && forall k :: |c.log| <= k < |d.log| ==> Stamp(d.log[k], now)
  }

  lemma StampedChain(c: Core, d: Core, e: Core, now: int)
    requires Stamped(c, d, now) && Stamped(d, e, now)
    ensures Stamped(c, e, now)
  {
  }

  lemma CloseStamps(cfg: Settings, c: Core, instrument: string, now: int)
    ensures Stamped(c, TryClose(cfg, c, instrument, now), now)
    ensures Stamped(c, CloseOrDefer(cfg, c, instrument, now), now)
    ensures Stamped(c, RetryDeferred(cfg, c, instrument, now), now)
  {
  }

  lemma ExpiriesStamp(cfg: Settings, c: Core, now: int)
    ensures Stamped(c, ExpirePending(c, now), now) && Stamped(c, ExpireStale(cfg, c, now), now)
    ensures Stamped(c, ModeHandlers(c, now), now)
  {
  }

  lemma TickStamps(cfg: Settings, c: Core, instrument: string, price: Option<real>, now: int)
    requires PricedTick(instrument, price)
    ensures Stamped(c, Tick(cfg, c, instrument, price, now), now)
  {
    var marked := Marked(c, instrument, price, now);
    var breach := Emit(marked, [LimitBreached(instrument, now)]);
    var watched := MonitorStop(cfg, marked, instrument, price, now);
    var retried := RetryDeferred(cfg, watched, instrument, now);
    CloseStamps(cfg, breach, instrument, now);
    CloseStamps(cfg, watched, instrument, now);
    ExpiriesStamp(cfg, retried, now);
    StampedChain(c, marked, breach, now);
    StampedChain(c, breach, TryClose(cfg, breach, instrument, now), now);
    StampedChain(c, watched, retried, now);
    StampedChain(c, retried, ExpireStale(cfg, retried, now), now);
  }

  lemma OpenStamps(cfg: Settings, c: Core, t: Ticket, now: int)
    ensures Stamped(c, TryOpen(cfg, c, t, now), now)
    ensures Stamped(c, HandleApproved(cfg, Emit(c, [Approved(t, now)]), t, now), now)
  {
    var d := Emit(c, [Approved(t, now)]);
    FillStamps(cfg, c, t, now);
    FillStamps(cfg, d, t, now);
    StampedChain(c, d, TryOpen(cfg, d, t, now), now);
  }

  lemma FillStamps(cfg: Settings, c: Core, t: Ticket, now: int)
    ensures Stamped(c, TryOpen(cfg, c, t, now), now)
  {
  }

  lemma HaltStamps(cfg: Settings, c: Core, now: int)
    ensures Stamped(c, Halt(c, now), now)
  {
    var halted := Emit(c.(mode := Observe), [Halted(now)]);
    var flushed := ExpirePending(halted, now);
    var changed := Emit(flushed, [ModeChanged(Observe, now)]);
    ExpiriesStamp(cfg, halted, now);
    ExpiriesStamp(cfg, changed, now);
    StampedChain(c, halted, flushed, now);
    StampedChain(c, flushed, changed, now);
    StampedChain(c, changed, ModeHandlers(changed, now), now);
  }

  lemma ExecuteStamps(cfg: Settings, c: Core, id: string, now: int)
    ensures Stamped(c, Execute(cfg, c, id, now).0, now)
  {
    if Level(c.mode) >= Level(Assisted) && Has(c.pending, id) {
      var parked := Find(c.pending, id);
      var d := c.(pending := Without(c.pending, id));
      var verdict := Evaluate(cfg, d.mode, d.book, parked.ticket.instrument, parked.ticket.side, now);
      if verdict.Cleared? {
        OpenStamps(cfg, d, parked.ticket.(size := verdict.size, stop := Some(verdict.stop)), now);
      }
    }
  }

  predicate Clocked(s: Step) {
    s.DoTick? ==> PricedTick(s.instrument, s.price)
  }

  lemma NextStamps(cfg: Settings, c: Core, s: Step)
    requires Clocked(s)
    ensures Stamped(c, Next(cfg, c, s), s.now)
  {
    match s {
      case DoTick(instrument, price, now) => TickStamps(cfg, c, instrument, price, now);
      case DoPropose(id, instrument, side, now) =>
        var verdict := Evaluate(cfg, c.mode, c.book, instrument, side, now);
        if verdict.Cleared? {
          OpenStamps(cfg, c, Ticket(id, instrument, side, verdict.size, Some(verdict.stop)), now);
        }
      case DoRedeliver(t, now) => OpenStamps(cfg, c, t, now);
      case DoExecute(id, now) => ExecuteStamps(cfg, c, id, now);
      case DoReject(id, now) =>
      case DoClose(instrument, now) => CloseStamps(cfg, c, instrument, now);
      case DoInvalidate(instrument, now) =>
        var d := Emit(c, [ThesisInvalidated(instrument, now)]);
        CloseStamps(cfg, d, instrument, now);
        StampedChain(c, d, CloseOrDefer(cfg, d, instrument, now), now);
      case DoSetMode(to, now) =>
        var d := Emit(c.(mode := to), [ModeChanged(to, now)]);
        ExpiriesStamp(cfg, d, now);
        StampedChain(c, d, ModeHandlers(d, now), now);
      case DoHalt(now) => HaltStamps(cfg, c, now);
    }
  }
}
