/** What a process knows of prices while its store keeps every tick. */
module Prices {
  import opened Events
  import opened Ledger
  import opened Risk
  import opened Execution
  import opened Orders
  import opened Following
  import opened Recovery

  /** Nothing is held without a price, and every price has its tick in the stream. */
  ghost predicate AllPriced(c: Core) {
    c.book.positions.Keys <= c.book.prices.Keys && forall i :: i in c.book.prices ==> EverPriced(c.log, i)
  }

  /** `d` keeps every price and event of `c`, and holds nothing new without a price. */
  ghost predicate Grows(c: Core, d: Core) {
    && c.log <= d.log && d.book.prices == c.book.prices
    && forall i :: i in d.book.positions ==> i in c.book.positions || i in c.book.prices
  }

  lemma GrowsChain(c: Core, d: Core, e: Core)
    requires Grows(c, d) && Grows(d, e)
    ensures Grows(c, e)
  {
  }

  lemma GrowsKeeps(c: Core, d: Core)
    requires AllPriced(c) && Grows(c, d)
    ensures AllPriced(d)
  {
    forall i | i in d.book.prices
      ensures EverPriced(d.log, i)
    {
      StillPriced(c.log, d.log, i);
    }
  }

  lemma StillPriced(a: seq<Event>, b: seq<Event>, i: string)
    requires a <= b && EverPriced(a, i)
    ensures EverPriced(b, i)
  {
    var e :| e in a && IsPricedTick(e, i);
    assert e in b;
  }

  lemma MarkedPriced(c: Core, instrument: string, price: Option<real>, now: int)
    requires AllPriced(c)
    ensures AllPriced(Marked(c, instrument, price, now))
  {
    var d := Marked(c, instrument, price, now);
    forall i | i in d.book.prices
      ensures EverPriced(d.log, i)
    {
      EverPricedOne(c.log, Ticked(instrument, price, now), i);
    }
  }

  lemma CloseGrows(cfg: Settings, c: Core, instrument: string, now: int)
    ensures Grows(c, TryClose(cfg, c, instrument, now)) && Grows(c, CloseOrDefer(cfg, c, instrument, now))
    ensures Grows(c, RetryDeferred(cfg, c, instrument, now))
  {
    if CanClose(c, instrument) { ClosedEffect(cfg, c, instrument, now); }
  }

  lemma OpenGrows(cfg: Settings, c: Core, t: Ticket, now: int)
    ensures Grows(c, TryOpen(cfg, c, t, now))
  {
    hide OpenPrice, OpenQuantity;
  }

  lemma ExpiriesGrow(cfg: Settings, c: Core, now: int)
    ensures Grows(c, ExpirePending(c, now)) && Grows(c, ExpireStale(cfg, c, now)) && Grows(c, ModeHandlers(c, now))
  {
  }

  lemma TickPriced(cfg: Settings, c: Core, instrument: string, price: Option<real>, now: int)
    requires AllPriced(c)
    ensures AllPriced(Tick(cfg, c, instrument, price, now))
  {
    hide AllPriced, Grows, TryClose, RetryDeferred, ExpireStale, HandleTick, OnSafeSide;
    var marked := Marked(c, instrument, price, now);
    MarkedPriced(c, instrument, price, now);
    var breach := Emit(marked, [LimitBreached(instrument, now)]);
    EmitGrows(marked, [LimitBreached(instrument, now)]);
    CloseGrows(cfg, breach, instrument, now);
    GrowsKeeps(marked, breach);
    GrowsKeeps(breach, TryClose(cfg, breach, instrument, now));
    var watched := MonitorStop(cfg, marked, instrument, price, now);
    CloseGrows(cfg, watched, instrument, now);
    var retried := RetryDeferred(cfg, watched, instrument, now);
    GrowsKeeps(watched, retried);
    ExpiriesGrow(cfg, retried, now);
    GrowsKeeps(retried, ExpireStale(cfg, retried, now));
  }

  lemma EmitGrows(c: Core, events: seq<Event>)
    ensures Grows(c, Emit(c, events))
  {
  }

  lemma ApprovedGrows(cfg: Settings, c: Core, t: Ticket, now: int)
    ensures Grows(c, HandleApproved(cfg, Emit(c, [Approved(t, now)]), t, now))
  {
    var d := Emit(c, [Approved(t, now)]);
    OpenGrows(cfg, d, t, now);
    GrowsChain(c, d, TryOpen(cfg, d, t, now));
  }

  lemma ExecuteGrows(cfg: Settings, c: Core, id: string, now: int)
    ensures Grows(c, Execute(cfg, c, id, now).0)
  {
    hide TryOpen, Evaluate;
    if Level(c.mode) >= Level(Assisted) && Has(c.pending, id) {
      var parked := Find(c.pending, id);
      var d := c.(pending := Without(c.pending, id));
      var verdict := Evaluate(cfg, d.mode, d.book, parked.ticket.instrument, parked.ticket.side, now);
      if verdict.Cleared? {
        OpenGrows(cfg, d, parked.ticket.(size := verdict.size, stop := Some(verdict.stop)), now);
      }
    }
  }

  lemma ProposeGrows(cfg: Settings, c: Core, id: string, instrument: string, side: Side, now: int)
    ensures Grows(c, Propose(cfg, c, id, instrument, side, now))
  {
    hide HandleApproved, Evaluate;
    var verdict := Evaluate(cfg, c.mode, c.book, instrument, side, now);
    if verdict.Cleared? { ApprovedGrows(cfg, c, Ticket(id, instrument, side, verdict.size, Some(verdict.stop)), now); }
  }

  lemma ModeGrows(cfg: Settings, c: Core, to: Mode, now: int)
    ensures Grows(c, SetMode(c, to, now)) && Grows(c, Halt(c, now))
  {
    var moved := Emit(c.(mode := to), [ModeChanged(to, now)]);
    ExpiriesGrow(cfg, moved, now);
    GrowsChain(c, moved, ModeHandlers(moved, now));
    var halted := Emit(c.(mode := Observe), [Halted(now)]);
    ExpiriesGrow(cfg, halted, now);
    var flushed := ExpirePending(halted, now);
    GrowsChain(c, halted, flushed);
    var changed := Emit(flushed, [ModeChanged(Observe, now)]);
    GrowsChain(c, flushed, changed);
    ExpiriesGrow(cfg, changed, now);
    GrowsChain(c, changed, ModeHandlers(changed, now));
  }

  lemma InvalidateGrows(cfg: Settings, c: Core, instrument: string, now: int)
    ensures Grows(c, Invalidate(cfg, c, instrument, now))
  {
    var d := Emit(c, [ThesisInvalidated(instrument, now)]);
    CloseGrows(cfg, d, instrument, now);
    GrowsChain(c, d, CloseOrDefer(cfg, d, instrument, now));
  }

  /** Whatever the step, prices only come and a position is only opened at one. */
  lemma NextKeepsPriced(cfg: Settings, c: Core, s: Step)
    requires AllPriced(c)
    ensures AllPriced(Next(cfg, c, s))
  {
    match s {
      case DoTick(instrument, price, now) => TickPriced(cfg, c, instrument, price, now);
      case _ =>
        NextGrows(cfg, c, s);
        GrowsKeeps(c, Next(cfg, c, s));
    }
  }

  lemma NextGrows(cfg: Settings, c: Core, s: Step)
    requires !s.DoTick?
    ensures Grows(c, Next(cfg, c, s))
  {
    hide Grows, Tick, Propose, HandleApproved, Execute, TryClose, Invalidate, SetMode, Halt;
    match s {
      case DoPropose(id, instrument, side, now) => ProposeGrows(cfg, c, id, instrument, side, now);
      case DoRedeliver(t, now) => ApprovedGrows(cfg, c, t, now);
      case DoExecute(id, now) => ExecuteGrows(cfg, c, id, now);
      case DoReject(id, now) =>
        RequeuedGrows(c, Without(c.pending, id), [OperatorRejected(id, now)]);
      case DoClose(instrument, now) => CloseGrows(cfg, c, instrument, now);
      case DoInvalidate(instrument, now) => InvalidateGrows(cfg, c, instrument, now);
      case DoSetMode(to, now) => ModeGrows(cfg, c, to, now);
      case DoHalt(now) => ModeGrows(cfg, c, c.mode, now);
    }
  }

  lemma RequeuedGrows(c: Core, q: seq<Parked>, events: seq<Event>)
    ensures Grows(c, Emit(c.(pending := q), events)) && Grows(c, c)
  {
  }
}
