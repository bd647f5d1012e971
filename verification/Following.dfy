/** The live book is the replay of the persisted stream, up to prices whose ticks have been pruned and stale marks. */
module Following {
  import opened Events
  import opened Ledger
  import opened Conservation
  import opened Risk
  import opened Execution
  import opened Orders

  predicate IsPricedTick(e: Event, instrument: string) {
    e.Ticked? && e.instrument == instrument && PricedTick(instrument, e.price)
  }

  /** A priced tick of the instrument came after its latest opening fill. */
  predicate TickedSince(log: seq<Event>, instrument: string) {
    log != [] &&
    var e := log[|log| - 1];
    IsPricedTick(e, instrument) ||
    (!(IsOpenFill(e) && e.fill.instrument == instrument) && TickedSince(log[..|log| - 1], instrument))
  }

  /** A position that ticked since it was opened is marked at the last price. */
  ghost predicate MarksFresh(log: seq<Event>, b: Book) {
    forall i :: i in b.positions && TickedSince(log, i) ==> i in b.prices && b.positions[i].mark == b.prices[i]
  }

  /** The stream accounts for all the money; a price it still has is the live one. */
  ghost predicate BookFollowsLog(cfg: Settings, c: Core) {
    && SameMoney(Replay(cfg, c.log), c.book) && PricesWithin(Replay(cfg, c.log).prices, c.book.prices)
    && MarksFresh(c.log, c.book)
  }

  /** Events that neither move money nor set a price. */
  predicate Quiet(events: seq<Event>) {
    forall e :: e in events ==> !e.Filled? && !e.Ticked?
  }

  lemma ReplayAppend(cfg: Settings, log: seq<Event>, e: Event)
    ensures Replay(cfg, log + [e]) == Apply(cfg, Replay(cfg, log), e)
    ensures Residual(log + [e]) == Residual(log) + ResidualOf(e)
    ensures NoPyramiding(cfg, log + [e]) <==>
              NoPyramiding(cfg, log) && (IsOpenFill(e) ==> e.fill.instrument !in Replay(cfg, log).positions)
    ensures forall i :: TickedSince(log + [e], i) <==>
              IsPricedTick(e, i) || (!(IsOpenFill(e) && e.fill.instrument == i) && TickedSince(log, i))
  {
    assert (log + [e])[..|log|] == log;
  }

  lemma {:induction false} ReplayQuiet(cfg: Settings, log: seq<Event>, events: seq<Event>)
    requires Quiet(events)
    ensures Replay(cfg, log + events) == Replay(cfg, log)
    ensures Residual(log + events) == Residual(log)
    ensures NoPyramiding(cfg, log + events) <==> NoPyramiding(cfg, log)
    ensures forall i :: TickedSince(log + events, i) <==> TickedSince(log, i)
  {
    if events == [] {
      assert log + events == log;
    } else {
      var n := |events| - 1;
      ReplayQuiet(cfg, log, events[..n]);
      ReplayAppend(cfg, log + events[..n], events[n]);
      assert log + events == log + events[..n] + [events[n]];
    }
  }

  lemma QuietFollows(cfg: Settings, c: Core, d: Core, events: seq<Event>)
    requires BookFollowsLog(cfg, c) && Quiet(events) && d.log == c.log + events && d.book == c.book
    ensures BookFollowsLog(cfg, d)
  {
    ReplayQuiet(cfg, c.log, events);
  }

  lemma ApplyKeepsFresh(cfg: Settings, log: seq<Event>, b: Book, e: Event)
    requires MarksFresh(log, b)
    ensures MarksFresh(log + [e], Apply(cfg, b, e))
  {
    ReplayAppend(cfg, log, e);
  }

  // One event that does move the book, after quiet ones.
  lemma AppliedFollows(cfg: Settings, c: Core, d: Core, events: seq<Event>, e: Event)
    requires BookFollowsLog(cfg, c) && Quiet(events)
    requires d.log == c.log + events + [e] && d.book == Apply(cfg, c.book, e)
    ensures BookFollowsLog(cfg, d)
  {
    ReplayQuiet(cfg, c.log, events);
    ReplayAppend(cfg, c.log + events, e);
    ApplyKeepsSameness(cfg, Replay(cfg, c.log), c.book, e);
    ApplyKeepsFresh(cfg, c.log + events, c.book, e);
  }

  lemma MarkedFollows(cfg: Settings, c: Core, instrument: string, price: Option<real>, now: int)
    requires BookFollowsLog(cfg, c)
    ensures BookFollowsLog(cfg, Marked(c, instrument, price, now))
  {
    AppliedFollows(cfg, c, Marked(c, instrument, price, now), [], Ticked(instrument, price, now));
    assert c.log + [] == c.log;
  }

  lemma ClosedFollows(cfg: Settings, c: Core, instrument: string, now: int)
    requires BookFollowsLog(cfg, c) && CanClose(c, instrument)
    ensures BookFollowsLog(cfg, Closed(cfg, c, instrument, now))
  {
    var p := c.book.positions[instrument];
    var key := Submitted(OrderKey(p.decision, Close), Close, p.decision, now);
    var e := Filled(CloseFill(cfg, instrument, p, c.book.prices[instrument]), now);
    assert c.log + [key, e] == c.log + [key] + [e];
    AppliedFollows(cfg, c, Closed(cfg, c, instrument, now), [key], e);
  }

  lemma OpenFollows(cfg: Settings, c: Core, t: Ticket, now: int)
    requires BookFollowsLog(cfg, c)
    ensures BookFollowsLog(cfg, TryOpen(cfg, c, t, now))
  {
    if CanOpen(c, t) {
      var d := TryOpen(cfg, c, t, now);
      var key := Submitted(OrderKey(t.id, Open), Open, t.id, now);
      var fillPrice := OpenPrice(cfg, t.side, c.book.prices[t.instrument]);
      if fillPrice == 0.0 {
        QuietFollows(cfg, c, d, [key]);
      } else {
        AppliedFollows(cfg, c, d, [key], Filled(OpenFill(cfg, t, fillPrice), now));
      }
    }
  }

  lemma WatchFollows(cfg: Settings, c: Core, instrument: string, price: Option<real>, now: int)
    requires BookFollowsLog(cfg, c)
    ensures BookFollowsLog(cfg, MonitorStop(cfg, c, instrument, price, now))
  {
    var breach := Emit(c, [LimitBreached(instrument, now)]);
    QuietFollows(cfg, c, breach, [LimitBreached(instrument, now)]);
    if CanClose(breach, instrument) { ClosedFollows(cfg, breach, instrument, now); }
  }

  lemma TickFollows(cfg: Settings, c: Core, instrument: string, price: Option<real>, now: int)
    requires BookFollowsLog(cfg, c)
    ensures BookFollowsLog(cfg, Tick(cfg, c, instrument, price, now))
  {
    var marked := Marked(c, instrument, price, now);
    MarkedFollows(cfg, c, instrument, price, now);
    WatchFollows(cfg, marked, instrument, price, now);
    var watched := MonitorStop(cfg, marked, instrument, price, now);
    if CanClose(watched, instrument) { ClosedFollows(cfg, watched, instrument, now); }
    var retried := RetryDeferred(cfg, watched, instrument, now);
    QuietFollows(cfg, retried, ExpireStale(cfg, retried, now), Expiries(Stale(cfg, retried.pending, now), now));
  }

  lemma ApprovedFollows(cfg: Settings, c: Core, t: Ticket, now: int)
    requires BookFollowsLog(cfg, c)
    ensures BookFollowsLog(cfg, HandleApproved(cfg, Emit(c, [Approved(t, now)]), t, now))
  {
    var d := Emit(c, [Approved(t, now)]);
    QuietFollows(cfg, c, d, [Approved(t, now)]);
    OpenFollows(cfg, d, t, now);
  }

  lemma ExecuteFollows(cfg: Settings, c: Core, id: string, now: int)
    requires BookFollowsLog(cfg, c)
    ensures BookFollowsLog(cfg, Execute(cfg, c, id, now).0)
  {
    if Level(c.mode) >= Level(Assisted) && Has(c.pending, id) {
      var parked := Find(c.pending, id);
      var d := c.(pending := Without(c.pending, id));
      QuietFollows(cfg, d, Emit(d, [Expired(id, now)]), [Expired(id, now)]);
      var verdict := Evaluate(cfg, d.mode, d.book, parked.ticket.instrument, parked.ticket.side, now);
      if verdict.Cleared? {
        OpenFollows(cfg, d, parked.ticket.(size := verdict.size, stop := Some(verdict.stop)), now);
      }
    }
  }

  lemma FlushFollows(cfg: Settings, c: Core, now: int)
    requires BookFollowsLog(cfg, c)
    ensures BookFollowsLog(cfg, ExpirePending(c, now)) && BookFollowsLog(cfg, ModeHandlers(c, now))
  {
    QuietFollows(cfg, c, ExpirePending(c, now), Expiries(c.pending, now));
  }

  lemma HaltFollows(cfg: Settings, c: Core, now: int)
    requires BookFollowsLog(cfg, c)
    ensures BookFollowsLog(cfg, Halt(c, now))
  {
    var halted := Emit(c.(mode := Observe), [Halted(now)]);
    QuietFollows(cfg, c, halted, [Halted(now)]);
    FlushFollows(cfg, halted, now);
    var flushed := ExpirePending(halted, now);
    QuietFollows(cfg, flushed, Emit(flushed, [ModeChanged(Observe, now)]), [ModeChanged(Observe, now)]);
    FlushFollows(cfg, Emit(flushed, [ModeChanged(Observe, now)]), now);
  }

  lemma ProposeFollows(cfg: Settings, c: Core, id: string, instrument: string, side: Side, now: int)
    requires BookFollowsLog(cfg, c)
    ensures BookFollowsLog(cfg, Propose(cfg, c, id, instrument, side, now))
  {
    QuietFollows(cfg, c, Emit(c, [RiskRejected(id, now)]), [RiskRejected(id, now)]);
    var verdict := Evaluate(cfg, c.mode, c.book, instrument, side, now);
    if verdict.Cleared? {
      hide BookFollowsLog, HandleApproved, Evaluate;
      ApprovedFollows(cfg, c, Ticket(id, instrument, side, verdict.size, Some(verdict.stop)), now);
    }
  }

  lemma RejectFollows(cfg: Settings, c: Core, id: string, now: int)
    requires BookFollowsLog(cfg, c)
    ensures BookFollowsLog(cfg, Reject(c, id, now).0)
  {
    QuietFollows(cfg, c, Emit(c.(pending := Without(c.pending, id)), [OperatorRejected(id, now)]), [OperatorRejected(id, now)]);
  }

  lemma InvalidateFollows(cfg: Settings, c: Core, instrument: string, now: int)
    requires BookFollowsLog(cfg, c)
    ensures BookFollowsLog(cfg, Invalidate(cfg, c, instrument, now))
  {
    var d := Emit(c, [ThesisInvalidated(instrument, now)]);
    QuietFollows(cfg, c, d, [ThesisInvalidated(instrument, now)]);
    if CanClose(d, instrument) { ClosedFollows(cfg, d, instrument, now); }
  }

  lemma SetModeFollows(cfg: Settings, c: Core, to: Mode, now: int)
    requires BookFollowsLog(cfg, c)
    ensures BookFollowsLog(cfg, SetMode(c, to, now))
  {
    var d := Emit(c.(mode := to), [ModeChanged(to, now)]);
    QuietFollows(cfg, c, d, [ModeChanged(to, now)]);
    FlushFollows(cfg, d, now);
  }

  /** Whatever the step, the book stays the replay of what has been persisted. */
  lemma NextFollows(cfg: Settings, c: Core, s: Step)
    requires BookFollowsLog(cfg, c)
    ensures BookFollowsLog(cfg, Next(cfg, c, s))
  {
    hide BookFollowsLog, Tick, Propose, HandleApproved, Execute, Reject, Invalidate, SetMode, Halt;
    match s {
      case DoTick(instrument, price, now) => TickFollows(cfg, c, instrument, price, now);
      case DoPropose(id, instrument, side, now) => ProposeFollows(cfg, c, id, instrument, side, now);
      case DoRedeliver(t, now) => ApprovedFollows(cfg, c, t, now);
      case DoExecute(id, now) => ExecuteFollows(cfg, c, id, now);
      case DoReject(id, now) => RejectFollows(cfg, c, id, now);
      case DoClose(instrument, now) =>
        if CanClose(c, instrument) { ClosedFollows(cfg, c, instrument, now); }
      case DoInvalidate(instrument, now) => InvalidateFollows(cfg, c, instrument, now);
      case DoSetMode(to, now) => SetModeFollows(cfg, c, to, now);
      case DoHalt(now) => HaltFollows(cfg, c, now);
    }
  }
}
