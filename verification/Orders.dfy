/** At most one opening and one closing fill per decision, and a close key that is always free. */
module Orders {
  import opened Events
  import opened Ledger
  import opened Risk
  import opened Execution

  ghost predicate Held(b: Book, id: string) {
    exists i :: i in b.positions && b.positions[i].decision == id
  }

  /** `carried` holds the decisions that were already opened when this process started. */
  ghost predicate TradeInv(c: Core, carried: set<string>) {
    && (forall i, j :: i in c.book.positions && j in c.book.positions && i != j ==>
          c.book.positions[i].decision != c.book.positions[j].decision)
    && (forall id :: Count(c.log, OpensOf(id)) <= 1)
    && (forall id :: Count(c.log, OpensOf(id)) == 1 ==> OrderKey(id, Open) in c.submitted || id in carried)
    && (forall id :: Count(c.log, ClosesOf(id)) + (if Held(c.book, id) then 1 else 0) <= Count(c.log, OpensOf(id)))
    && (forall id :: OrderKey(id, Close) in c.submitted ==> Count(c.log, ClosesOf(id)) == 1)
  }

  ghost predicate PendingAvoids(c: Core, carried: set<string>) {
    forall x :: x in c.pending ==> x.ticket.id !in carried
  }

  predicate Avoids(s: Step, carried: set<string>) {
    match s
    case DoPropose(id, _, _, _) => id !in carried
    case DoRedeliver(t, _) => t.id !in carried
    case _ => true
  }

  ghost predicate SameDecisions(a: Book, b: Book) {
    a.positions.Keys == b.positions.Keys && forall i :: i in a.positions ==> a.positions[i].decision == b.positions[i].decision
  }

  predicate NoFills(events: seq<Event>) {
    forall e :: e in events ==> !e.Filled?
  }

  lemma CountNoFills(log: seq<Event>, events: seq<Event>, id: string)
    requires NoFills(events)
    ensures Count(log + events, OpensOf(id)) == Count(log, OpensOf(id))
    ensures Count(log + events, ClosesOf(id)) == Count(log, ClosesOf(id))
  {
    CountConcat(log, events, OpensOf(id));
    CountConcat(log, events, ClosesOf(id));
    CountZero(events, OpensOf(id));
    CountZero(events, ClosesOf(id));
  }

  lemma CountFill(log: seq<Event>, key: Event, e: Event, id: string)
    requires !key.Filled?
    ensures Count(log + [key, e], OpensOf(id)) == Count(log, OpensOf(id)) + if OpensOf(id)(e) then 1 else 0
    ensures Count(log + [key, e], ClosesOf(id)) == Count(log, ClosesOf(id)) + if ClosesOf(id)(e) then 1 else 0
  {
    var l := log + [key, e];
    assert l[..|l| - 1] == log + [key];
    assert (log + [key])[..|log|] == log;
  }

  // The close key of a held position has never been used.
  lemma CloseKeyFree(c: Core, carried: set<string>, instrument: string)
    requires TradeInv(c, carried) && instrument in c.book.positions
    ensures OrderKey(c.book.positions[instrument].decision, Close) !in c.submitted
  {
    assert Held(c.book, c.book.positions[instrument].decision);
  }

  /** A close goes through unless there is no position or no usable price. */
  lemma CloseSucceeds(c: Core, carried: set<string>, instrument: string)
    requires TradeInv(c, carried)
    ensures CloseReady(c, instrument)
  {
    if instrument in c.book.positions { CloseKeyFree(c, carried, instrument); }
  }

  lemma QuietKeeps(c: Core, d: Core, events: seq<Event>, carried: set<string>)
    requires TradeInv(c, carried) && NoFills(events)
    requires d.log == c.log + events && d.submitted == c.submitted && SameDecisions(c.book, d.book)
    ensures TradeInv(d, carried)
  {
    forall id
      ensures Count(d.log, OpensOf(id)) == Count(c.log, OpensOf(id))
      ensures Count(d.log, ClosesOf(id)) == Count(c.log, ClosesOf(id))
      ensures Held(d.book, id) == Held(c.book, id)
    {
      CountNoFills(c.log, events, id);
    }
  }

  lemma ClosedKeeps(cfg: Settings, c: Core, instrument: string, now: int, carried: set<string>)
    requires TradeInv(c, carried) && CanClose(c, instrument)
    ensures TradeInv(Closed(cfg, c, instrument, now), carried)
  {
    var d := Closed(cfg, c, instrument, now);
    var p := c.book.positions[instrument];
    var fill := CloseFill(cfg, instrument, p, c.book.prices[instrument]);
    var key := OrderKey(p.decision, Close);
    assert Held(c.book, p.decision);
    forall id
      ensures Count(d.log, OpensOf(id)) == Count(c.log, OpensOf(id))
      ensures Count(d.log, ClosesOf(id)) == Count(c.log, ClosesOf(id)) + if id == p.decision then 1 else 0
      ensures id == p.decision ==> !Held(d.book, id)
      ensures Held(d.book, id) ==> Held(c.book, id)
      ensures OrderKey(id, Close) in d.submitted ==> OrderKey(id, Close) in c.submitted || id == p.decision
      ensures OrderKey(id, Open) in c.submitted ==> OrderKey(id, Open) in d.submitted
    {
      CountFill(c.log, Submitted(key, Close, p.decision, now), Filled(fill, now), id);
      if OrderKey(id, Close) == key { OrderKeyInjective(id, Close, p.decision, Close); }
    }
  }

  // A decision whose open key is unused has no fills and no position.
  lemma FreshDecision(c: Core, id: string, carried: set<string>)
    requires TradeInv(c, carried) && id !in carried && OrderKey(id, Open) !in c.submitted
    ensures Count(c.log, OpensOf(id)) == 0 && Count(c.log, ClosesOf(id)) == 0 && !Held(c.book, id)
  {
  }

  lemma OnlyOpenKey(c: Core, d: Core, id: string)
    requires d.submitted == c.submitted + {OrderKey(id, Open)}
    ensures forall other :: OrderKey(other, Close) in d.submitted ==> OrderKey(other, Close) in c.submitted
  {
    forall other | OrderKey(other, Close) == OrderKey(id, Open)
      ensures false
    {
      OrderKeyInjective(other, Close, id, Open);
    }
  }

  lemma OpenedKeeps(c: Core, d: Core, instrument: string, p: Position, key: Event, e: Event, carried: set<string>)
    requires TradeInv(c, carried) && p.decision !in carried && OrderKey(p.decision, Open) !in c.submitted
    requires d.submitted == c.submitted + {OrderKey(p.decision, Open)}
    requires d.book.positions == c.book.positions[instrument := p]
    requires !key.Filled? && IsOpenFill(e) && e.fill.decision == p.decision && d.log == c.log + [key, e]
    ensures TradeInv(d, carried)
  {
    FreshDecision(c, p.decision, carried);
    OnlyOpenKey(c, d, p.decision);
    forall i | i in c.book.positions
      ensures c.book.positions[i].decision != p.decision
    {
      assert Held(c.book, c.book.positions[i].decision);
    }
    forall id
      ensures Count(d.log, OpensOf(id)) == Count(c.log, OpensOf(id)) + if id == p.decision then 1 else 0
      ensures Count(d.log, ClosesOf(id)) == Count(c.log, ClosesOf(id))
      ensures Held(d.book, id) ==> Held(c.book, id) || id == p.decision
    {
      CountFill(c.log, key, e, id);
      if Held(d.book, id) {
        var i :| i in d.book.positions && d.book.positions[i].decision == id;
        assert i == instrument || (i in c.book.positions && c.book.positions[i].decision == id);
      }
    }
  }

  lemma SubmittedKeeps(c: Core, d: Core, id: string, key: Event, carried: set<string>)
    requires TradeInv(c, carried) && !key.Filled?
    requires d == c.(submitted := c.submitted + {OrderKey(id, Open)}, log := c.log + [key])
    ensures TradeInv(d, carried)
  {
    OnlyOpenKey(c, d, id);
    forall other
      ensures Count(d.log, OpensOf(other)) == Count(c.log, OpensOf(other))
      ensures Count(d.log, ClosesOf(other)) == Count(c.log, ClosesOf(other))
      ensures Held(d.book, other) == Held(c.book, other)
    {
      CountNoFills(c.log, [key], other);
    }
  }

  lemma OpenKeeps(cfg: Settings, c: Core, t: Ticket, now: int, carried: set<string>)
    requires TradeInv(c, carried) && t.id !in carried
    ensures TradeInv(TryOpen(cfg, c, t, now), carried)
  {
    if CanOpen(c, t) {
      var d := TryOpen(cfg, c, t, now);
      var key := Submitted(OrderKey(t.id, Open), Open, t.id, now);
      var fillPrice := OpenPrice(cfg, t.side, c.book.prices[t.instrument]);
      if fillPrice == 0.0 {
        SubmittedKeeps(c, d, t.id, key, carried);
      } else {
        var fill := OpenFill(cfg, t, fillPrice);
        var p := Position(t.side, fill.price, fill.quantity, fill.price, fill.stop, fill.fee, t.id);
        assert d.log == c.log + [key, Filled(fill, now)];
        OpenedKeeps(c, d, t.instrument, p, key, Filled(fill, now), carried);
      }
    }
  }

  // ---------- the queue ----------

  lemma {:induction false} WithoutSubset(q: seq<Parked>, id: string)
    ensures forall x :: x in Without(q, id) <==> x in q && x.ticket.id != id
  {
    if q != [] {
      WithoutSubset(q[1..], id);
      assert q == [q[0]] + q[1..];
    }
  }

  lemma {:induction false} PutElements(q: seq<Parked>, parked: Parked)
    ensures forall x :: x in Put(q, parked) ==> x in q || x == parked
    ensures parked in Put(q, parked)
  {
    if q != [] {
      PutElements(q[1..], parked);
      assert q == [q[0]] + q[1..];
    }
  }

  lemma {:induction false} LiveElements(cfg: Settings, q: seq<Parked>, now: int)
    ensures forall x :: x in Live(cfg, q, now) <==> x in q && !IsExpired(cfg, x, now)
    ensures forall x :: x in Stale(cfg, q, now) <==> x in q && IsExpired(cfg, x, now)
  {
    if q != [] {
      LiveElements(cfg, q[1..], now);
      assert q == [q[0]] + q[1..];
    }
  }

  lemma {:induction false} FindElement(q: seq<Parked>, id: string)
    requires Has(q, id)
    ensures Find(q, id) in q && Find(q, id).ticket.id == id
  {
    if q[0].ticket.id != id {
      var k :| 0 <= k < |q| && q[k].ticket.id == id;
      assert q[1..][k - 1].ticket.id == id;
      FindElement(q[1..], id);
    }
  }

  // ---------- whole transitions ----------

  lemma TryCloseKeeps(cfg: Settings, c: Core, instrument: string, now: int, carried: set<string>)
    requires TradeInv(c, carried)
    ensures TradeInv(TryClose(cfg, c, instrument, now), carried)
  {
    if CanClose(c, instrument) { ClosedKeeps(cfg, c, instrument, now, carried); }
  }

  function Marked(c: Core, instrument: string, price: Option<real>, now: int): Core {
    Emit(c, [Ticked(instrument, price, now)]).(book := HandleTick(c.book, instrument, price))
  }

  lemma WatchKeeps(cfg: Settings, c: Core, instrument: string, price: Option<real>, now: int, carried: set<string>)
    requires TradeInv(c, carried)
    ensures TradeInv(MonitorStop(cfg, Marked(c, instrument, price, now), instrument, price, now), carried)
  {
    var marked := Marked(c, instrument, price, now);
    QuietKeeps(c, marked, [Ticked(instrument, price, now)], carried);
    var breach := Emit(marked, [LimitBreached(instrument, now)]);
    QuietKeeps(marked, breach, [LimitBreached(instrument, now)], carried);
    TryCloseKeeps(cfg, breach, instrument, now, carried);
  }

  lemma TickKeeps(cfg: Settings, c: Core, instrument: string, price: Option<real>, now: int, carried: set<string>)
    requires TradeInv(c, carried)
    ensures TradeInv(Tick(cfg, c, instrument, price, now), carried)
  {
    var watched := MonitorStop(cfg, Marked(c, instrument, price, now), instrument, price, now);
    WatchKeeps(cfg, c, instrument, price, now, carried);
    RetryKeeps(cfg, watched, instrument, now, carried);
    var retried := RetryDeferred(cfg, watched, instrument, now);
    QuietKeeps(retried, ExpireStale(cfg, retried, now), Expiries(Stale(cfg, retried.pending, now), now), carried);
  }

  lemma RetryKeeps(cfg: Settings, c: Core, instrument: string, now: int, carried: set<string>)
    requires TradeInv(c, carried)
    ensures TradeInv(RetryDeferred(cfg, c, instrument, now), carried)
  {
    if CanClose(c, instrument) {
      ClosedKeeps(cfg, c, instrument, now, carried);
      var d := Closed(cfg, c, instrument, now);
      assert TradeInv(d.(closePending := d.closePending - {instrument}), carried);
    }
  }

  lemma CloseOrDeferKeeps(cfg: Settings, c: Core, instrument: string, now: int, carried: set<string>)
    requires TradeInv(c, carried)
    ensures TradeInv(CloseOrDefer(cfg, c, instrument, now), carried)
  {
    if CanClose(c, instrument) { ClosedKeeps(cfg, c, instrument, now, carried); }
  }

  lemma HandleApprovedKeeps(cfg: Settings, c: Core, t: Ticket, now: int, carried: set<string>)
    requires TradeInv(c, carried) && t.id !in carried
    ensures TradeInv(HandleApproved(cfg, c, t, now), carried)
  {
    OpenKeeps(cfg, c, t, now, carried);
  }

  lemma ProposeKeeps(cfg: Settings, c: Core, id: string, instrument: string, side: Side, now: int, carried: set<string>)
    requires TradeInv(c, carried) && id !in carried
    ensures TradeInv(Propose(cfg, c, id, instrument, side, now), carried)
  {
    match Evaluate(cfg, c.mode, c.book, instrument, side, now) {
      case Refused(_) =>
        QuietKeeps(c, Emit(c, [RiskRejected(id, now)]), [RiskRejected(id, now)], carried);
      case Cleared(size, stop) =>
        var t := Ticket(id, instrument, side, size, Some(stop));
        QuietKeeps(c, Emit(c, [Approved(t, now)]), [Approved(t, now)], carried);
        HandleApprovedKeeps(cfg, Emit(c, [Approved(t, now)]), t, now, carried);
    }
  }

  lemma ExecuteKeeps(cfg: Settings, c: Core, id: string, now: int, carried: set<string>)
    requires TradeInv(c, carried) && PendingAvoids(c, carried)
    ensures TradeInv(Execute(cfg, c, id, now).0, carried)
  {
    if Level(c.mode) >= Level(Assisted) && Has(c.pending, id) {
      FindElement(c.pending, id);
      var parked := Find(c.pending, id);
      var d := c.(pending := Without(c.pending, id));
      QuietKeeps(c, d, [], carried);
      QuietKeeps(d, Emit(d, [Expired(id, now)]), [Expired(id, now)], carried);
      var verdict := Evaluate(cfg, d.mode, d.book, parked.ticket.instrument, parked.ticket.side, now);
      if verdict.Cleared? {
        OpenKeeps(cfg, d, parked.ticket.(size := verdict.size, stop := Some(verdict.stop)), now, carried);
      }
    }
  }

  lemma FlushKeeps(c: Core, now: int, carried: set<string>)
    requires TradeInv(c, carried)
    ensures TradeInv(ExpirePending(c, now), carried)
  {
    QuietKeeps(c, ExpirePending(c, now), Expiries(c.pending, now), carried);
  }

  lemma ModeHandlersKeep(c: Core, now: int, carried: set<string>)
    requires TradeInv(c, carried)
    ensures TradeInv(ModeHandlers(c, now), carried)
  {
    FlushKeeps(c, now, carried);
  }

  lemma SetModeKeeps(c: Core, to: Mode, now: int, carried: set<string>)
    requires TradeInv(c, carried)
    ensures TradeInv(SetMode(c, to, now), carried)
  {
    var changed := Emit(c.(mode := to), [ModeChanged(to, now)]);
    QuietKeeps(c, changed, [ModeChanged(to, now)], carried);
    ModeHandlersKeep(changed, now, carried);
  }

  lemma HaltKeeps(c: Core, now: int, carried: set<string>)
    requires TradeInv(c, carried)
    ensures TradeInv(Halt(c, now), carried)
  {
    var halted := Emit(c.(mode := Observe), [Halted(now)]);
    QuietKeeps(c, halted, [Halted(now)], carried);
    FlushKeeps(halted, now, carried);
    var flushed := ExpirePending(halted, now);
    QuietKeeps(flushed, Emit(flushed, [ModeChanged(Observe, now)]), [ModeChanged(Observe, now)], carried);
    ModeHandlersKeep(Emit(flushed, [ModeChanged(Observe, now)]), now, carried);
  }

  lemma NextKeepsTrade(cfg: Settings, c: Core, s: Step, carried: set<string>)
    requires TradeInv(c, carried) && PendingAvoids(c, carried) && Avoids(s, carried)
    ensures TradeInv(Next(cfg, c, s), carried)
  {
    match s {
      case DoTick(instrument, price, now) => TickKeeps(cfg, c, instrument, price, now, carried);
      case DoPropose(id, instrument, side, now) => ProposeKeeps(cfg, c, id, instrument, side, now, carried);
      case DoRedeliver(t, now) =>
        QuietKeeps(c, Emit(c, [Approved(t, now)]), [Approved(t, now)], carried);
        HandleApprovedKeeps(cfg, Emit(c, [Approved(t, now)]), t, now, carried);
      case DoExecute(id, now) => ExecuteKeeps(cfg, c, id, now, carried);
      case DoReject(id, now) =>
        var d := c.(pending := Without(c.pending, id));
        QuietKeeps(c, Emit(d, [OperatorRejected(id, now)]), [OperatorRejected(id, now)], carried);
      case DoClose(instrument, now) => TryCloseKeeps(cfg, c, instrument, now, carried);
      case DoInvalidate(instrument, now) =>
        var d := Emit(c, [ThesisInvalidated(instrument, now)]);
        QuietKeeps(c, d, [ThesisInvalidated(instrument, now)], carried);
        CloseOrDeferKeeps(cfg, d, instrument, now, carried);
      case DoSetMode(to, now) => SetModeKeeps(c, to, now, carried);
      case DoHalt(now) => HaltKeeps(c, now, carried);
    }
  }

  /** The decision a step may approve. */
  function Approving(s: Step): Option<string> {
    match s
    case DoPropose(id, _, _, _) => Some(id)
    case DoRedeliver(t, _) => Some(t.id)
    case _ => None
  }

  // Entries enter the queue only under the id the step approves.
  lemma PendingFromApproval(cfg: Settings, c: Core, s: Step)
    ensures forall x :: x in Next(cfg, c, s).pending ==> x in c.pending || Approving(s) == Some(x.ticket.id)
  {
    match s {
      case DoTick(instrument, price, now) => LiveElements(cfg, c.pending, now);
      case DoPropose(id, instrument, side, now) =>
        var verdict := Evaluate(cfg, c.mode, c.book, instrument, side, now);
        if verdict.Cleared? {
          PutElements(c.pending, Parked(Ticket(id, instrument, side, verdict.size, Some(verdict.stop)), now));
        }
      case DoRedeliver(t, now) => PutElements(c.pending, Parked(t, now));
      case DoExecute(id, _) => WithoutSubset(c.pending, id);
      case DoReject(id, _) => WithoutSubset(c.pending, id);
      case _ =>
    }
  }

  // ---------- deferred closes ----------

  /** Every instrument waiting for a close is held and has no usable price. */
  ghost predicate DeferredInv(c: Core) {
    forall i :: i in c.closePending ==> i in c.book.positions && !Usable(c.book, i)
  }

  /** The only reasons a close can fail are a missing position and a missing price. */
  ghost predicate CloseReady(c: Core, instrument: string) {
    CanClose(c, instrument) <==> instrument in c.book.positions && Usable(c.book, instrument)
  }

  lemma ClosedEffect(cfg: Settings, c: Core, instrument: string, now: int)
    requires CanClose(c, instrument)
    ensures var d := Closed(cfg, c, instrument, now);
      && d.book.positions == c.book.positions - {instrument} && d.book.prices == c.book.prices
      && d.closePending == c.closePending && d.mode == c.mode && d.pending == c.pending
  {
    hide RealizedPnl, CloseCredit, ClosePrice;
  }

  /** `DeferredInv`, except that the instrument may have just got a price. */
  ghost predicate DeferredBut(c: Core, instrument: string) {
    forall i :: i in c.closePending && i != instrument ==> i in c.book.positions && !Usable(c.book, i)
  }

  lemma WatchKeepsDeferred(cfg: Settings, c: Core, instrument: string, price: Option<real>, now: int)
    requires DeferredInv(c)
    ensures var watched := MonitorStop(cfg, Marked(c, instrument, price, now), instrument, price, now);
      && DeferredBut(watched, instrument) && watched.closePending == c.closePending
      && (PricedTick(instrument, price) && price.value != 0.0 ==> Usable(watched.book, instrument))
      && (!(PricedTick(instrument, price) && price.value != 0.0) && instrument in c.closePending ==>
            instrument in watched.book.positions && !Usable(watched.book, instrument))
  {
    hide Closed, OnSafeSide;
    var breach := Emit(Marked(c, instrument, price, now), [LimitBreached(instrument, now)]);
    if CanClose(breach, instrument) { ClosedEffect(cfg, breach, instrument, now); }
  }

  lemma RetryKeepsDeferred(cfg: Settings, c: Core, instrument: string, now: int)
    requires DeferredBut(c, instrument) && CloseReady(c, instrument)
    ensures DeferredInv(RetryDeferred(cfg, c, instrument, now))
    ensures Usable(c.book, instrument) && instrument in c.closePending ==>
              instrument !in RetryDeferred(cfg, c, instrument, now).book.positions
              && instrument !in RetryDeferred(cfg, c, instrument, now).closePending
  {
    hide Closed;
    if CanClose(c, instrument) { ClosedEffect(cfg, c, instrument, now); }
  }

  lemma TickKeepsDeferred(cfg: Settings, c: Core, instrument: string, price: Option<real>, now: int)
    requires DeferredInv(c)
    requires CloseReady(MonitorStop(cfg, Marked(c, instrument, price, now), instrument, price, now), instrument)
    ensures DeferredInv(Tick(cfg, c, instrument, price, now))
    ensures PricedTick(instrument, price) && price.value != 0.0 && instrument in c.closePending ==>
              instrument !in Tick(cfg, c, instrument, price, now).book.positions
              && instrument !in Tick(cfg, c, instrument, price, now).closePending
  {
    hide MonitorStop, RetryDeferred, CloseReady, Live, Stale;
    WatchKeepsDeferred(cfg, c, instrument, price, now);
    RetryKeepsDeferred(cfg, MonitorStop(cfg, Marked(c, instrument, price, now), instrument, price, now), instrument, now);
  }

  lemma CloseOrDeferKeepsDeferred(cfg: Settings, c: Core, instrument: string, now: int)
    requires DeferredInv(c) && CloseReady(c, instrument)
    ensures DeferredInv(CloseOrDefer(cfg, c, instrument, now))
    ensures instrument in CloseOrDefer(cfg, c, instrument, now).book.positions ==>
              instrument in CloseOrDefer(cfg, c, instrument, now).closePending
  {
  }

  lemma TryCloseKeepsDeferred(cfg: Settings, c: Core, instrument: string, now: int)
    requires DeferredInv(c)
    ensures DeferredInv(TryClose(cfg, c, instrument, now))
  {
    hide Closed;
    if CanClose(c, instrument) { ClosedEffect(cfg, c, instrument, now); }
  }

  lemma OpenKeepsDeferred(cfg: Settings, c: Core, t: Ticket, now: int)
    requires DeferredInv(c)
    ensures DeferredInv(TryOpen(cfg, c, t, now))
  {
  }

  lemma NextKeepsDeferred(cfg: Settings, c: Core, s: Step, carried: set<string>)
    requires TradeInv(c, carried) && DeferredInv(c)
    ensures DeferredInv(Next(cfg, c, s))
  {
    hide Tick, Propose, Execute, TryOpen, CloseOrDefer, TradeInv;
    match s {
      case DoTick(instrument, price, now) =>
        WatchedCloseReady(cfg, c, instrument, price, now, carried);
        TickKeepsDeferred(cfg, c, instrument, price, now);
      case DoPropose(id, instrument, side, now) => ProposeKeepsDeferred(cfg, c, id, instrument, side, now);
      case DoRedeliver(t, now) => OpenKeepsDeferred(cfg, Emit(c, [Approved(t, now)]), t, now);
      case DoExecute(id, now) => ExecuteKeepsDeferred(cfg, c, id, now);
      case DoClose(instrument, now) => TryCloseKeepsDeferred(cfg, c, instrument, now);
      case DoInvalidate(instrument, now) =>
        CloseSucceeds(c, carried, instrument);
        CloseOrDeferKeepsDeferred(cfg, Emit(c, [ThesisInvalidated(instrument, now)]), instrument, now);
      case _ =>
    }
  }

  lemma WatchedCloseReady(cfg: Settings, c: Core, instrument: string, price: Option<real>, now: int, carried: set<string>)
    requires TradeInv(c, carried)
    ensures CloseReady(MonitorStop(cfg, Marked(c, instrument, price, now), instrument, price, now), instrument)
  {
    WatchKeeps(cfg, c, instrument, price, now, carried);
    CloseSucceeds(MonitorStop(cfg, Marked(c, instrument, price, now), instrument, price, now), carried, instrument);
  }

  lemma ProposeKeepsDeferred(cfg: Settings, c: Core, id: string, instrument: string, side: Side, now: int)
    requires DeferredInv(c)
    ensures DeferredInv(Propose(cfg, c, id, instrument, side, now))
  {
    var verdict := Evaluate(cfg, c.mode, c.book, instrument, side, now);
    if verdict.Cleared? {
      var t := Ticket(id, instrument, side, verdict.size, Some(verdict.stop));
      OpenKeepsDeferred(cfg, Emit(c, [Approved(t, now)]), t, now);
    }
  }

  lemma ExecuteKeepsDeferred(cfg: Settings, c: Core, id: string, now: int)
    requires DeferredInv(c)
    ensures DeferredInv(Execute(cfg, c, id, now).0)
  {
    if Level(c.mode) >= Level(Assisted) && Has(c.pending, id) {
      var parked := Find(c.pending, id);
      var d := c.(pending := Without(c.pending, id));
      var verdict := Evaluate(cfg, d.mode, d.book, parked.ticket.instrument, parked.ticket.side, now);
      if verdict.Cleared? {
        OpenKeepsDeferred(cfg, d, parked.ticket.(size := verdict.size, stop := Some(verdict.stop)), now);
      }
    }
  }
}
