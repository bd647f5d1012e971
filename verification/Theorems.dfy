/** What holds after every legal history: the promises of the trading core. */
module Theorems {
  import opened Events
  import opened Totals
  import opened Ledger
  import opened Conservation
  import opened Risk
  import opened Execution
  import opened Orders
  import opened Following
  import opened Safety
  import opened Account
  import opened Lifecycle
  import opened Openings
  import opened Daily
  import opened Recovery
  import opened Startup
  import opened Liveness
  import opened Store
  import opened Pruning
  import opened Prices
  import opened History

  // ---------- stops ----------

  /** No held position ever sits at or through its stop: whatever the process knows of its price, that price is safe. */
  lemma StopSafety(cfg: Settings, moves: seq<Move>)
    requires LegalHistory(cfg, moves)
    ensures var b := After(cfg, moves).book;
      forall i :: i in b.positions ==>
        b.positions[i].stop.Some?
        && (i in b.prices ==>
              match b.positions[i].side
              case Long => b.positions[i].stop.value < b.prices[i]
              case Short => b.prices[i] < b.positions[i].stop.value)
  {
    HistoryIsGood(cfg, moves);
    StopsSafe(After(cfg, moves).book);
  }

  /** A priced tick decides about the position it meets, its first price after a restart included: the position is
      held on if and only if no close is waiting for it and the price is on the safe side of its stop. */
  lemma TickDecides(cfg: Settings, moves: seq<Move>, instrument: string, price: real, now: int)
    requires LegalHistory(cfg, moves) && instrument != "" && 0.0 < price
    requires instrument in After(cfg, moves).book.positions
    ensures var c := After(cfg, moves);
      var d := Next(cfg, c, DoTick(instrument, Some(price), now));
      var p := c.book.positions[instrument];
      && p.stop.Some?
      && (instrument in d.book.positions <==> instrument !in c.closePending && OnSafeSide(p.side, price, p.stop.value))
      && instrument !in d.closePending && instrument in d.book.prices && d.book.prices[instrument] == price
  {
    HistoryIsGood(cfg, moves);
    var c := After(cfg, moves);
    StopsSafe(c.book);
    hide Good, LegalHistory, Next, OnSafeSide, TradeInv;
    TickDecidesIn(cfg, c, instrument, price, now, OpenedIds(c.log));
  }

  lemma TickDecidesIn(cfg: Settings, c: Core, instrument: string, price: real, now: int, carried: set<string>)
    requires TradeInv(c, carried) && instrument != "" && 0.0 < price
    requires instrument in c.book.positions && SafeAt(c.book, instrument)
    ensures var d := Next(cfg, c, DoTick(instrument, Some(price), now));
      var p := c.book.positions[instrument];
      && (instrument in d.book.positions <==> instrument !in c.closePending && OnSafeSide(p.side, price, p.stop.value))
      && instrument !in d.closePending && instrument in d.book.prices && d.book.prices[instrument] == price
  {
    MarkedCloseReady(c, instrument, Some(price), now, carried);
    WatchedCloseReady(cfg, c, instrument, Some(price), now, carried);
    hide TradeInv, OnSafeSide, CloseReady, MonitorStop, RetryDeferred, Live, Stale;
    WatchDecides(cfg, c, instrument, price, now);
    RetryDecides(cfg, MonitorStop(cfg, Marked(c, instrument, Some(price), now), instrument, Some(price), now), instrument, now);
  }

  lemma WatchDecides(cfg: Settings, c: Core, instrument: string, price: real, now: int)
    requires instrument in c.book.positions && SafeAt(c.book, instrument) && 0.0 < price && instrument != ""
    requires CloseReady(Marked(c, instrument, Some(price), now), instrument)
    ensures var d := MonitorStop(cfg, Marked(c, instrument, Some(price), now), instrument, Some(price), now);
      && (instrument in d.book.positions
          <==> OnSafeSide(c.book.positions[instrument].side, price, c.book.positions[instrument].stop.value))
      && instrument in d.book.prices && d.book.prices[instrument] == price && d.closePending == c.closePending
  {
    hide Closed;
    var breach := Emit(Marked(c, instrument, Some(price), now), [LimitBreached(instrument, now)]);
    if CanClose(breach, instrument) { ClosedEffect(cfg, breach, instrument, now); }
  }

  lemma RetryDecides(cfg: Settings, c: Core, instrument: string, now: int)
    requires CloseReady(c, instrument) && Usable(c.book, instrument)
    ensures var d := RetryDeferred(cfg, c, instrument, now);
      && (instrument in d.book.positions <==> instrument in c.book.positions && instrument !in c.closePending)
      && instrument !in d.closePending && d.book.prices == c.book.prices
  {
    hide Closed;
    if CanClose(c, instrument) { ClosedEffect(cfg, c, instrument, now); }
  }

  // ---------- money ----------

  /** Total value is accounted for to the last digit, and each open's residual is within the quantity rounding. */
  lemma ValueConserved(cfg: Settings, moves: seq<Move>)
    requires LegalHistory(cfg, moves)
    ensures var c := After(cfg, moves);
      && TotalValue(c.book) == cfg.initialCash + Sum(c.book.realized) + Total(c.book.positions, UnrealizedPnl)
                               - Total(c.book.positions, EntryFee) + Residual(c.log)
      && forall e :: e in c.log && IsOpenFill(e) ==> TinyResidual(e.fill)
  {
    HistoryIsGood(cfg, moves);
    TotalValueConserved(cfg, After(cfg, moves).book, Residual(After(cfg, moves).log));
  }

  // ---------- orders ----------

  /** Whatever a process was started with, and however approvals are re-delivered and closes fired twice. */
  lemma {:induction false} RunKeepsTrade(cfg: Settings, c: Core, steps: seq<Step>, carried: set<string>)
    requires TradeInv(c, carried) && PendingAvoids(c, carried) && forall s :: s in steps ==> Avoids(s, carried)
    ensures TradeInv(Run(cfg, c, steps), carried) && PendingAvoids(Run(cfg, c, steps), carried)
  {
    if steps != [] {
      var before, s := steps[..|steps| - 1], steps[|steps| - 1];
      assert s in steps;
      hide TradeInv, Next;
      RunKeepsTrade(cfg, c, before, carried);
      NextKeepsTrade(cfg, Run(cfg, c, before), s, carried);
      PendingFromApproval(cfg, Run(cfg, c, before), s);
    }
  }

  /** At most one opening and one closing fill per decision, and a close that does nothing only for want of a
      position or a price. */
  ghost predicate FillsOnce(c: Core) {
    && (forall id :: Count(c.log, OpensOf(id)) <= 1 && Count(c.log, ClosesOf(id)) <= Count(c.log, OpensOf(id)))
    && (forall i :: i in c.book.positions ==> OrderKey(c.book.positions[i].decision, Close) !in c.submitted)
    && (forall i :: CloseReady(c, i))
  }

  lemma TradesFillOnce(c: Core, carried: set<string>)
    requires TradeInv(c, carried)
    ensures FillsOnce(c)
  {
    forall i ensures CloseReady(c, i) { CloseSucceeds(c, carried, i); }
    forall i | i in c.book.positions
      ensures OrderKey(c.book.positions[i].decision, Close) !in c.submitted
    {
      CloseKeyFree(c, carried, i);
    }
  }

  /** In a process that starts flat, whatever is re-delivered or fired twice. */
  lemma AtMostOnce(cfg: Settings, steps: seq<Step>)
    ensures FillsOnce(Run(cfg, Flat(cfg), steps))
  {
    FlatTrades(cfg);
    hide TradeInv, FillsOnce, Flat;
    RunKeepsTrade(cfg, Flat(cfg), steps, {});
    TradesFillOnce(Run(cfg, Flat(cfg), steps), {});
  }

  lemma FlatTrades(cfg: Settings)
    ensures TradeInv(Flat(cfg), {})
  {
  }

  /** The same across restarts, although a new process has forgotten every key. */
  lemma AtMostOnceForever(cfg: Settings, moves: seq<Move>)
    requires LegalHistory(cfg, moves)
    ensures FillsOnce(After(cfg, moves))
  {
    HistoryIsGood(cfg, moves);
    TradesFillOnce(After(cfg, moves), OpenedIds(After(cfg, moves).log));
  }

  lemma PaperRedelivers(cfg: Settings, c: Core, t: Ticket, now: int)
    requires c.mode == Paper
    ensures Next(cfg, c, DoRedeliver(t, now)) == TryOpen(cfg, Emit(c, [Approved(t, now)]), t, now)
  {
    hide TryOpen;
  }

  // The fill case persists exactly the order and its fill.
  lemma OpenAppends(cfg: Settings, c: Core, t: Ticket, now: int) returns (key: Event, fill: Event)
    requires CanOpen(c, t) && 0.0 <= cfg.slippage < 1.0
    ensures TryOpen(cfg, c, t, now).log == c.log + [key, fill]
    ensures !key.Filled? && IsOpenFill(fill) && fill.fill.decision == t.id
  {
    hide OpenPrice, OpenQuantity, OrderKey, HandleFill;
    var price := OpenPrice(cfg, t.side, c.book.prices[t.instrument]);
    OpenPriceNonzero(cfg, t.side, c.book.prices[t.instrument]);
    key, fill := Submitted(OrderKey(t.id, Open), Open, t.id, now), Filled(OpenFill(cfg, t, price), now);
    assert c.log + [key] + [fill] == c.log + [key, fill];
  }

  lemma OpenRefused(cfg: Settings, c: Core, t: Ticket, now: int)
    requires !CanOpen(c, t)
    ensures TryOpen(cfg, c, t, now) == c
  {
  }

  lemma ApprovalOpensAlike(c: Core, t: Ticket, now: int)
    ensures CanOpen(Emit(c, [Approved(t, now)]), t) <==> CanOpen(c, t)
  {
  }

  /** Only the key set stands between a re-delivered approval and a second fill: in PAPER it fills exactly when the
      size is positive, the instrument has a usable price and this process has not used the key. */
  lemma RedeliveryFillsIff(cfg: Settings, c: Core, t: Ticket, now: int)
    requires c.mode == Paper && 0.0 <= cfg.slippage < 1.0
    ensures Count(Next(cfg, c, DoRedeliver(t, now)).log, OpensOf(t.id))
            == Count(c.log, OpensOf(t.id)) + if CanOpen(c, t) then 1 else 0
  {
    var d := Emit(c, [Approved(t, now)]);
    PaperRedelivers(cfg, c, t, now);
    ApprovalOpensAlike(c, t, now);
    CountNoFills(c.log, [Approved(t, now)], t.id);
    hide Next, TryOpen, CanOpen, HandleApproved, Count;
    if CanOpen(d, t) {
      var key, fill := OpenAppends(cfg, d, t, now);
      CountFill(d.log, key, fill, t.id);
    } else {
      OpenRefused(cfg, d, t, now);
    }
  }

  // ---------- deferred closes ----------

  /** Every life of every history starts, and goes on, from a state like this: the positions it was booted with
      carry decisions that no waiting or newly approved decision repeats. */
  lemma EveryLifeQualifies(cfg: Settings, moves: seq<Move>)
    requires LegalHistory(cfg, moves)
    ensures var c := After(cfg, moves);
      TradeInv(c, OpenedIds(c.log)) && PendingAvoids(c, OpenedIds(c.log)) && DeferredInv(c)
  {
    HistoryIsGood(cfg, moves);
    WaitingUnopened(After(cfg, moves));
  }

  /** In a process booted with whatever positions, priced or not, and in any interleaving, what waits for a close
      is held and has no usable price. */
  lemma {:induction false} DeferredAreUnpriced(cfg: Settings, c: Core, steps: seq<Step>, carried: set<string>)
    requires TradeInv(c, carried) && PendingAvoids(c, carried) && DeferredInv(c)
    requires forall s :: s in steps ==> Avoids(s, carried)
    ensures DeferredInv(Run(cfg, c, steps))
  {
    if steps != [] {
      var before, s := steps[..|steps| - 1], steps[|steps| - 1];
      assert s in steps;
      hide TradeInv, DeferredInv, Next, PendingAvoids, Avoids;
      DeferredAreUnpriced(cfg, c, before, carried);
      RunKeepsTrade(cfg, c, before, carried);
      NextKeepsDeferred(cfg, Run(cfg, c, before), s, carried);
    }
  }

  /** The first usable price flattens what waits for a close. */
  lemma FirstPriceFlattens(cfg: Settings, c: Core, steps: seq<Step>, carried: set<string>,
                           instrument: string, price: real, now: int)
    requires TradeInv(c, carried) && PendingAvoids(c, carried) && DeferredInv(c)
    requires forall s :: s in steps ==> Avoids(s, carried)
    requires instrument in Run(cfg, c, steps).closePending && instrument != "" && price != 0.0
    ensures var d := Next(cfg, Run(cfg, c, steps), DoTick(instrument, Some(price), now));
      instrument !in d.book.positions && instrument !in d.closePending
  {
    var d := Run(cfg, c, steps);
    RunKeepsTrade(cfg, c, steps, carried);
    DeferredAreUnpriced(cfg, c, steps, carried);
    WatchedCloseReady(cfg, d, instrument, Some(price), now, carried);
    TickKeepsDeferred(cfg, d, instrument, Some(price), now);
  }

  /** `d` still defers whatever `c` defers and `d` holds. */
  ghost predicate StillDefers(c: Core, d: Core) {
    forall i :: i in c.closePending && i in d.book.positions ==> i in d.closePending
  }

  lemma CloseStillDefers(cfg: Settings, c: Core, instrument: string, now: int)
    ensures StillDefers(c, TryClose(cfg, c, instrument, now)) && StillDefers(c, CloseOrDefer(cfg, c, instrument, now))
    ensures StillDefers(c, RetryDeferred(cfg, c, instrument, now))
    ensures TryClose(cfg, c, instrument, now).book.positions.Keys <= c.book.positions.Keys
    ensures RetryDeferred(cfg, c, instrument, now).book.positions.Keys <= c.book.positions.Keys
  {
    hide Closed;
    if CanClose(c, instrument) { ClosedEffect(cfg, c, instrument, now); }
  }

  lemma TickStillDefers(cfg: Settings, c: Core, instrument: string, price: Option<real>, now: int)
    ensures StillDefers(c, Tick(cfg, c, instrument, price, now))
  {
    hide TryClose, RetryDeferred, HandleTick, Stale, Live;
    var marked := Marked(c, instrument, price, now);
    CloseStillDefers(cfg, Emit(marked, [LimitBreached(instrument, now)]), instrument, now);
    CloseStillDefers(cfg, MonitorStop(cfg, marked, instrument, price, now), instrument, now);
  }

  lemma OpenStillDefers(cfg: Settings, c: Core, t: Ticket, now: int)
    ensures TryOpen(cfg, c, t, now).closePending == c.closePending
  {
    hide OpenPrice, OpenFill, HandleFill;
  }

  lemma ExecuteStillDefers(cfg: Settings, c: Core, id: string, now: int)
    ensures Execute(cfg, c, id, now).0.closePending == c.closePending
  {
    hide TryOpen, Evaluate;
    if Level(c.mode) >= Level(Assisted) && Has(c.pending, id) {
      var parked := Find(c.pending, id);
      var d := c.(pending := Without(c.pending, id));
      var verdict := Evaluate(cfg, d.mode, d.book, parked.ticket.instrument, parked.ticket.side, now);
      if verdict.Cleared? {
        OpenStillDefers(cfg, d, parked.ticket.(size := verdict.size, stop := Some(verdict.stop)), now);
      }
    }
  }

  lemma ProposeStillDefers(cfg: Settings, c: Core, id: string, instrument: string, side: Side, now: int)
    ensures Propose(cfg, c, id, instrument, side, now).closePending == c.closePending
  {
    hide TryOpen, Evaluate;
    var verdict := Evaluate(cfg, c.mode, c.book, instrument, side, now);
    if verdict.Cleared? {
      var t := Ticket(id, instrument, side, verdict.size, Some(verdict.stop));
      OpenStillDefers(cfg, Emit(c, [Approved(t, now)]), t, now);
    }
  }

  /** A deferred close is never lost: after any step it is still deferred, or the position is gone. */
  lemma DeferredStays(cfg: Settings, c: Core, s: Step)
    ensures StillDefers(c, Next(cfg, c, s))
  {
    hide Tick, Propose, Execute, CloseOrDefer, TryClose, TryOpen;
    match s {
      case DoTick(instrument, price, now) => TickStillDefers(cfg, c, instrument, price, now);
      case DoPropose(id, instrument, side, now) => ProposeStillDefers(cfg, c, id, instrument, side, now);
      case DoRedeliver(t, now) => OpenStillDefers(cfg, Emit(c, [Approved(t, now)]), t, now);
      case DoExecute(id, now) => ExecuteStillDefers(cfg, c, id, now);
      case DoClose(instrument, now) => CloseStillDefers(cfg, c, instrument, now);
      case DoInvalidate(instrument, now) =>
        CloseStillDefers(cfg, Emit(c, [ThesisInvalidated(instrument, now)]), instrument, now);
      case _ =>
    }
  }

  // The state a restart reconciles: the book rebuilt from what the store still has.
  lemma BootRecovers(cfg: Settings, c: Core, m: Move) returns (booted: Core)
    requires Good(cfg, c) && m.Reboot? && Legal(c, m)
    ensures Good(cfg, booted) && booted.closePending == {}
    ensures Recovers(c.log, c.book, booted.book) && (forall i :: EverPriced(booted.log, i) <==> EverPriced(c.log, i))
    ensures Advance(cfg, c, m)
            == ReconcileOrphans(cfg, booted, Orphans(booted.book, m.held, m.theses, m.now), m.now)
  {
    var down := if m.stopped.Some? then ExpirePending(c, m.stopped.value) else c;
    if m.stopped.Some? {
      StopKeepsGood(cfg, c, m.stopped.value);
      ExpiriesUnpriced(cfg, c, Expiries(c.pending, m.stopped.value));
    }
    BootKeepsGood(cfg, down, m.now);
    booted := Boot(cfg, down.log, m.now);
    QueueSurvives(cfg, down, m.now);
    ExpiriesUnpriced(cfg, down, Expiries(Stale(cfg, down.pending, m.now), m.now));
  }

  lemma ExpiriesUnpriced(cfg: Settings, c: Core, events: seq<Event>)
    requires forall e :: e in events ==> e.Expired?
    ensures forall i :: EverPriced(c.log + events, i) <==> EverPriced(c.log, i)
    ensures forall i :: TickedSince(c.log + events, i) <==> TickedSince(c.log, i)
  {
    ReplayQuiet(cfg, c.log, events);
    forall e | e in c.log ensures e in c.log + events { }
  }

  /** After startup every held position has a live thesis or waits for a price to close at. Positions with a live
      thesis are left alone; of the others exactly those without a tick left in the store are still held. */
  lemma NoOrphans(cfg: Settings, c: Core, m: Move)
    requires Good(cfg, c) && m.Reboot? && Legal(c, m)
    ensures var d := Advance(cfg, c, m);
      && (forall i :: i in d.book.positions ==> i in c.book.positions && SamePosition(c.book.positions[i], d.book.positions[i]))
      && (forall i :: i in c.book.positions ==>
            if ThesisLive(m.theses, c.book.positions[i].decision, m.now)
            then i in d.book.positions && i !in d.closePending
            else (i in d.book.positions <==> !EverPriced(c.log, i)) && (i in d.book.positions ==> i in d.closePending))
  {
    var booted := BootRecovers(cfg, c, m);
    ReconcileSettles(cfg, booted, Orphans(booted.book, m.held, m.theses, m.now), m.now, OpenedIds(booted.log));
    OnlyLiveTheses(cfg, booted, m.held, m.theses, m.now, OpenedIds(booted.log));
    forall i
      ensures Usable(booted.book, i) <==> EverPriced(c.log, i)
    {
      assert i in booted.book.prices ==> 0.0 < booted.book.prices[i];
    }
  }

  /** With liveness read off the stored events: exactly the positions whose thesis was created, never invalidated and
      has not run out are left alone; the others are closed, or wait for a price if the store has no tick of them. */
  lemma StartupFollowsStream(cfg: Settings, c: Core, m: Move, records: seq<Record>)
    requires Good(cfg, c) && m.Reboot? && Legal(c, m) && m.theses == Collect(records)
    ensures var d := Advance(cfg, c, m);
      forall i :: i in c.book.positions ==>
        && (i in d.book.positions && i !in d.closePending <==> Alive(records, c.book.positions[i].decision, m.now))
        && (i in d.book.positions && i in d.closePending
            <==> !Alive(records, c.book.positions[i].decision, m.now) && !EverPriced(c.log, i))
  {
    NoOrphans(cfg, c, m);
    hide Good, Legal, Advance, ThesisLive, Alive, Collect, EverPriced;
    forall i | i in c.book.positions
      ensures ThesisLive(Collect(records), c.book.positions[i].decision, m.now)
              <==> Alive(records, c.book.positions[i].decision, m.now)
    {
      LiveIffAlive(records, c.book.positions[i].decision, m.now);
    }
  }

  /** A position does not outlive its thesis: one whose thesis was ever invalidated is closed by every later restart,
      or waits for a price. */
  lemma InvalidatedIsSettled(cfg: Settings, c: Core, m: Move, records: seq<Record>, more: seq<Record>, i: string, thesis: string)
    requires Good(cfg, c) && m.Reboot? && Legal(c, m) && m.theses == Collect(records + more)
    requires i in c.book.positions && EverEnded(records, thesis)
    requires Governed(records + more, c.book.positions[i].decision, thesis)
    ensures i in Advance(cfg, c, m).book.positions ==> i in Advance(cfg, c, m).closePending
  {
    hide Good, Legal, Advance, Alive, Collect, EverPriced, Governed, EverEnded;
    StartupFollowsStream(cfg, c, m, records + more);
    EndedStaysDead(records, more, c.book.positions[i].decision, thesis, m.now);
  }

  // ---------- parked decisions ----------

  /** Every approved id is waiting, or has left the queue exactly once: opened, rejected or expired.
      Whatever filled did so strictly within its time to live. */
  lemma EveryParkedLeavesOnce(cfg: Settings, moves: seq<Move>, id: string)
    requires LegalHistory(cfg, moves) && id != ""
    ensures var c := After(cfg, moves);
      && Count(c.log, ApprovalsOf(id))
         == Waiting(c.pending, id) + Count(c.log, ExecutionsOf(id)) + Count(c.log, OperatorRejectsOf(id))
            + Count(c.log, ExpiriesOf(id))
      && Count(c.log, ApprovalsOf(id)) <= 1
      && forall e, f :: e in c.log && f in c.log && FillOf(e, f) ==> f.time - e.time < cfg.pendingTtl
  {
    HistoryIsGood(cfg, moves);
    var c := After(cfg, moves);
    SettlesSplit(c.log, id);
    assert Balanced(c.log, c.pending, id);
  }

  /** A tick sweeps the queue: whatever still waits after it is younger than its time to live. */
  lemma TickSweeps(cfg: Settings, c: Core, instrument: string, price: Option<real>, now: int)
    ensures forall x :: x in Tick(cfg, c, instrument, price, now).pending ==> now - x.approvedAt < cfg.pendingTtl
    ensures forall x :: x in c.pending && now - x.approvedAt < cfg.pendingTtl ==> x in Tick(cfg, c, instrument, price, now).pending
  {
    hide TryClose, HandleTick, Closed;
    var marked := Marked(c, instrument, price, now);
    var breach := Emit(marked, [LimitBreached(instrument, now)]);
    PendingUntouched(cfg, breach, instrument, now);
    var watched := MonitorStop(cfg, marked, instrument, price, now);
    PendingUntouched(cfg, watched, instrument, now);
    LiveElements(cfg, c.pending, now);
  }

  lemma PendingUntouched(cfg: Settings, c: Core, instrument: string, now: int)
    ensures TryClose(cfg, c, instrument, now).pending == c.pending
    ensures RetryDeferred(cfg, c, instrument, now).pending == c.pending
  {
    hide Closed;
    if CanClose(c, instrument) { ClosedEffect(cfg, c, instrument, now); }
  }

  // ---------- restart ----------

  /** At any time the book a restart would rebuild has the live one's money, and its price wherever the store
      still has a tick. */
  lemma RestartRebuildsBook(cfg: Settings, moves: seq<Move>)
    requires LegalHistory(cfg, moves)
    ensures Recovers(After(cfg, moves).log, After(cfg, moves).book, RebuiltBook(cfg, After(cfg, moves).log))
  {
    HistoryIsGood(cfg, moves);
    PricedTicksSettle(After(cfg, moves).log);
    RestartEqualsLive(cfg, After(cfg, moves));
  }

  /** A pass of the pruner before the restart costs no money, and a price exactly when the instrument's last tick is
      before the cutoff. */
  lemma PriceSurvivesIff(cfg: Settings, moves: seq<Move>, before: int)
    requires LegalHistory(cfg, moves)
    ensures var c := After(cfg, moves);
      var d := RebuiltBook(cfg, Pruned(c.log, before));
      && SameMoney(c.book, d) && PricesWithin(d.prices, c.book.prices)
      && forall i :: i in d.prices <==> i in LatestOf(c.log, TICKS) && before <= LatestOf(c.log, TICKS)[i].time
  {
    HistoryIsGood(cfg, moves);
    var c := After(cfg, moves);
    PruneKeepsGood(cfg, c, before);
    PricedTicksSettle(Pruned(c.log, before));
    RestartEqualsLive(cfg, Prune(c, before));
    forall i
      ensures EverPriced(Pruned(c.log, before), i) <==> i in LatestOf(c.log, TICKS) && before <= LatestOf(c.log, TICKS)[i].time
    {
      PriceSurvives(c.log, before, i);
    }
  }

  ghost predicate NeverPruned(moves: seq<Move>) {
    forall m :: m in moves ==> !m.PruneTicks?
  }

  lemma RestartKeepsPriced(cfg: Settings, c: Core, m: Move)
    requires Good(cfg, c) && AllPriced(c) && m.Reboot? && Legal(c, m)
    ensures AllPriced(Advance(cfg, c, m))
  {
    var booted := BootRecovers(cfg, c, m);
    assert AllPriced(booted);
    var orphans := Orphans(booted.book, m.held, m.theses, m.now);
    ReconcileSettles(cfg, booted, orphans, m.now, OpenedIds(booted.log));
    ReconcileOpensNone(cfg, booted, orphans, m.now);
    GrowsKeeps(booted, Advance(cfg, c, m));
  }

  /** While nothing is pruned every held position has a price, and a restart rebuilds the live book whole. */
  lemma {:induction false} UnprunedIsPriced(cfg: Settings, moves: seq<Move>)
    requires LegalHistory(cfg, moves) && NeverPruned(moves)
    ensures AllPriced(After(cfg, moves))
    ensures SameButMarks(After(cfg, moves).book, RebuiltBook(cfg, After(cfg, moves).log))
  {
    var c := After(cfg, moves);
    if moves != [] {
      var before, m := moves[..|moves| - 1], moves[|moves| - 1];
      assert m in moves;
      UnprunedIsPriced(cfg, before);
      HistoryIsGood(cfg, before);
      hide Good, AllPriced, Next, Restart;
      match m {
        case Act(s) => NextKeepsPriced(cfg, After(cfg, before), s);
        case Reboot(_, _, _, _) => RestartKeepsPriced(cfg, After(cfg, before), m);
      }
    }
    RestartRebuildsBook(cfg, moves);
    PricesAgree(c.log, c.book, RebuiltBook(cfg, c.log));
  }

  lemma PricesAgree(log: seq<Event>, live: Book, rebuilt: Book)
    requires Recovers(log, live, rebuilt) && forall i :: i in live.prices ==> EverPriced(log, i)
    ensures SameButMarks(live, rebuilt)
  {
  }

  // ---------- gates ----------

  ghost predicate DaysGrow(cfg: Settings) {
    forall s: int, t: int :: s <= t ==> cfg.tradingDay(s) <= cfg.tradingDay(t)
  }

  lemma TimelyDays(cfg: Settings, log: seq<Event>, now: int)
    requires Timely(log) && NotBefore(log, now) && DaysGrow(cfg)
    ensures DaysUpTo(cfg, log, cfg.tradingDay(now))
  {
    forall k | 0 <= k < |log| ensures log[k].time <= now { assert log[k] in log; }
  }

  /** Every open of a history happened with room for a position, the instrument free, and the sum of that
      trading day's realized results above the loss limit. */
  lemma OpensPassTheGates(cfg: Settings, moves: seq<Move>, s: Step)
    requires LegalHistory(cfg, moves) && DaysGrow(cfg) && Legal(After(cfg, moves), Act(s))
    requires OpenedSince(After(cfg, moves), Next(cfg, After(cfg, moves), s))
    ensures PassedGates(cfg, After(cfg, moves), s)
  {
    HistoryIsGood(cfg, moves);
    OpenPassed(cfg, After(cfg, moves), s);
  }

  ghost predicate PassedGates(cfg: Settings, c: Core, s: Step) {
    && c.mode != Observe && |c.book.positions| < cfg.maxOpenPositions && 0.0 < TotalValue(c.book)
    && -DaySum(Trades(cfg, c.log), cfg.tradingDay(s.now)) < cfg.maxDailyLossPct * TotalValue(c.book)
    && exists t :: ClearedTicket(cfg, c, t, s.now) && t.instrument !in c.book.positions
         && Openable(c, s) == Some(t.id) && WithinLimits(cfg, TotalValue(c.book), t.size)
  }

  lemma OpenPassed(cfg: Settings, c: Core, s: Step)
    requires BookFollowsLog(cfg, c) && Timely(c.log) && NotBefore(c.log, s.now) && DaysGrow(cfg)
    requires Checked(s) && OpenedSince(c, Next(cfg, c, s))
    ensures PassedGates(cfg, c, s)
  {
    OpenPassesGates(cfg, c, s);
    TimelyDays(cfg, c.log, s.now);
    BreakerHolds(cfg, c, s);
  }

  // ---------- the kill switch ----------

  /** The move approves this decision. */
  predicate Approves(m: Move, id: string) {
    m.Act? && Approving(m.step) == Some(id)
  }

  lemma BootOpensNone(cfg: Settings, c: Core, now: int)
    ensures OpensAtMost(c, Boot(cfg, c.log, now), None)
  {
    var q := Repark(cfg, OfKinds(c.log, APPROVALS), TerminalIds(c.log), now);
    ReparkOnlyExpires(cfg, OfKinds(c.log, APPROVALS), TerminalIds(c.log), now);
    AppendsNoOpen(c, Boot(cfg, c.log, now), q.expired);
  }

  lemma AppendsNoOpen(c: Core, d: Core, events: seq<Event>)
    requires d.log == c.log + events && forall e :: e in events ==> e.Expired?
    ensures OpensAtMost(c, d, None)
  {
    forall k | |c.log| <= k < |d.log|
      ensures d.log[k].Expired?
    {
      assert d.log[k] == events[k - |c.log|];
    }
  }

  lemma RebootOpensNone(cfg: Settings, c: Core, m: Move)
    requires m.Reboot?
    ensures OpensAtMost(c, Advance(cfg, c, m), None)
  {
    var down := if m.stopped.Some? then ExpirePending(c, m.stopped.value) else c;
    if m.stopped.Some? { ExpiriesOpenNone(cfg, c, m.stopped.value); }
    assert OpensAtMost(c, down, None);
    BootOpensNone(cfg, down, m.now);
    var booted := Boot(cfg, down.log, m.now);
    OpensChain(c, down, booted, None);
    ReconcileOpensNone(cfg, booted, Orphans(booted.book, m.held, m.theses, m.now), m.now);
    OpensChain(c, booted, Advance(cfg, c, m), None);
  }

  lemma {:induction false} ReparkOnlyExpires(cfg: Settings, approvals: seq<Event>, terminal: set<string>, now: int)
    ensures forall e :: e in Repark(cfg, approvals, terminal, now).expired ==> e.Expired?
  {
    if approvals != [] { ReparkOnlyExpires(cfg, approvals[..|approvals| - 1], terminal, now); }
  }

  lemma {:induction false} ReconcileOpensNone(cfg: Settings, c: Core, instruments: seq<string>, now: int)
    ensures OpensAtMost(c, ReconcileOrphans(cfg, c, instruments, now), None)
    ensures ReconcileOrphans(cfg, c, instruments, now).pending == c.pending
    ensures ReconcileOrphans(cfg, c, instruments, now).mode == c.mode
    decreases |instruments|
  {
    if instruments != [] {
      var d := if instruments[0] in c.book.positions then CloseOrDefer(cfg, c, instruments[0], now) else c;
      ClosedOpensNone(cfg, c, instruments[0], now);
      ReconcileOpensNone(cfg, d, instruments[1..], now);
      OpensChain(c, d, ReconcileOrphans(cfg, c, instruments, now), None);
    }
  }

  // A restart re-parks only what was waiting.
  lemma RebootReparksWaiting(cfg: Settings, c: Core, m: Move, id: string)
    requires Good(cfg, c) && m.Reboot? && Legal(c, m) && !Has(c.pending, id)
    ensures !Has(Advance(cfg, c, m).pending, id)
  {
    var down := if m.stopped.Some? then ExpirePending(c, m.stopped.value) else c;
    if m.stopped.Some? { StopKeepsGood(cfg, c, m.stopped.value); }
    QueueSurvives(cfg, down, m.now);
    var booted := Boot(cfg, down.log, m.now);
    LiveElements(cfg, down.pending, m.now);
    HasElement(down.pending, id);
    HasElement(booted.pending, id);
    ReconcileOpensNone(cfg, booted, Orphans(booted.book, m.held, m.theses, m.now), m.now);
  }

  /** The stream has no more opening orders and fills of this decision than it had; the pruner may have been by. */
  ghost predicate OpensNoMore(c: Core, d: Core, id: string) {
    Count(d.log, OpeningsOf(id)) == Count(c.log, OpeningsOf(id))
  }

  lemma MoveOpensNot(cfg: Settings, c: Core, m: Move, id: string)
    requires Good(cfg, c) && Legal(c, m) && !Has(c.pending, id) && !Approves(m, id)
    ensures OpensNoMore(c, Advance(cfg, c, m), id) && !Has(Advance(cfg, c, m).pending, id)
  {
    hide Good, Legal, Next, Restart, Count;
    match m {
      case Act(s) =>
        StepOpens(cfg, c, s);
        NeverWaitsAgain(cfg, c, s, id);
        OpensNotCounts(c, Next(cfg, c, s), id);
      case Reboot(_, _, _, _) =>
        RebootOpensNone(cfg, c, m);
        RebootReparksWaiting(cfg, c, m, id);
        OpensNotCounts(c, Advance(cfg, c, m), id);
      case PruneTicks(before) =>
        PruneKeepsCounts(c.log, before, OpeningsOf(id));
    }
  }

  /** A decision that is not waiting is not opened again by any legal history, restarts included, that does not approve it. */
  lemma {:induction false} NeverOpenedAgain(cfg: Settings, c: Core, moves: seq<Move>, id: string)
    requires Good(cfg, c) && SafeSettings(cfg) && LegalFrom(cfg, c, moves)
    requires !Has(c.pending, id) && forall m :: m in moves ==> !Approves(m, id)
    ensures Good(cfg, Continue(cfg, c, moves)) && !Has(Continue(cfg, c, moves).pending, id)
    ensures OpensNoMore(c, Continue(cfg, c, moves), id)
  {
    if moves != [] {
      var before, m := moves[..|moves| - 1], moves[|moves| - 1];
      assert m in moves;
      hide Good, Advance, SafeSettings, Legal, Has, Count;
      NeverOpenedAgain(cfg, c, before, id);
      var d := Continue(cfg, c, before);
      AdvanceKeepsGood(cfg, d, m);
      MoveOpensNot(cfg, d, m, id);
    }
  }

  /** The kill switch holds across restarts: what was queued at a halt or a demotion is never opened, unless approved anew. */
  lemma KillSwitchForever(cfg: Settings, c: Core, s: Step, moves: seq<Move>, id: string)
    requires Good(cfg, c) && SafeSettings(cfg) && Legal(c, Act(s)) && Demotes(c, s)
    requires LegalFrom(cfg, Next(cfg, c, s), moves) && forall m :: m in moves ==> !Approves(m, id)
    ensures OpensNoMore(Next(cfg, c, s), Continue(cfg, Next(cfg, c, s), moves), id)
  {
    DemotionFlushes(cfg, c, s);
    ActKeepsGood(cfg, c, s);
    NeverOpenedAgain(cfg, Next(cfg, c, s), moves, id);
  }
}
