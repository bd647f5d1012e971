/** portfolio/executor.py, risk/engine.py, core/mode.py and their wiring, as objects updated in place. */
module Desk {
  import opened Events
  import opened Ledger
  import opened Pricing
  import opened Rounding
  import opened Sizing
  import opened Risk
  import opened Execution
  import opened Lifecycle
  import opened Startup
  import opened Store
  import opened PaperBook

  /** What `set` did: nothing, raised, or changed the mode. */
  datatype Transition = Unchanged | Invalid | Changed

  /** The one place the autonomy mode lives. */
  class ModeController {
    var mode: Mode

    constructor (initial: Mode := Observe)
      ensures mode == initial
    {
      mode := initial;
    }

    method Set(to: Mode) returns (t: Transition)
      modifies this
      ensures t == if to == old(mode) then Unchanged else if to in ValidTransitions(old(mode)) then Changed else Invalid
      ensures mode == if t == Changed then to else old(mode)
    {
      if to == mode {
        return Unchanged;
      }
      if to !in ValidTransitions(mode) {
        return Invalid;
      }
      mode := to;
      return Changed;
    }

    /** The kill switch bypasses the transition map. */
    method Halt() returns (changed: bool)
      modifies this
      ensures mode == Observe && changed == (old(mode) != Observe)
    {
      changed := mode != Observe;
      mode := Observe;
    }
  }

  class RiskEngine {
    const cfg: Settings
    const portfolio: Portfolio
    const modes: ModeController

    constructor (cfg: Settings, portfolio: Portfolio, modes: ModeController)
      ensures this.cfg == cfg && this.portfolio == portfolio && this.modes == modes
    {
      this.cfg := cfg;
      this.portfolio := portfolio;
      this.modes := modes;
    }

    /** Every pre-trade check, the size and the stop, against the current book; writes nothing. */
    method Evaluate(instrument: string, side: Side, now: int) returns (verdict: Verdict)
      ensures verdict == Risk.Evaluate(cfg, modes.mode, portfolio.Snapshot(), instrument, side, now)
    {
      hide TotalValue, QuantizePrice, AffordableSize, DeterministicSize;
      if modes.mode == Observe {
        return Refused(ObserveMode);
      }
      var value := portfolio.TotalValue();
      if |portfolio.positions| >= cfg.maxOpenPositions {
        return Refused(MaxOpenPositions);
      }
      if instrument in portfolio.positions {
        return Refused(PositionExists);
      }
      if value > 0.0 {
        var pnl := portfolio.DailyRealizedPnl(cfg.tradingDay(now));
        if -pnl / value >= cfg.maxDailyLossPct {
          return Refused(DailyLossLimit);
        }
      }
      var size := DeterministicSize(value, cfg.maxTradeLossPct, cfg.stopLossPct, cfg.maxPositionPct);
      if size <= 0.0 {
        return Refused(InsufficientCapital);
      }
      size := AffordableSize(size, portfolio.cash, cfg.cashBufferPct);
      if size < cfg.minTradeSize {
        return Refused(InsufficientCash);
      }
      if instrument !in portfolio.prices || portfolio.prices[instrument] == 0.0 {
        return Refused(NoStopPrice);
      }
      var price := portfolio.prices[instrument];
      return Cleared(size, StopFor(side, price, cfg.stopLossPct));
    }

    /** Whether this tick takes the position through its stop. */
    method Breached(instrument: string, price: Option<real>) returns (breached: bool)
      ensures breached <==>
                && PricedTick(instrument, price) && instrument in portfolio.positions
                && var p := portfolio.positions[instrument];
                   p.stop.Some? && p.stop.value != 0.0 && !OnSafeSide(p.side, price.value, p.stop.value)
    {
      if instrument == "" || price.None? || instrument !in portfolio.positions {
        return false;
      }
      var p := portfolio.positions[instrument];
      if p.stop.None? || p.stop.value == 0.0 {
        return false;
      }
      breached := (p.side == Long && price.value <= p.stop.value) || (p.side == Short && price.value >= p.stop.value);
    }
  }

  class PaperExecutor {
    const cfg: Settings
    const store: EventStore
    const portfolio: Portfolio
    const modes: ModeController
    const validator: RiskEngine
    var pending: seq<Parked>
    var submitted: set<string>
    var closePending: set<string>

    /** One entry per id in the queue, and the collaborators agree on the book and the mode they read. */
    ghost predicate Valid()
      reads this
    {
      && DistinctIds(pending) && portfolio.cfg == cfg
      && validator.cfg == cfg && validator.portfolio == portfolio && validator.modes == modes
    }

    ghost function Snapshot(): Core
      reads this, modes, portfolio, store
    {
      Core(modes.mode, portfolio.Snapshot(), pending, submitted, closePending, store.events)
    }

    constructor (cfg: Settings, store: EventStore, portfolio: Portfolio, modes: ModeController, validator: RiskEngine)
      requires portfolio.cfg == cfg && validator.cfg == cfg && validator.portfolio == portfolio && validator.modes == modes
      ensures Valid() && this.cfg == cfg && this.store == store && this.portfolio == portfolio && this.modes == modes
      ensures this.validator == validator
      ensures Snapshot() == Core(modes.mode, portfolio.Snapshot(), [], {}, {}, store.events)
    {
      this.cfg := cfg;
      this.store := store;
      this.portfolio := portfolio;
      this.modes := modes;
      this.validator := validator;
      pending := [];
      submitted := {};
      closePending := {};
    }

    // ---------- orders ----------

    /** Register the key and publish the order, once. */
    method Submit(decision: string, intent: Intent, now: int) returns (accepted: bool)
      modifies this`submitted, store
      ensures accepted <==> OrderKey(decision, intent) !in old(submitted)
      ensures submitted == old(submitted) + {OrderKey(decision, intent)}
      ensures store.events == old(store.events)
                              + if accepted then [Submitted(OrderKey(decision, intent), intent, decision, now)] else []
    {
      var key := OrderKey(decision, intent);
      accepted := key !in submitted;
      if accepted {
        submitted := submitted + {key};
        store.Append(Submitted(key, intent, decision, now));
      }
    }

    /** Publish a fill: it is persisted, and the portfolio books it before the call returns. */
    method PublishFill(fill: FillPayload, now: int)
      requires portfolio.cfg == cfg
      modifies store, portfolio
      ensures store.events == old(store.events) + [Filled(fill, now)]
      ensures portfolio.Snapshot() == HandleFill(old(portfolio.Snapshot()), fill, cfg.tradingDay(now))
    {
      store.Append(Filled(fill, now));
      var _ := portfolio.HandleFill(fill, now);
    }

    method Fill(t: Ticket, now: int)
      requires Valid()
      modifies this`submitted, store, portfolio
      ensures Valid() && Snapshot() == TryOpen(cfg, old(Snapshot()), t, now)
    {
      hide QuantizePrice, Quantize, HandleFill, OrderKey, SlippedPrice;
      if t.size <= 0.0 {
        return;
      }
      if t.instrument !in portfolio.prices || portfolio.prices[t.instrument] == 0.0 {
        return;
      }
      var price := portfolio.prices[t.instrument];
      var accepted := Submit(t.id, Open, now);
      if !accepted {
        return;
      }
      var fillPrice := QuantizePrice(SlippedPrice(cfg, t.side, price));
      if fillPrice == 0.0 {
        return;
      }
      var quantity := Quantize(t.size / fillPrice, 0.00000001);
      var fill := FillPayload(t.instrument, "open", SideText(t.side), fillPrice, quantity, t.size, t.size * cfg.feePct,
                              t.stop, t.id);
      assert fill == OpenFill(cfg, t, fillPrice);
      PublishFill(fill, now);
      assert store.events == old(store.events) + [Submitted(OrderKey(t.id, Open), Open, t.id, now)] + [Filled(fill, now)];
      assert portfolio.Snapshot() == HandleFill(old(portfolio.Snapshot()), fill, cfg.tradingDay(now));
    }

    /** True exactly when the position was closed. */
    method ClosePosition(instrument: string, now: int) returns (closed: bool)
      requires Valid()
      modifies this`submitted, store, portfolio
      ensures Valid() && Snapshot() == TryClose(cfg, old(Snapshot()), instrument, now)
      ensures closed <==> CanClose(old(Snapshot()), instrument)
    {
      hide HandleFill, OrderKey, ClosePrice;
      if instrument !in portfolio.positions {
        return false;
      }
      if instrument !in portfolio.prices || portfolio.prices[instrument] == 0.0 {
        return false;
      }
      var p, price := portfolio.positions[instrument], portfolio.prices[instrument];
      var fillPrice := ClosePrice(cfg, p.side, price);
      var fee := fillPrice * p.quantity * cfg.feePct;
      closed := Submit(p.decision, Close, now);
      if closed {
        var fill := FillPayload(instrument, "close", SideText(p.side), fillPrice, p.quantity, 0.0, fee, None, p.decision);
        assert fill == CloseFill(cfg, instrument, p, price);
        PublishFill(fill, now);
        assert store.events == old(store.events)
               + [Submitted(OrderKey(p.decision, Close), Close, p.decision, now), Filled(fill, now)];
        assert portfolio.Snapshot() == HandleFill(old(portfolio.Snapshot()), fill, cfg.tradingDay(now));
      }
    }

    method CloseOrDefer(instrument: string, now: int)
      requires Valid()
      modifies this`submitted, this`closePending, store, portfolio
      ensures Valid() && Snapshot() == Execution.CloseOrDefer(cfg, old(Snapshot()), instrument, now)
    {
      var closed := ClosePosition(instrument, now);
      if closed {
        closePending := closePending - {instrument};
      } else if instrument in portfolio.positions {
        closePending := closePending + {instrument};
      }
    }

    method ReconcileOrphans(instruments: seq<string>, now: int)
      requires Valid()
      modifies this`submitted, this`closePending, store, portfolio
      ensures Valid() && Snapshot() == Execution.ReconcileOrphans(cfg, old(Snapshot()), instruments, now)
    {
      for i := 0 to |instruments|
        invariant Valid()
        invariant Execution.ReconcileOrphans(cfg, old(Snapshot()), instruments, now)
                  == Execution.ReconcileOrphans(cfg, Snapshot(), instruments[i..], now)
      {
        if instruments[i] in portfolio.positions {
          CloseOrDefer(instruments[i], now);
        }
      }
    }

    // ---------- the queue ----------

    method EmitExpired(id: string, now: int)
      modifies store
      ensures store.events == old(store.events) + [Expired(id, now)]
    {
      store.Append(Expired(id, now));
    }

    /** The entries past their time to live, in queue order. */
    method StaleEntries(now: int) returns (stale: seq<Parked>)
      ensures stale == Stale(cfg, pending, now)
    {
      stale := [];
      assert pending[..0] == [];
      for i := 0 to |pending|
        invariant stale == Stale(cfg, pending[..i], now)
      {
        LiveAppend(cfg, pending[..i], pending[i], now);
        assert pending[..i + 1] == pending[..i] + [pending[i]] && stale + [] == stale;
        if IsExpired(cfg, pending[i], now) {
          stale := stale + [pending[i]];
        }
      }
      assert pending[..|pending|] == pending;
    }

    /** Expire what is past its time to live, oldest entry first. */
    method SweepExpired(now: int)
      requires Valid()
      modifies this`pending, store
      ensures Valid() && Snapshot() == ExpireStale(cfg, old(Snapshot()), now)
    {
      ghost var before := Snapshot();
      var stale := StaleEntries(now);
      DropNone(pending);
      hide Ids, Without, Drop, Stale, Live, DistinctIds, Expiries;
      assert stale[..0] == [];
      NoExpiries(now);
      for i := 0 to |stale|
        invariant pending == Drop(before.pending, Ids(stale[..i]))
        invariant store.events == before.log + Expiries(stale[..i], now)
      {
        OneMoreExpired(stale, i, now);
        WithoutIsDrop(pending, stale[i].ticket.id);
        DropTwice(before.pending, Ids(stale[..i]), {stale[i].ticket.id});
        pending := Without(pending, stale[i].ticket.id);
        EmitExpired(stale[i].ticket.id, now);
      }
      assert stale[..|stale|] == stale;
      Swept(cfg, before, stale, now);
    }

    /** Empty the queue, then publish one expiry per entry. */
    method ExpirePending(now: int)
      requires Valid()
      modifies this`pending, store
      ensures Valid() && Snapshot() == Execution.ExpirePending(old(Snapshot()), now)
    {
      var parked := pending;
      pending := [];
      for i := 0 to |parked|
        invariant pending == [] && store.events == old(store.events) + Expiries(parked[..i], now)
      {
        LastExpiry(parked[..i + 1], now);
        assert parked[..i + 1][..i] == parked[..i];
        EmitExpired(parked[i].ticket.id, now);
      }
      assert parked[..|parked|] == parked;
    }

    method HandleApproved(t: Ticket, now: int)
      requires Valid()
      modifies this`pending, this`submitted, store, portfolio
      ensures Valid() && Snapshot() == Execution.HandleApproved(cfg, old(Snapshot()), t, now)
    {
      match modes.mode {
        case Paper => Fill(t, now);
        case Assisted =>
          if t.id != "" {
            PutDistinct(pending, Parked(t, now));
            pending := Put(pending, Parked(t, now));
          }
        case _ =>
      }
    }

    /** The operator executes a parked decision; it is validated again first. */
    method Execute(id: string, now: int) returns (answer: Answer)
      requires Valid()
      modifies this`pending, this`submitted, store, portfolio
      ensures Valid() && (Snapshot(), answer) == Execution.Execute(cfg, old(Snapshot()), id, now)
    {
      if Level(modes.mode) < Level(Assisted) {
        return HaltedError;
      }
      if !Has(pending, id) {
        return NotFound;
      }
      var parked := Find(pending, id);
      WithoutIsDrop(pending, id);
      DropDistinct(pending, {id});
      pending := Without(pending, id);
      if IsExpired(cfg, parked, now) {
        EmitExpired(id, now);
        return StaleDecision;
      }
      var verdict := validator.Evaluate(parked.ticket.instrument, parked.ticket.side, now);
      match verdict {
        case Refused(_) =>
          EmitExpired(id, now);
          return StaleDecision;
        case Cleared(size, stop) =>
          Fill(parked.ticket.(size := size, stop := Some(stop)), now);
          return Done;
      }
    }

    method Reject(id: string, now: int) returns (answer: Answer)
      requires Valid()
      modifies this`pending, store
      ensures Valid() && (Snapshot(), answer) == Execution.Reject(old(Snapshot()), id, now)
    {
      if !Has(pending, id) {
        return NotFound;
      }
      WithoutIsDrop(pending, id);
      DropDistinct(pending, {id});
      pending := Without(pending, id);
      store.Append(OperatorRejected(id, now));
      return Done;
    }

    /** Park again the approvals that never reached an end; those past their time to live are expired. */
    method RehydratePending(approvals: seq<Event>, terminal: set<string>, now: int)
      requires Valid() && pending == []
      modifies this`pending, store
      ensures Valid() && pending == Repark(cfg, approvals, terminal, now).pending
      ensures store.events == old(store.events) + Repark(cfg, approvals, terminal, now).expired
    {
      for i := 0 to |approvals|
        invariant Valid() && pending == Repark(cfg, approvals[..i], terminal, now).pending
        invariant store.events == old(store.events) + Repark(cfg, approvals[..i], terminal, now).expired
      {
        var e := approvals[i];
        assert approvals[..i + 1][..i] == approvals[..i];
        if e.Approved? && e.ticket.id != "" && e.ticket.id !in terminal && !Has(pending, e.ticket.id) {
          var parked := Parked(e.ticket, e.time);
          if IsExpired(cfg, parked, now) {
            EmitExpired(e.ticket.id, now);
          } else {
            PutIsAppend(pending, parked);
            PutDistinct(pending, parked);
            pending := Put(pending, parked);
          }
        }
      }
      assert approvals[..|approvals|] == approvals;
    }

    // ---------- bus handlers ----------

    method HandleModeChange(now: int)
      requires Valid()
      modifies this`pending, store
      ensures Valid() && Snapshot() == ModeHandlers(old(Snapshot()), now)
    {
      if Level(modes.mode) < Level(Assisted) {
        ExpirePending(now);
      }
    }

    method HandleTick(instrument: string, now: int)
      requires Valid()
      modifies this, store, portfolio
      ensures Valid()
      ensures var retried := RetryDeferred(cfg, old(Snapshot()), instrument, now);
        Snapshot() == if retried.pending != [] then ExpireStale(cfg, retried, now) else retried
    {
      if instrument in closePending {
        if instrument !in portfolio.positions {
          closePending := closePending - {instrument};
        } else {
          var closed := ClosePosition(instrument, now);
          if closed {
            closePending := closePending - {instrument};
          }
        }
      }
      if pending != [] {
        SweepExpired(now);
      }
    }

    method HandleThesisInvalidated(instrument: string, now: int)
      requires Valid()
      modifies this`submitted, this`closePending, store, portfolio
      ensures Valid()
      ensures Snapshot() == if instrument == "" || instrument !in old(portfolio.positions) then old(Snapshot())
                            else Execution.CloseOrDefer(cfg, old(Snapshot()), instrument, now)
    {
      if instrument != "" && instrument in portfolio.positions {
        CloseOrDefer(instrument, now);
      }
    }
  }

  lemma DropNone(q: seq<Parked>)
    ensures Drop(q, Ids([])) == q
  {
    DropNothing(q, Ids([]));
  }

  lemma NoExpiries(now: int)
    ensures Expiries([], now) == []
  {
  }

  lemma OneMoreExpired(stale: seq<Parked>, i: int, now: int)
    requires 0 <= i < |stale|
    ensures Expiries(stale[..i + 1], now) == Expiries(stale[..i], now) + [Expired(stale[i].ticket.id, now)]
    ensures Ids(stale[..i + 1]) == Ids(stale[..i]) + {stale[i].ticket.id}
  {
    LastExpiry(stale[..i + 1], now);
    assert stale[..i + 1][..i] == stale[..i];
  }

  // Removing the stale ids one by one leaves the live entries.
  lemma Swept(cfg: Settings, before: Core, stale: seq<Parked>, now: int)
    requires DistinctIds(before.pending) && stale == Stale(cfg, before.pending, now)
    ensures Drop(before.pending, Ids(stale)) == Live(cfg, before.pending, now)
    ensures DistinctIds(Drop(before.pending, Ids(stale)))
  {
    StaleExpires(cfg, before, now);
    DropDistinct(before.pending, Ids(stale));
  }

  lemma {:induction false} PutDistinct(q: seq<Parked>, parked: Parked)
    requires DistinctIds(q)
    ensures DistinctIds(Put(q, parked))
  {
    if Has(q, parked.ticket.id) {
      PutReplaces(q, parked);
    } else {
      PutIsAppend(q, parked);
      forall j, k | 0 <= j < k < |q + [parked]|
        ensures (q + [parked])[j].ticket.id != (q + [parked])[k].ticket.id
      {
      }
    }
  }

  // An id that is present keeps its place.
  lemma {:induction false} PutReplaces(q: seq<Parked>, parked: Parked)
    requires Has(q, parked.ticket.id)
    ensures |Put(q, parked)| == |q|
    ensures forall k :: 0 <= k < |q| ==> Put(q, parked)[k].ticket.id == q[k].ticket.id
  {
    if q[0].ticket.id != parked.ticket.id {
      var k :| 0 <= k < |q| && q[k].ticket.id == parked.ticket.id;
      assert q[1..][k - 1].ticket.id == parked.ticket.id;
      PutReplaces(q[1..], parked);
    }
  }
}
