/** gateway/app.py: the wiring of one process. An event is persisted, then handled by each subscriber in turn. */
module Gateway {
  import opened Events
  import opened Ledger
  import opened Risk
  import opened Execution
  import opened Orders
  import opened Lifecycle
  import opened Recovery
  import opened Startup
  import opened Liveness
  import opened Store
  import opened Pruning
  import opened PaperBook
  import opened Desk

  class TradingDesk {
    const cfg: Settings
    const store: EventStore
    const portfolio: Portfolio
    const modes: ModeController
    const risk: RiskEngine
    const executor: PaperExecutor

    ghost predicate Valid()
      reads executor
    {
      && executor.Valid() && executor.cfg == cfg && executor.store == store
      && executor.portfolio == portfolio && executor.modes == modes && executor.validator == risk
    }

    ghost function Snapshot(): Core
      reads executor, modes, portfolio, store
      requires Valid()
    {
      executor.Snapshot()
    }

    /** Build the components; nothing is subscribed or rebuilt yet. */
    constructor (cfg: Settings, store: EventStore)
      ensures Valid() && this.cfg == cfg && this.store == store
      ensures Snapshot() == Core(Observe, EmptyBook(cfg), [], {}, {}, store.events)
      ensures fresh(executor) && fresh(portfolio) && fresh(modes)
    {
      this.cfg := cfg;
      this.store := store;
      var book := new Portfolio(cfg);
      var controller := new ModeController();
      var engine := new RiskEngine(cfg, book, controller);
      portfolio := book;
      modes := controller;
      risk := engine;
      executor := new PaperExecutor(cfg, store, book, controller, engine);
    }

    // ---------- events ----------

    method OnTick(instrument: string, price: Option<real>, now: int)
      requires Valid()
      modifies executor, store, portfolio
      ensures Valid() && Snapshot() == Next(cfg, old(Snapshot()), DoTick(instrument, price, now))
    {
      hide TryClose, RetryDeferred, ExpireStale, HandleTick;
      store.Append(Ticked(instrument, price, now));
      portfolio.HandleTick(instrument, price);
      assert Snapshot() == Marked(old(Snapshot()), instrument, price, now);
      var breached := risk.Breached(instrument, price);
      if breached {
        store.Append(LimitBreached(instrument, now));
        var _ := executor.ClosePosition(instrument, now);
      }
      assert Snapshot() == MonitorStop(cfg, Marked(old(Snapshot()), instrument, price, now), instrument, price, now);
      executor.HandleTick(instrument, now);
    }

    method OnProposal(id: string, instrument: string, side: Side, now: int)
      requires Valid()
      modifies executor, store, portfolio
      ensures Valid() && Snapshot() == Next(cfg, old(Snapshot()), DoPropose(id, instrument, side, now))
    {
      hide Execution.HandleApproved, Evaluate;
      var verdict := risk.Evaluate(instrument, side, now);
      match verdict {
        case Refused(_) =>
          store.Append(RiskRejected(id, now));
        case Cleared(size, stop) =>
          OnApproval(Ticket(id, instrument, side, size, Some(stop)), now);
      }
    }

    /** An approval on the bus, first delivery or repeated. */
    method OnApproval(t: Ticket, now: int)
      requires Valid()
      modifies executor, store, portfolio
      ensures Valid()
      ensures Snapshot() == Execution.HandleApproved(cfg, Emit(old(Snapshot()), [Approved(t, now)]), t, now)
      ensures Snapshot() == Next(cfg, old(Snapshot()), DoRedeliver(t, now))
    {
      hide Execution.HandleApproved;
      store.Append(Approved(t, now));
      assert Snapshot() == Emit(old(Snapshot()), [Approved(t, now)]);
      executor.HandleApproved(t, now);
    }

    method OnInvalidation(instrument: string, now: int)
      requires Valid()
      modifies executor, store, portfolio
      ensures Valid() && Snapshot() == Next(cfg, old(Snapshot()), DoInvalidate(instrument, now))
    {
      hide Execution.CloseOrDefer;
      store.Append(ThesisInvalidated(instrument, now));
      assert Snapshot() == Emit(old(Snapshot()), [ThesisInvalidated(instrument, now)]);
      executor.HandleThesisInvalidated(instrument, now);
    }

    method SetMode(to: Mode, now: int) returns (ok: bool)
      requires Valid()
      modifies executor, store, modes
      ensures Valid() && Snapshot() == Next(cfg, old(Snapshot()), DoSetMode(to, now))
      ensures ok <==> to == old(modes.mode) || to in ValidTransitions(old(modes.mode))
    {
      var t := modes.Set(to);
      ok := t != Invalid;
      if t == Changed {
        store.Append(ModeChanged(to, now));
        assert Snapshot() == Emit(old(Snapshot()).(mode := to), [ModeChanged(to, now)]);
        executor.HandleModeChange(now);
      }
    }

    method Halt(now: int)
      requires Valid()
      modifies executor, store, modes
      ensures Valid() && Snapshot() == Next(cfg, old(Snapshot()), DoHalt(now))
    {
      hide ExpirePending, ModeHandlers;
      var changed := modes.Halt();
      store.Append(Halted(now));
      assert Snapshot() == Emit(old(Snapshot()).(mode := Observe), [Halted(now)]);
      executor.ExpirePending(now);
      if changed {
        ghost var flushed := Snapshot();
        store.Append(ModeChanged(Observe, now));
        assert Snapshot() == Emit(flushed, [ModeChanged(Observe, now)]);
        executor.HandleModeChange(now);
      }
    }

    /** A pass of the pruner over the store. */
    method PruneTicks(before: int)
      requires Valid()
      modifies store
      ensures Valid() && Snapshot() == Prune(old(Snapshot()), before)
    {
      var _ := store.Prune(TICKS, before);
    }

    // ---------- startup and shutdown ----------

    /** An orderly stop drains the operator's queue. */
    method Stop(now: int)
      requires Valid()
      modifies executor, store
      ensures Valid() && Snapshot() == ExpirePending(old(Snapshot()), now)
    {
      executor.ExpirePending(now);
    }

    /** The held instruments whose thesis is dead; `held` is the order they were looked at. */
    method FindOrphans(th: ThesisHistory, now: int) returns (orphans: seq<string>, held: seq<string>)
      ensures orphans == Orphans(portfolio.Snapshot(), held, th, now)
      ensures forall i :: i in portfolio.positions <==> i in held
    {
      orphans, held := [], [];
      var rest := portfolio.positions;
      while rest != map[]
        invariant rest.Keys <= portfolio.positions.Keys && forall i :: i in rest ==> rest[i] == portfolio.positions[i]
        invariant forall i :: i in portfolio.positions <==> i in rest || i in held
        invariant orphans == Orphans(portfolio.Snapshot(), held, th, now)
        decreases |rest|
      {
        var instrument :| instrument in rest;
        var decision := rest[instrument].decision;
        OrphansOne(portfolio.Snapshot(), held, instrument, th, now);
        assert orphans + [] == orphans;
        if decision !in th.origin || th.origin[decision] in th.invalidated {
          orphans := orphans + [instrument];
        } else if th.origin[decision] in th.ends {
          if th.ends[th.origin[decision]] <= now {
            orphans := orphans + [instrument];
          }
        } else {
          orphans := orphans + [instrument];
        }
        held := held + [instrument];
        rest := rest - {instrument};
      }
    }

    /** Rebuild everything from the store, then close what has outlived its thesis. */
    method Startup(records: seq<Record>, now: int) returns (held: seq<string>)
      requires Valid() && Snapshot() == Core(Observe, EmptyBook(cfg), [], {}, {}, store.events)
      modifies executor, store, portfolio
      ensures Valid()
      ensures var booted := Boot(cfg, old(store.events), now);
        Snapshot() == ReconcileOrphans(cfg, booted, Orphans(booted.book, held, Collect(records), now), now)
        && forall i :: i in booted.book.positions <==> i in held
    {
      RebuildBook();
      ghost var log := store.events;
      var fills := store.InRange(FILLS, None, None);
      var executed := set e | e in fills && IsExecution(e) :: e.fill.decision;
      var rejections := store.Recent({DecisionRejected});
      var rejected := set e | e in rejections && (e.RiskRejected? || e.OperatorRejected?) :: e.id;
      var expiries := store.Recent({DecisionExpired});
      var expired := set e | e in expiries && e.Expired? :: e.id;
      TerminalParts(log);
      var approvals := store.Recent(APPROVALS);
      executor.RehydratePending(approvals, executed + rejected + expired, now);
      assert Snapshot() == Boot(cfg, log, now);
      var theses := CollectTheses(records);
      var orphans;
      orphans, held := FindOrphans(theses, now);
      executor.ReconcileOrphans(orphans, now);
    }

    method RebuildBook()
      requires Valid() && portfolio.Snapshot() == EmptyBook(cfg)
      modifies portfolio
      ensures portfolio.Snapshot() == RebuiltBook(cfg, store.events)
    {
      hide Range, LatestOf, Recovery.SeedPrices;
      var fills := store.InRange(FILLS, None, None);
      RangeHolds(store.events, FILLS, None, None);
      var _ := portfolio.Rehydrate(fills);
      ReplayFromEmpty(cfg, fills);
      var ticks := store.LatestPerKey(TICKS);
      portfolio.SeedPrices(ticks);
    }
  }

  lemma OrphansOne(b: Book, held: seq<string>, i: string, th: ThesisHistory, now: int)
    ensures Orphans(b, held + [i], th, now)
            == Orphans(b, held, th, now)
               + if i in b.positions && !ThesisLive(th, b.positions[i].decision, now) then [i] else []
  {
    assert (held + [i])[..|held|] == held;
  }

  lemma ExecutedPart(log: seq<Event>)
    ensures (set e | e in Range(log, FILLS) && IsExecution(e) :: e.fill.decision)
            == (set e | e in log && IsExecution(e) :: e.fill.decision)
  {
    RangeHolds(log, FILLS, None, None);
    hide Range;
  }

  lemma RejectedPart(log: seq<Event>)
    ensures (set e | e in OfKinds(log, {DecisionRejected}) && (e.RiskRejected? || e.OperatorRejected?) :: e.id)
            == (set e | e in log && (e.RiskRejected? || e.OperatorRejected?) :: e.id)
  {
    OfKindsElements(log, {DecisionRejected});
    hide OfKinds;
  }

  lemma ExpiredPart(log: seq<Event>)
    ensures (set e | e in OfKinds(log, {DecisionExpired}) && e.Expired? :: e.id)
            == (set e | e in log && e.Expired? :: e.id)
  {
    OfKindsElements(log, {DecisionExpired});
    hide OfKinds;
  }

  /** The three queries of startup together give the settled ids. */
  lemma TerminalParts(log: seq<Event>)
    ensures (set e | e in Range(log, FILLS) && IsExecution(e) :: e.fill.decision)
            + (set e | e in OfKinds(log, {DecisionRejected}) && (e.RiskRejected? || e.OperatorRejected?) :: e.id)
            + (set e | e in OfKinds(log, {DecisionExpired}) && e.Expired? :: e.id)
            == TerminalIds(log)
  {
    ExecutedPart(log);
    RejectedPart(log);
    ExpiredPart(log);
    hide Range, OfKinds;
  }
}
