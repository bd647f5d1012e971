/** What becomes of a proposal, of an operator's call and of a breach: each outcome, and exactly when. */
module Decisions {
  import opened Events
  import opened Ledger
  import opened Risk
  import opened Execution
  import opened Orders
  import opened Safety
  import opened Fills
  import opened Lifecycle
  import opened Openings
  import opened Startup
  import opened History
  import opened Theorems

  /** The ticket is filled: one opening fill, the position bought at the market price, cash less size and fee. */
  ghost predicate FilledNow(cfg: Settings, c: Core, d: Core, t: Ticket) {
    && Count(d.log, OpensOf(t.id)) == Count(c.log, OpensOf(t.id)) + 1
    && t.instrument in c.book.prices && t.instrument in d.book.positions
    && Bought(cfg, t, c.book.prices[t.instrument], d.book.positions[t.instrument])
    && d.book.positions == c.book.positions[t.instrument := d.book.positions[t.instrument]]
    && d.book.prices == c.book.prices && d.book.cash == c.book.cash - t.size * (1.0 + cfg.feePct)
    && d.mode == c.mode && d.closePending == c.closePending
  }

  // A cleared ticket whose key is free fills.
  lemma ClearedFills(cfg: Settings, c: Core, t: Ticket, now: int)
    requires ClearedTicket(cfg, c, t, now) && OrderKey(t.id, Open) !in c.submitted
    requires StopInv(c.book) && FillSettings(cfg)
    ensures FilledNow(cfg, c, TryOpen(cfg, c, t, now), t) && TryOpen(cfg, c, t, now).pending == c.pending
  {
    ClearedMeans(cfg, c.mode, c.book, t.instrument, t.side, now);
    StopsSafe(c.book);
    hide ClearedTicket, StopInv, TryOpen;
    assert CanOpen(c, t);
    OpenTakes(cfg, c, t, now);
    var key, fill := OpenAppends(cfg, c, t, now);
    CountFill(c.log, key, fill, t.id);
    OpenKeepsRest(cfg, c, t, now);
  }

  lemma OpenKeepsRest(cfg: Settings, c: Core, t: Ticket, now: int)
    ensures var d := TryOpen(cfg, c, t, now);
      d.pending == c.pending && d.mode == c.mode && d.closePending == c.closePending
  {
    hide OpenPrice, OpenFill, HandleFill;
  }

  // Another event before the fill changes nothing for it.
  lemma FilledAfter(cfg: Settings, c: Core, d: Core, e: Core, t: Ticket, event: Event)
    requires d.book == c.book && d.mode == c.mode && d.closePending == c.closePending && !event.Filled?
    requires d.log == c.log || d.log == c.log + [event]
    requires FilledNow(cfg, d, e, t)
    ensures FilledNow(cfg, c, e, t)
  {
    CountNoFills(c.log, [event], t.id);
    hide Bought;
  }

  /** A fresh proposal is refused and recorded as such, parked as the last of the queue, or filled at once: which of
      them is the risk engine's verdict and the mode. */
  lemma ProposalDecides(cfg: Settings, moves: seq<Move>, id: string, instrument: string, side: Side, now: int)
    requires LegalHistory(cfg, moves) && Legal(After(cfg, moves), Act(DoPropose(id, instrument, side, now))) && id != ""
    ensures var c := After(cfg, moves);
      var d, verdict := Next(cfg, c, DoPropose(id, instrument, side, now)), Evaluate(cfg, c.mode, c.book, instrument, side, now);
      && (verdict.Refused? ==> d == Emit(c, [RiskRejected(id, now)]))
      && (verdict.Cleared? ==>
            var t := Ticket(id, instrument, side, verdict.size, Some(verdict.stop));
            && (c.mode == Paper || c.mode == Assisted)
            && (c.mode == Assisted ==> d == Emit(c, [Approved(t, now)]).(pending := c.pending + [Parked(t, now)]))
            && (c.mode == Paper ==> FilledNow(cfg, c, d, t) && d.pending == c.pending))
  {
    HistoryIsGood(cfg, moves);
    hide LegalHistory, After;
    ProposalDecidesIn(cfg, After(cfg, moves), id, instrument, side, now);
  }

  lemma ProposalDecidesIn(cfg: Settings, c: Core, id: string, instrument: string, side: Side, now: int)
    requires QueueInv(c) && StopInv(c.book) && FillSettings(cfg) && Wired(c) && id != "" && Count(c.log, ApprovalsOf(id)) == 0
    ensures var d, verdict := Next(cfg, c, DoPropose(id, instrument, side, now)), Evaluate(cfg, c.mode, c.book, instrument, side, now);
      && (verdict.Refused? ==> d == Emit(c, [RiskRejected(id, now)]))
      && (verdict.Cleared? ==>
            var t := Ticket(id, instrument, side, verdict.size, Some(verdict.stop));
            && (c.mode == Paper || c.mode == Assisted)
            && (c.mode == Assisted ==> d == Emit(c, [Approved(t, now)]).(pending := c.pending + [Parked(t, now)]))
            && (c.mode == Paper ==> FilledNow(cfg, c, d, t) && d.pending == c.pending))
  {
    var verdict := Evaluate(cfg, c.mode, c.book, instrument, side, now);
    if verdict.Cleared? {
      var t := Ticket(id, instrument, side, verdict.size, Some(verdict.stop));
      var approved := Emit(c, [Approved(t, now)]);
      NotApprovedNotWaiting(c, id);
      PutIsAppend(c.pending, Parked(t, now));
      WaitingKeyFree(c, id);
      ClearedFree(cfg, c.mode, c.book, instrument, side, now);
      hide QueueInv, StopInv, Evaluate, TryOpen, FilledNow, Put;
      assert ClearedTicket(cfg, approved, t, now);
      ClearedFills(cfg, approved, t, now);
      FilledAfter(cfg, c, approved, TryOpen(cfg, approved, t, now), t, Approved(t, now));
    }
  }

  /** An operator's execute takes the decision off the queue whatever happens, and fills it, at the size and stop of a
      fresh verdict, if and only if it is younger than its time to live and cleared again; else it expires. */
  lemma ExecuteDecides(cfg: Settings, moves: seq<Move>, id: string, now: int)
    requires LegalHistory(cfg, moves) && After(cfg, moves).mode == Assisted && Has(After(cfg, moves).pending, id)
    ensures var c := After(cfg, moves);
      var parked, r := Find(c.pending, id), Execute(cfg, c, id, now);
      var d, verdict := r.0, Evaluate(cfg, c.mode, c.book, parked.ticket.instrument, parked.ticket.side, now);
      && parked in c.pending && parked.ticket.id == id
      && !Has(d.pending, id) && (forall x :: x in d.pending <==> x in c.pending && x.ticket.id != id)
      && (r.1 == Done <==> now - parked.approvedAt < cfg.pendingTtl && verdict.Cleared?)
      && (r.1 == Done ==> FilledNow(cfg, c, d, parked.ticket.(size := verdict.size, stop := Some(verdict.stop))))
      && (r.1 != Done ==> r.1 == StaleDecision && d == Emit(c.(pending := Without(c.pending, id)), [Expired(id, now)]))
  {
    HistoryIsGood(cfg, moves);
    hide LegalHistory, After;
    ExecuteDecidesIn(cfg, After(cfg, moves), id, now);
  }

  lemma ExecuteDecidesIn(cfg: Settings, c: Core, id: string, now: int)
    requires QueueInv(c) && StopInv(c.book) && FillSettings(cfg) && c.mode == Assisted && Has(c.pending, id)
    ensures var parked, r := Find(c.pending, id), Execute(cfg, c, id, now);
      var d, verdict := r.0, Evaluate(cfg, c.mode, c.book, parked.ticket.instrument, parked.ticket.side, now);
      && parked in c.pending && parked.ticket.id == id
      && !Has(d.pending, id) && (forall x :: x in d.pending <==> x in c.pending && x.ticket.id != id)
      && (r.1 == Done <==> now - parked.approvedAt < cfg.pendingTtl && verdict.Cleared?)
      && (r.1 == Done ==> FilledNow(cfg, c, d, parked.ticket.(size := verdict.size, stop := Some(verdict.stop))))
      && (r.1 != Done ==> r.1 == StaleDecision && d == Emit(c.(pending := Without(c.pending, id)), [Expired(id, now)]))
  {
    var parked, left := Find(c.pending, id), c.(pending := Without(c.pending, id));
    var verdict := Evaluate(cfg, c.mode, c.book, parked.ticket.instrument, parked.ticket.side, now);
    FindElement(c.pending, id);
    WithoutSubset(c.pending, id);
    HasElement(left.pending, id);
    NamedWaiting(c, id);
    WaitingKeyFree(c, id);
    hide QueueInv, StopInv, Evaluate, TryOpen, FilledNow, Without, Has;
    if now - parked.approvedAt < cfg.pendingTtl && verdict.Cleared? {
      var t := parked.ticket.(size := verdict.size, stop := Some(verdict.stop));
      assert ClearedTicket(cfg, left, t, now);
      ClearedFills(cfg, left, t, now);
      FilledAfter(cfg, c, left, TryOpen(cfg, left, t, now), t, Expired(id, now));
    }
  }

  lemma NamedWaiting(c: Core, id: string)
    requires QueueInv(c) && Has(c.pending, id)
    ensures id != ""
  {
  }

  /** Without authority an execute is refused, and of an unknown decision it finds nothing; neither changes anything.
      A reject takes exactly the decision off the queue and records it, whatever the mode. */
  lemma OperatorAnswers(cfg: Settings, c: Core, id: string, now: int)
    ensures Execute(cfg, c, id, now).1 == HaltedError <==> c.mode == Observe || c.mode == Paper
    ensures Execute(cfg, c, id, now).1 == NotFound <==> c.mode != Observe && c.mode != Paper && !Has(c.pending, id)
    ensures Execute(cfg, c, id, now).1 == HaltedError || Execute(cfg, c, id, now).1 == NotFound ==> Execute(cfg, c, id, now).0 == c
    ensures Reject(c, id, now).1 == Done <==> Has(c.pending, id)
    ensures Reject(c, id, now).1 != Done ==> Reject(c, id, now) == (c, NotFound)
    ensures Reject(c, id, now).1 == Done ==>
              Reject(c, id, now).0 == Emit(c.(pending := Without(c.pending, id)), [OperatorRejected(id, now)])
    ensures forall x :: x in Without(c.pending, id) <==> x in c.pending && x.ticket.id != id
  {
    WithoutSubset(c.pending, id);
    hide Evaluate, TryOpen;
  }

  // ---------- breaches, invalidations, modes, restarts ----------

  /** Some breach of the instrument was recorded between the two states. */
  ghost predicate BreachRecorded(c: Core, d: Core, instrument: string) {
    exists k :: |c.log| <= k < |d.log| && d.log[k].LimitBreached? && d.log[k].instrument == instrument
  }

  ghost predicate NoBreach(events: seq<Event>) {
    forall e :: e in events ==> !e.LimitBreached?
  }

  lemma CloseAppends(cfg: Settings, c: Core, instrument: string, now: int) returns (events: seq<Event>)
    ensures NoBreach(events) && TryClose(cfg, c, instrument, now).log == c.log + events
  {
    hide HandleFill, CloseFill;
    events := TryClose(cfg, c, instrument, now).log[|c.log|..];
  }

  lemma RetryAppends(cfg: Settings, c: Core, instrument: string, now: int) returns (events: seq<Event>)
    ensures NoBreach(events) && RetryDeferred(cfg, c, instrument, now).log == c.log + events
  {
    hide HandleFill, CloseFill;
    events := RetryDeferred(cfg, c, instrument, now).log[|c.log|..];
  }

  lemma SweepAppends(cfg: Settings, c: Core, now: int) returns (events: seq<Event>)
    ensures NoBreach(events) && (if c.pending != [] then ExpireStale(cfg, c, now) else c).log == c.log + events
  {
    events := (if c.pending != [] then ExpireStale(cfg, c, now) else c).log[|c.log|..];
  }

  /** A priced tick records a breach exactly when it reaches or passes the stop of the position held. */
  lemma BreachIsRecorded(cfg: Settings, moves: seq<Move>, instrument: string, price: real, now: int)
    requires LegalHistory(cfg, moves) && instrument != "" && 0.0 < price
    ensures var c := After(cfg, moves);
      BreachRecorded(c, Next(cfg, c, DoTick(instrument, Some(price), now)), instrument)
      <==> instrument in c.book.positions && c.book.positions[instrument].stop.Some?
           && !OnSafeSide(c.book.positions[instrument].side, price, c.book.positions[instrument].stop.value)
  {
    HistoryIsGood(cfg, moves);
    StopsSafe(After(cfg, moves).book);
    hide LegalHistory, After, Good;
    BreachIsRecordedIn(cfg, After(cfg, moves), instrument, price, now);
  }

  lemma BreachIsRecordedIn(cfg: Settings, c: Core, instrument: string, price: real, now: int)
    requires instrument != "" && 0.0 < price && (instrument in c.book.positions ==> SafeAt(c.book, instrument))
    ensures BreachRecorded(c, Next(cfg, c, DoTick(instrument, Some(price), now)), instrument)
            <==> instrument in c.book.positions && c.book.positions[instrument].stop.Some?
                 && !OnSafeSide(c.book.positions[instrument].side, price, c.book.positions[instrument].stop.value)
  {
    var marked := Marked(c, instrument, Some(price), now);
    var breach := Emit(marked, [LimitBreached(instrument, now)]);
    var watched := MonitorStop(cfg, marked, instrument, Some(price), now);
    var closing := CloseAppends(cfg, breach, instrument, now);
    var retrying := RetryAppends(cfg, watched, instrument, now);
    var retried := RetryDeferred(cfg, watched, instrument, now);
    var sweeping := SweepAppends(cfg, retried, now);
    hide TryClose, RetryDeferred, ExpireStale;
    var d := Next(cfg, c, DoTick(instrument, Some(price), now));
    if watched == marked {
      OnlyThese(c, d, [Ticked(instrument, Some(price), now)], retrying + sweeping, instrument);
    } else {
      OnlyThese(c, d, [Ticked(instrument, Some(price), now), LimitBreached(instrument, now)],
                closing + retrying + sweeping, instrument);
    }
  }

  lemma OnlyThese(c: Core, d: Core, first: seq<Event>, rest: seq<Event>, instrument: string)
    requires d.log == c.log + first + rest && NoBreach(rest)
    ensures BreachRecorded(c, d, instrument) <==> exists e :: e in first && e.LimitBreached? && e.instrument == instrument
  {
    if e :| e in first && e.LimitBreached? && e.instrument == instrument {
      var k :| 0 <= k < |first| && first[k] == e;
      assert d.log[|c.log| + k] == e;
    }
    if BreachRecorded(c, d, instrument) {
      var k :| |c.log| <= k < |d.log| && d.log[k].LimitBreached? && d.log[k].instrument == instrument;
      assert forall j :: |c.log| + |first| <= j < |d.log| ==> d.log[j] == rest[j - |c.log| - |first|];
      assert first[k - |c.log|] == d.log[k];
    }
  }

  /** An invalidation closes the held instrument if it has a price and defers the close if it has none. */
  lemma InvalidationSettles(cfg: Settings, moves: seq<Move>, instrument: string, now: int)
    requires LegalHistory(cfg, moves) && instrument != "" && instrument in After(cfg, moves).book.positions
    ensures var c := After(cfg, moves);
      var d := Next(cfg, c, DoInvalidate(instrument, now));
      && (instrument in d.book.positions <==> instrument !in c.book.prices)
      && (instrument in d.closePending <==> instrument !in c.book.prices)
  {
    HistoryIsGood(cfg, moves);
    hide LegalHistory, After;
    InvalidationSettlesIn(cfg, After(cfg, moves), instrument, now);
  }

  lemma InvalidationSettlesIn(cfg: Settings, c: Core, instrument: string, now: int)
    requires TradeInv(c, OpenedIds(c.log)) && StopInv(c.book) && instrument != "" && instrument in c.book.positions
    ensures var d := Next(cfg, c, DoInvalidate(instrument, now));
      && (instrument in d.book.positions <==> instrument !in c.book.prices)
      && (instrument in d.closePending <==> instrument !in c.book.prices)
  {
    CloseSucceeds(c, OpenedIds(c.log), instrument);
    StopsSafe(c.book);
    hide TradeInv, StopInv, Closed;
    var d := Emit(c, [ThesisInvalidated(instrument, now)]);
    if CanClose(d, instrument) { ClosedEffect(cfg, d, instrument, now); }
  }

  /** A mode change is recorded, and keeps the queue exactly when the new mode may execute from it. */
  lemma ModeKeepsQueue(cfg: Settings, c: Core, to: Mode, now: int)
    requires to != c.mode && to in ValidTransitions(c.mode)
    ensures Next(cfg, c, DoSetMode(to, now)).pending == if to == Assisted then c.pending else []
    ensures Next(cfg, c, DoSetMode(to, now)).mode == to && Next(cfg, c, DoSetMode(to, now)).book == c.book
    ensures Next(cfg, c, DoSetMode(to, now)).log
            == c.log + [ModeChanged(to, now)] + if to == Assisted then [] else Expiries(c.pending, now)
  {
    LadderRules(c.mode, to);
  }

  /** A halt is recorded, leaves nothing waiting and no authority, and touches no position. */
  lemma HaltSettles(cfg: Settings, c: Core, now: int)
    ensures var d := Next(cfg, c, DoHalt(now));
      && d.mode == Observe && d.pending == [] && d.book == c.book && d.closePending == c.closePending
      && d.log == c.log + [Halted(now)] + Expiries(c.pending, now)
                  + if c.mode == Observe then [] else [ModeChanged(Observe, now)]
  {
  }

  /** A new process starts in OBSERVE, whatever the old one was in. */
  lemma RestartObserves(cfg: Settings, c: Core, m: Move)
    requires m.Reboot?
    ensures Advance(cfg, c, m).mode == Observe
  {
    var down := if m.stopped.Some? then ExpirePending(c, m.stopped.value) else c;
    var booted := Boot(cfg, down.log, m.now);
    ReconcileOpensNone(cfg, booted, Orphans(booted.book, m.held, m.theses, m.now), m.now);
  }
}
