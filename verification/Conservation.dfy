/** Where the money is: an exact identity over every replayed event stream. */
module Conservation {
  import opened Events
  import opened Totals
  import opened Ledger

  /** Notional bought minus notional paid for, over every opening fill: the quantity rounding. */
  function Residual(log: seq<Event>): real {
    if log == [] then 0.0
    else
      var e := log[|log| - 1];
      Residual(log[..|log| - 1]) + ResidualOf(e)
  }

  function ResidualOf(e: Event): real {
    if IsOpenFill(e) then e.fill.price * e.fill.quantity - e.fill.cost else 0.0
  }

  /** No opening fill lands on an instrument that is already held. */
  ghost predicate NoPyramiding(cfg: Settings, log: seq<Event>) {
    log == [] ||
    var before, e := log[..|log| - 1], log[|log| - 1];
    NoPyramiding(cfg, before) && (IsOpenFill(e) ==> e.fill.instrument !in Replay(cfg, before).positions)
  }

  ghost predicate CashIdentity(cfg: Settings, b: Book, residual: real) {
    b.cash == cfg.initialCash + Sum(b.realized) - Total(b.positions, Committed) + residual
  }

  predicate SamePosition(p: Position, q: Position) {
    && p.side == q.side && p.entry == q.entry && p.quantity == q.quantity
    && p.stop == q.stop && p.entryFee == q.entryFee && p.decision == q.decision
  }

  ghost predicate SamePositions(a: map<string, Position>, b: map<string, Position>) {
    a.Keys == b.Keys && forall k :: k in a ==> SamePosition(a[k], b[k])
  }

  /** Equal in cash, positions, realized trades and the daily accumulator: in everything but prices. */
  ghost predicate SameMoney(a: Book, b: Book) {
    && a.cash == b.cash && a.realized == b.realized
    && a.dailyPnl == b.dailyPnl && a.dailyDate == b.dailyDate
    && SamePositions(a.positions, b.positions)
  }

  /** Equal in everything but the current price of held positions. */
  ghost predicate SameButMarks(a: Book, b: Book) {
    SameMoney(a, b) && a.prices == b.prices
  }

  /** Whatever price `a` knows, `b` knows too. */
  predicate PricesWithin(a: map<string, real>, b: map<string, real>) {
    forall i :: i in a ==> i in b && a[i] == b[i]
  }

  lemma {:induction false} CommittedIgnoresMarks(p: map<string, Position>, q: map<string, Position>)
    requires SamePositions(p, q)
    ensures Total(p, Committed) == Total(q, Committed)
    decreases |p|
  {
    if p != map[] {
      var k :| k in p;
      TotalSplit(p, k, Committed);
      TotalSplit(q, k, Committed);
      CommittedIgnoresMarks(p - {k}, q - {k});
      SameCommitted(p[k], q[k]);
    } else {
      assert q == map[];
    }
  }

  lemma SameCommitted(p: Position, q: Position)
    requires SamePosition(p, q)
    ensures Committed(p) == Committed(q)
  {
  }

  lemma ResidualOne(log: seq<Event>, e: Event)
    ensures Residual(log + [e]) == Residual(log) + ResidualOf(e)
  {
    assert (log + [e])[..|log|] == log;
  }

  lemma OpenKeepsIdentity(cfg: Settings, b: Book, residual: real, instrument: string, p: Position, cost: real, day: int)
    requires CashIdentity(cfg, b, residual) && instrument !in b.positions
    ensures CashIdentity(cfg, OpenPosition(b, instrument, p, cost, day), residual + (SizeUsd(p) - cost))
  {
    hide Total, Sum;
    TotalPut(b.positions, instrument, p, Committed);
    TotalAbsent(b.positions, instrument);
  }

  lemma CloseKeepsIdentity(cfg: Settings, b: Book, residual: real, instrument: string, price: real, fee: real, day: int)
    requires CashIdentity(cfg, b, residual)
    ensures CashIdentity(cfg, ClosePosition(b, instrument, price, fee, day), residual)
  {
    if instrument in b.positions {
      var p := b.positions[instrument];
      TotalSplit(b.positions, instrument, Committed);
      SumAppend(b.realized, RealizedPnl(p, price, fee));
      assert CloseCredit(p, price, fee) == RealizedPnl(p, price, fee) + Committed(p);
    }
  }

  lemma MarkKeepsIdentity(cfg: Settings, b: Book, residual: real, instrument: string, price: real)
    requires CashIdentity(cfg, b, residual)
    ensures CashIdentity(cfg, Mark(b, instrument, price), residual)
  {
    CommittedIgnoresMarks(b.positions, Mark(b, instrument, price).positions);
  }

  lemma ApplyKeepsIdentity(cfg: Settings, b: Book, residual: real, e: Event)
    requires CashIdentity(cfg, b, residual)
    requires IsOpenFill(e) ==> e.fill.instrument !in b.positions
    ensures CashIdentity(cfg, Apply(cfg, b, e), residual + ResidualOf(e))
  {
    hide CashIdentity, RealizedPnl, CloseCredit;
    match e {
      case Ticked(instrument, price, _) =>
        if PricedTick(instrument, price) { MarkKeepsIdentity(cfg, b, residual, instrument, price.value); }
      case Filled(fill, time) =>
        if IsOpenFill(e) {
          var p := Position(ReadSide(fill.side).value, fill.price, fill.quantity, fill.price, fill.stop, fill.fee, fill.decision);
          OpenKeepsIdentity(cfg, b, residual, fill.instrument, p, fill.cost, cfg.tradingDay(time));
          assert Apply(cfg, b, e) == OpenPosition(b, fill.instrument, p, fill.cost, cfg.tradingDay(time));
          assert ResidualOf(e) == SizeUsd(p) - fill.cost;
        } else if IsCloseFill(e) {
          CloseKeepsIdentity(cfg, b, residual, fill.instrument, fill.price, fill.fee, cfg.tradingDay(time));
        }
      case _ =>
    }
  }

  /** Cash identity over a whole stream, malformed fills and unknown closes included. */
  lemma {:induction false} ReplayCashIdentity(cfg: Settings, log: seq<Event>)
    requires NoPyramiding(cfg, log)
    ensures CashIdentity(cfg, Replay(cfg, log), Residual(log))
  {
    if log != [] {
      hide CashIdentity, Apply;
      var before := log[..|log| - 1];
      ReplayCashIdentity(cfg, before);
      ApplyKeepsIdentity(cfg, Replay(cfg, before), Residual(before), log[|log| - 1]);
    }
  }

  lemma {:induction false} CommittedSplits(m: map<string, Position>)
    ensures Total(m, EquityContribution) + Total(m, EntryFee) == Total(m, Committed) + Total(m, UnrealizedPnl)
    decreases |m|
  {
    if m != map[] {
      var k :| k in m;
      TotalSplit(m, k, EquityContribution);
      TotalSplit(m, k, EntryFee);
      TotalSplit(m, k, Committed);
      TotalSplit(m, k, UnrealizedPnl);
      CommittedSplits(m - {k});
    }
  }

  /** Total value is initial cash plus realized and unrealized P&L, less open entry fees, plus the rounding residual. */
  lemma TotalValueConserved(cfg: Settings, b: Book, residual: real)
    requires CashIdentity(cfg, b, residual)
    ensures TotalValue(b) == cfg.initialCash + Sum(b.realized) + Total(b.positions, UnrealizedPnl)
                             - Total(b.positions, EntryFee) + residual
  {
    CommittedSplits(b.positions);
  }

  /** Closing at the mark realizes exactly the unrealized P&L less both fees, and hands back what the position
      contributes to equity less the closing fee. */
  lemma ClosingAtMark(p: Position, fee: real)
    ensures RealizedPnl(p, p.mark, fee) == UnrealizedPnl(p) - fee - p.entryFee
    ensures CloseCredit(p, p.mark, fee) == EquityContribution(p) - fee
  {
    assert (p.mark - p.entry) * p.quantity == p.mark * p.quantity - p.entry * p.quantity;
    assert (p.entry - p.mark) * p.quantity == p.entry * p.quantity - p.mark * p.quantity;
  }

  /** A close at the mark moves equity into cash: total value drops by the fee and by nothing else. */
  lemma CloseKeepsValue(b: Book, instrument: string, fee: real, day: int)
    requires instrument in b.positions
    ensures TotalValue(ClosePosition(b, instrument, b.positions[instrument].mark, fee, day)) == TotalValue(b) - fee
  {
    TotalSplit(b.positions, instrument, EquityContribution);
    ClosingAtMark(b.positions[instrument], fee);
    hide RealizedPnl, CloseCredit, EquityContribution;
  }

  lemma IdentityIgnoresPrices(cfg: Settings, a: Book, b: Book, residual: real)
    requires SameMoney(a, b) && CashIdentity(cfg, a, residual)
    ensures CashIdentity(cfg, b, residual)
  {
    CommittedIgnoresMarks(a.positions, b.positions);
  }

  // Every event treats two books that differ only in prices alike.
  lemma ApplyKeepsSameness(cfg: Settings, a: Book, b: Book, e: Event)
    requires SameMoney(a, b)
    ensures SameMoney(Apply(cfg, a, e), Apply(cfg, b, e))
    ensures PricesWithin(a.prices, b.prices) ==> PricesWithin(Apply(cfg, a, e).prices, Apply(cfg, b, e).prices)
  {
    if IsCloseFill(e) && e.fill.instrument in a.positions {
      SameClose(a.positions[e.fill.instrument], b.positions[e.fill.instrument], e.fill.price, e.fill.fee);
    }
  }

  lemma SameClose(p: Position, q: Position, price: real, fee: real)
    requires SamePosition(p, q)
    ensures RealizedPnl(p, price, fee) == RealizedPnl(q, price, fee)
    ensures CloseCredit(p, price, fee) == CloseCredit(q, price, fee)
  {
  }
}
