/** Cash over whole histories: when it stays nonnegative, exactly. */
module Solvency {
  import opened Events
  import opened Totals
  import opened Ledger
  import opened Conservation
  import opened Risk
  import opened Execution
  import opened Orders
  import opened Safety
  import opened Account
  import opened Recovery
  import opened Startup
  import opened Clock
  import opened Pruning
  import opened History
  import opened Theorems

  // ---------- a restart closes several positions ----------

  // The first of the positions to go pays its credit; the others pay theirs.
  lemma FirstCredit(cfg: Settings, b: Book, d: Book, e: Book, i: string)
    requires i in b.positions && i in b.prices && d.positions == b.positions - {i}
    requires d.prices == b.prices == e.prices && e.positions.Keys <= d.positions.Keys
    ensures Credits(cfg, b, e) == Credits(cfg, b, d) + Credits(cfg, d, e)
  {
    hide CreditAt, Total;
    var credit, rest := CreditAt(cfg, b.positions[i], b.prices[i]), Gone(cfg, d, e);
    OneGone(cfg, b, d, i);
    assert Gone(cfg, b, e) == rest[i := credit];
    TotalPut(rest, i, credit, Itself);
    TotalAbsent(rest, i);
  }

  lemma NoCredit(cfg: Settings, b: Book, d: Book, e: Book)
    requires d.positions == b.positions
    ensures Credits(cfg, b, e) == Credits(cfg, b, d) + Credits(cfg, d, e)
  {
    NoneGone(cfg, b, d);
    assert Gone(cfg, b, e) == Gone(cfg, d, e);
  }

  lemma FirstSettles(cfg: Settings, c: Core, i: string, now: int, e: Book)
    requires i in c.book.positions
    requires e.prices == c.book.prices && e.positions.Keys <= CloseOrDefer(cfg, c, i, now).book.positions.Keys
    requires Settled(cfg, CloseOrDefer(cfg, c, i, now).book, e)
    ensures Settled(cfg, c.book, e)
  {
    hide Closed, Credits;
    var d := CloseOrDefer(cfg, c, i, now);
    CloseSettles(cfg, c, i, now);
    if CanClose(c, i) {
      ClosedEffect(cfg, c, i, now);
      FirstCredit(cfg, c.book, d.book, e, i);
    } else {
      NoCredit(cfg, c.book, d.book, e);
    }
  }

  lemma CloseShrinks(cfg: Settings, c: Core, i: string, now: int)
    ensures CloseOrDefer(cfg, c, i, now).book.positions.Keys <= c.book.positions.Keys
    ensures CloseOrDefer(cfg, c, i, now).book.prices == c.book.prices
  {
    hide Closed;
    if CanClose(c, i) { ClosedEffect(cfg, c, i, now); }
  }

  lemma {:induction false} ReconcilePays(cfg: Settings, c: Core, instruments: seq<string>, now: int)
    ensures var d := ReconcileOrphans(cfg, c, instruments, now);
      && d.book.positions.Keys <= c.book.positions.Keys && d.book.prices == c.book.prices
      && Settled(cfg, c.book, d.book) && (Sizable(c.book) ==> Sizable(d.book))
    decreases |instruments|
  {
    hide Credits, Sizable, CloseOrDefer;
    if instruments == [] {
      NoneGone(cfg, c.book, c.book);
    } else {
      var i, rest := instruments[0], instruments[1..];
      var d := if i in c.book.positions then CloseOrDefer(cfg, c, i, now) else c;
      ReconcilePays(cfg, d, rest, now);
      if i in c.book.positions {
        CloseShrinks(cfg, c, i, now);
        CloseSettles(cfg, c, i, now);
        FirstSettles(cfg, c, i, now, ReconcileOrphans(cfg, d, rest, now).book);
      }
    }
  }

  lemma RecoveredSizable(live: Book, rebuilt: Book)
    requires Sizable(live) && SameMoney(live, rebuilt) && PricesWithin(rebuilt.prices, live.prices)
    ensures Sizable(rebuilt)
  {
  }

  lemma RestartDecides(cfg: Settings, c: Core, m: Move)
    requires Good(cfg, c) && CashInv(c.book) && m.Reboot? && Legal(c, m)
    ensures CashDecided(cfg, c.book, Advance(cfg, c, m).book)
  {
    var booted := BootRecovers(cfg, c, m);
    hide Good, Legal, Credits, Sizable;
    RecoveredSizable(c.book, booted.book);
    ReconcilePays(cfg, booted, Orphans(booted.book, m.held, m.theses, m.now), m.now);
    SettledRebased(cfg, c.book, booted.book, Advance(cfg, c, m).book);
    SettledDecides(cfg, c.book, Advance(cfg, c, m).book);
  }

  // ---------- what a move closes, seen before it ----------

  /** The market price that closes a position of this instrument: the tick's, or the last one known. */
  function PriceOf(c: Core, m: Move, i: string): real {
    if m.Act? && m.step.DoTick? && m.step.price.Some? then m.step.price.value
    else if i in c.book.prices then c.book.prices[i]
    else 0.0
  }

  /** The move will take the held position out of the book. A tick closes what waits for it or breaches its stop, the
      operator and a dead thesis close what has a price, and so does a restart, with what the store still knows. */
  ghost predicate Leaves(c: Core, m: Move, i: string)
    requires i in c.book.positions
  {
    var p := c.book.positions[i];
    match m
    case Act(DoTick(instrument, price, _)) =>
      instrument == i && price.Some?
      && (i in c.closePending || (p.stop.Some? && !OnSafeSide(p.side, price.value, p.stop.value)))
    case Act(DoClose(instrument, _)) => instrument == i && i in c.book.prices
    case Act(DoInvalidate(instrument, _)) => instrument == i && i != "" && i in c.book.prices
    case Reboot(_, _, theses, now) => !ThesisLive(theses, p.decision, now) && EverPriced(c.log, i)
    case _ => false
  }

  /** What each position that the move will close pays out. */
  ghost function Departing(cfg: Settings, c: Core, m: Move): map<string, real> {
    map i | i in c.book.positions && Leaves(c, m, i) :: CreditAt(cfg, c.book.positions[i], PriceOf(c, m, i))
  }

  /** Cash covers whatever the shorts that the move will close cost beyond what they and the longs return. */
  ghost predicate CanPay(cfg: Settings, c: Core, m: Move) {
    0.0 <= c.book.cash + Total(Departing(cfg, c, m), Itself)
  }

  /** The prediction holds: exactly the leavers are gone, each at the price foreseen. */
  ghost predicate Foreseen(c: Core, m: Move, d: Book) {
    forall i :: i in c.book.positions ==>
      (i !in d.positions <==> Leaves(c, m, i)) && (Leaves(c, m, i) ==> i in d.prices && d.prices[i] == PriceOf(c, m, i))
  }

  lemma ForeseenCredits(cfg: Settings, c: Core, m: Move, d: Book)
    requires Foreseen(c, m, d)
    ensures Departing(cfg, c, m) == Gone(cfg, c.book, d)
  {
    hide CreditAt, Leaves, PriceOf;
  }

  // A tick touches no position but its own.
  lemma TickSparesOthers(cfg: Settings, c: Core, instrument: string, price: real, now: int)
    ensures forall i :: i in c.book.positions && i != instrument ==>
              i in Tick(cfg, c, instrument, Some(price), now).book.positions
  {
    hide Closed, OnSafeSide, Live, Stale;
    var marked := Marked(c, instrument, Some(price), now);
    var breach := Emit(marked, [LimitBreached(instrument, now)]);
    var watched := MonitorStop(cfg, marked, instrument, Some(price), now);
    if CanClose(breach, instrument) { ClosedEffect(cfg, breach, instrument, now); }
    if CanClose(watched, instrument) { ClosedEffect(cfg, watched, instrument, now); }
  }

  lemma TickForeseen(cfg: Settings, c: Core, instrument: string, price: real, now: int, carried: set<string>)
    requires TradeInv(c, carried) && StopInv(c.book) && instrument != "" && 0.0 < price
    ensures var s := DoTick(instrument, Some(price), now); Foreseen(c, Act(s), Next(cfg, c, s).book)
  {
    StopsSafe(c.book);
    hide TradeInv, StopInv, OnSafeSide, Tick;
    TickSparesOthers(cfg, c, instrument, price, now);
    if instrument in c.book.positions {
      TickDecidesIn(cfg, c, instrument, price, now, carried);
    }
  }

  lemma CloseTakesOut(cfg: Settings, c: Core, instrument: string, now: int, carried: set<string>)
    requires TradeInv(c, carried) && StopInv(c.book)
    ensures forall i :: i in c.book.positions ==>
              (i !in TryClose(cfg, c, instrument, now).book.positions <==> i == instrument && i in c.book.prices)
    ensures forall i :: i in c.book.positions ==>
              (i !in CloseOrDefer(cfg, c, instrument, now).book.positions <==> i == instrument && i in c.book.prices)
    ensures TryClose(cfg, c, instrument, now).book.prices == c.book.prices
    ensures CloseOrDefer(cfg, c, instrument, now).book.prices == c.book.prices
  {
    CloseSucceeds(c, carried, instrument);
    StopsSafe(c.book);
    hide TradeInv, StopInv, Closed;
    if CanClose(c, instrument) { ClosedEffect(cfg, c, instrument, now); }
  }

  lemma InvalidationForeseen(cfg: Settings, c: Core, s: Step, carried: set<string>)
    requires TradeInv(c, carried) && StopInv(c.book) && s.DoInvalidate?
    ensures Foreseen(c, Act(s), Next(cfg, c, s).book)
  {
    hide TradeInv, StopInv, CloseOrDefer;
    var d := Emit(c, [ThesisInvalidated(s.instrument, s.now)]);
    QuietKeeps(c, d, [ThesisInvalidated(s.instrument, s.now)], carried);
    CloseTakesOut(cfg, d, s.instrument, s.now, carried);
  }

  lemma RestartForeseen(cfg: Settings, c: Core, m: Move)
    requires Good(cfg, c) && m.Reboot? && Legal(c, m)
    ensures Foreseen(c, m, Advance(cfg, c, m).book)
  {
    hide Good, Legal, Restart, ThesisLive, EverPriced;
    NoOrphans(cfg, c, m);
    var booted := BootRecovers(cfg, c, m);
    ReconcilePays(cfg, booted, Orphans(booted.book, m.held, m.theses, m.now), m.now);
  }

  lemma OpeningForeseen(cfg: Settings, c: Core, s: Step)
    requires CashInv(c.book) && CashSettings(cfg) && Checked(s) && (s.DoPropose? || s.DoExecute?)
    ensures Foreseen(c, Act(s), Next(cfg, c, s).book)
  {
    hide Next, CashInv, CashSettings;
    CheckedOpenKeepsCash(cfg, c, s);
  }

  lemma StepForeseen(cfg: Settings, c: Core, s: Step, carried: set<string>)
    requires TradeInv(c, carried) && StopInv(c.book) && CashInv(c.book) && CashSettings(cfg)
    requires Checked(s) && Clocked(s)
    ensures Foreseen(c, Act(s), Next(cfg, c, s).book)
  {
    hide TradeInv, StopInv, CashInv, CashSettings, OnSafeSide, Tick, TryClose, Propose, Execute, Invalidate;
    match s {
      case DoTick(instrument, price, now) => TickForeseen(cfg, c, instrument, price.value, now, carried);
      case DoPropose(_, _, _, _) => OpeningForeseen(cfg, c, s);
      case DoExecute(_, _) => OpeningForeseen(cfg, c, s);
      case DoClose(instrument, now) => CloseTakesOut(cfg, c, instrument, now, carried);
      case DoInvalidate(_, _) => InvalidationForeseen(cfg, c, s, carried);
      case _ =>
    }
  }

  /** Before any move it is known which positions it will close, and at what price. */
  lemma MoveForeseen(cfg: Settings, c: Core, m: Move)
    requires Good(cfg, c) && Legal(c, m) && CashInv(c.book) && CashSettings(cfg)
    ensures Foreseen(c, m, Advance(cfg, c, m).book)
  {
    hide Next, Restart, Foreseen, CashInv, CashSettings;
    match m {
      case Act(s) => StepForeseen(cfg, c, s, OpenedIds(c.log));
      case Reboot(_, _, _, _) => RestartForeseen(cfg, c, m);
      case PruneTicks(before) => PruneForeseen(c, before);
    }
  }

  lemma PruneForeseen(c: Core, before: int)
    ensures Foreseen(c, PruneTicks(before), Prune(c, before).book)
  {
  }

  // ---------- histories ----------

  /** After a move from a solvent book, cash is what it was and the credits of what has left, unless an open took from it. */
  lemma MoveDecides(cfg: Settings, c: Core, m: Move)
    requires Good(cfg, c) && Legal(c, m) && CashInv(c.book) && CashSettings(cfg)
    ensures CashDecided(cfg, c.book, Advance(cfg, c, m).book)
  {
    hide Next, Restart, Credits, Sizable, Good;
    match m {
      case Act(s) => NextCashIff(cfg, c, s);
      case Reboot(_, _, _, _) => RestartDecides(cfg, c, m);
      case PruneTicks(_) => NoneGone(cfg, c.book, c.book);
    }
  }

  /** One move of a solvent book leaves it solvent if and only if cash can pay for what the move will close. */
  lemma MoveCashIff(cfg: Settings, c: Core, m: Move)
    requires Good(cfg, c) && Legal(c, m) && CashInv(c.book) && CashSettings(cfg)
    ensures CashInv(Advance(cfg, c, m).book) <==> CanPay(cfg, c, m)
    ensures 0.0 <= Advance(cfg, c, m).book.cash <==> CanPay(cfg, c, m)
  {
    MoveForeseen(cfg, c, m);
    MoveDecides(cfg, c, m);
    ForeseenCredits(cfg, c, m, Advance(cfg, c, m).book);
    hide Good, Legal, Advance, Departing, Gone, Sizable;
  }

  ghost predicate AlwaysCanPay(cfg: Settings, moves: seq<Move>) {
    moves == [] || (AlwaysCanPay(cfg, moves[..|moves| - 1])
                    && CanPay(cfg, After(cfg, moves[..|moves| - 1]), moves[|moves| - 1]))
  }

  /** Cash is not negative now and was not after any earlier move. */
  ghost predicate NeverOverdrawn(cfg: Settings, moves: seq<Move>) {
    0.0 <= After(cfg, moves).book.cash && (moves == [] || NeverOverdrawn(cfg, moves[..|moves| - 1]))
  }

  /** Cash never goes negative if and only if before every move it can pay for the shorts the move will close; no open
      ever overdraws it. */
  lemma {:induction false} CashNeverNegativeIff(cfg: Settings, moves: seq<Move>)
    requires LegalHistory(cfg, moves) && CashSettings(cfg) && 0.0 <= cfg.initialCash
    ensures NeverOverdrawn(cfg, moves) <==> AlwaysCanPay(cfg, moves)
    ensures NeverOverdrawn(cfg, moves) ==> CashInv(After(cfg, moves).book)
  {
    if moves != [] {
      var before, m := moves[..|moves| - 1], moves[|moves| - 1];
      CashNeverNegativeIff(cfg, before);
      HistoryIsGood(cfg, before);
      hide Good, Legal, CashSettings, Advance, CanPay;
      if NeverOverdrawn(cfg, before) {
        MoveCashIff(cfg, After(cfg, before), m);
      }
    }
  }

  /** The shorts that the move will close cost, slippage and fee included, at most twice their entry. */
  ghost predicate Covered(cfg: Settings, c: Core, m: Move) {
    forall i :: i in c.book.positions && c.book.positions[i].side == Short && Leaves(c, m, i) ==>
      ShortCloseCost(cfg, PriceOf(c, m, i)) <= 2.0 * c.book.positions[i].entry
  }

  ghost predicate CoveredFrom(cfg: Settings, c: Core, moves: seq<Move>) {
    moves == [] || (CoveredFrom(cfg, c, moves[..|moves| - 1])
                    && Covered(cfg, Continue(cfg, c, moves[..|moves| - 1]), moves[|moves| - 1]))
  }

  lemma LeaversArePriced(c: Core, m: Move, d: Book)
    requires Foreseen(c, m, d) && PositivePrices(d)
    ensures forall i :: i in c.book.positions && Leaves(c, m, i) ==> 0.0 < PriceOf(c, m, i)
  {
    hide Leaves, PriceOf;
  }

  lemma CoveredCanPay(cfg: Settings, c: Core, m: Move)
    requires Good(cfg, c) && Legal(c, m) && CashInv(c.book) && CashSettings(cfg) && Covered(cfg, c, m)
    ensures CanPay(cfg, c, m)
  {
    MoveForeseen(cfg, c, m);
    MoveDecides(cfg, c, m);
    hide Good, Legal, Advance, CreditAt, ShortCloseCost, Leaves, PriceOf;
    LeaversArePriced(c, m, Advance(cfg, c, m).book);
    forall i | i in c.book.positions && Leaves(c, m, i)
      ensures 0.0 <= CreditAt(cfg, c.book.positions[i], PriceOf(c, m, i))
    {
      CreditNonNegative(cfg, c.book.positions[i], PriceOf(c, m, i));
    }
    TotalNonNegative(Departing(cfg, c, m));
  }

  /** In particular it never goes negative, whatever shorts and longs do, while shorts that close are covered. */
  lemma {:induction false} CashNeverNegative(cfg: Settings, moves: seq<Move>)
    requires LegalHistory(cfg, moves) && CashSettings(cfg) && 0.0 <= cfg.initialCash
    requires CoveredFrom(cfg, Flat(cfg), moves)
    ensures CashInv(After(cfg, moves).book) && 0.0 <= After(cfg, moves).book.cash
  {
    if moves != [] {
      var before, m := moves[..|moves| - 1], moves[|moves| - 1];
      CashNeverNegative(cfg, before);
      HistoryIsGood(cfg, before);
      hide Good, Legal, CashSettings, Advance, CanPay, Covered;
      CoveredCanPay(cfg, After(cfg, before), m);
      MoveCashIff(cfg, After(cfg, before), m);
    }
  }
}
