/** Concrete histories under the shipped settings: the assumptions are met, and where the conditions fail, they fail. */
module Witnesses {
  import opened Events
  import opened Rounding
  import opened Pricing
  import opened Ledger
  import opened Sizing
  import opened Risk
  import opened Execution
  import opened Orders
  import opened Following
  import opened Safety
  import opened Account
  import opened Fills
  import opened Lifecycle
  import opened Recovery
  import opened Startup
  import opened Clock
  import opened Pruning
  import opened History
  import opened Theorems

  // ---------- the settings as shipped ----------

  function DefaultSettings(tradingDay: int -> int): Settings {
    Settings(10000.0, 0.001, 0.001, 3600, 0.05, 0.02, 0.03, 0.01, 10.0, 5, 0.05, tradingDay)
  }

  /** Every assumption the results make about settings holds of the defaults. */
  lemma DefaultsQualify(tradingDay: int -> int)
    ensures SafeSettings(DefaultSettings(tradingDay)) && CashSettings(DefaultSettings(tradingDay))
  {
  }

  // ---------- a first price, a switch to PAPER, a position ----------

  lemma LegalOneMore(cfg: Settings, moves: seq<Move>, m: Move)
    requires LegalHistory(cfg, moves) && Legal(After(cfg, moves), m)
    ensures LegalHistory(cfg, moves + [m]) && After(cfg, moves + [m]) == Advance(cfg, After(cfg, moves), m)
  {
    hide Legal, Advance;
    assert (moves + [m])[..|moves|] == moves;
  }

  lemma FiveHundred(tradingDay: int -> int)
    ensures TargetSize(DefaultSettings(tradingDay), 10000.0) == 500.0
    ensures AffordableSize(500.0, 10000.0, 0.01) == 500.0
  {
    QuantizeOnGrid(50000, 0.01);
    assert 10000.0 * 0.02 / 0.03 > 500.0;
  }

  /** The state after a first price and a switch to PAPER. */
  function Ready(cfg: Settings): Core {
    Core(Paper, EmptyBook(cfg).(prices := map["A" := 100.0]), [], {}, {}, [Ticked("A", Some(100.0), 0)] + [ModeChanged(Paper, 0)])
  }

  lemma FirstClearance(tradingDay: int -> int, side: Side)
    ensures var cfg := DefaultSettings(tradingDay);
      Evaluate(cfg, Paper, Ready(cfg).book, "A", side, 0) == Cleared(500.0, StopFor(side, 100.0, 0.03))
  {
    var cfg := DefaultSettings(tradingDay);
    FiveHundred(tradingDay);
    hide TargetSize, AffordableSize, StopFor;
    assert TotalValue(Ready(cfg).book) == 10000.0;
  }

  lemma FirstTick(cfg: Settings)
    ensures Next(cfg, Flat(cfg), DoTick("A", Some(100.0), 0))
            == Core(Observe, EmptyBook(cfg).(prices := map["A" := 100.0]), [], {}, {}, [Ticked("A", Some(100.0), 0)])
  {
    assert [] + [Ticked("A", Some(100.0), 0)] == [Ticked("A", Some(100.0), 0)];
  }

  lemma SwitchToPaper(cfg: Settings, c: Core)
    requires c.mode == Observe && c.pending == []
    ensures Next(cfg, c, DoSetMode(Paper, 0)) == Emit(c.(mode := Paper), [ModeChanged(Paper, 0)])
  {
    assert c.log + [ModeChanged(Paper, 0)] + [] == c.log + [ModeChanged(Paper, 0)];
  }

  const PREPARED := [Act(DoTick("A", Some(100.0), 0)), Act(DoSetMode(Paper, 0))]

  lemma ReadyIsReached(tradingDay: int -> int)
    ensures var cfg := DefaultSettings(tradingDay);
      LegalHistory(cfg, PREPARED) && After(cfg, PREPARED) == Ready(cfg)
  {
    var cfg := DefaultSettings(tradingDay);
    DefaultsQualify(tradingDay);
    FirstTick(cfg);
    SwitchToPaper(cfg, Next(cfg, Flat(cfg), DoTick("A", Some(100.0), 0)));
    hide Next, SafeSettings, DefaultSettings;
    assert LegalHistory(cfg, []) && After(cfg, []) == Flat(cfg);
    LegalOneMore(cfg, [], PREPARED[0]);
    LegalOneMore(cfg, [] + [PREPARED[0]], PREPARED[1]);
    assert [] + [PREPARED[0]] + [PREPARED[1]] == PREPARED;
  }

  // What the fill of an approved ticket leaves in an empty book.
  lemma OpensInEmptyBook(cfg: Settings, c: Core, t: Ticket, now: int)
    requires CanOpen(c, t) && OpenPrice(cfg, t.side, c.book.prices[t.instrument]) != 0.0 && c.book.positions == map[]
    ensures var d, f := TryOpen(cfg, c, t, now).book, OpenFill(cfg, t, OpenPrice(cfg, t.side, c.book.prices[t.instrument]));
      && d.positions == map[t.instrument := PositionOf(t.side, f)]
      && d.prices == c.book.prices && d.cash == c.book.cash - (f.cost + f.fee)
  {
    var f := OpenFill(cfg, t, OpenPrice(cfg, t.side, c.book.prices[t.instrument]));
    OpenBooks(cfg, c, t, now);
    hide TryOpen, OpenPrice, OpenQuantity, OpenFill;
    assert c.book.positions[t.instrument := PositionOf(t.side, f)] == map[t.instrument := PositionOf(t.side, f)];
  }

  function FirstTicket(side: Side): Ticket {
    Ticket("d", "A", side, 500.0, Some(StopFor(side, 100.0, 0.03)))
  }

  function Entered(cfg: Settings, side: Side): Position
    requires OpenPrice(cfg, side, 100.0) != 0.0
  {
    PositionOf(side, OpenFill(cfg, FirstTicket(side), OpenPrice(cfg, side, 100.0)))
  }

  lemma FirstPosition(tradingDay: int -> int, side: Side)
    ensures var cfg := DefaultSettings(tradingDay);
      var d := Next(cfg, Ready(cfg), DoPropose("d", "A", side, 0)).book;
      && OpenPrice(cfg, side, 100.0) != 0.0
      && d.positions == map["A" := Entered(cfg, side)] && d.prices == map["A" := 100.0] && d.cash == 9499.5
  {
    var cfg := DefaultSettings(tradingDay);
    var c, t := Ready(cfg), FirstTicket(side);
    FirstClearance(tradingDay, side);
    OpenPriceNonzero(cfg, side, 100.0);
    hide Evaluate, OpenPrice, OpenQuantity, StopFor, TryOpen;
    var d := Emit(c, [Approved(t, 0)]);
    assert Next(cfg, c, DoPropose("d", "A", side, 0)) == TryOpen(cfg, d, t, 0);
    OpensInEmptyBook(cfg, d, t, 0);
  }

  function Opening(side: Side): seq<Move> {
    PREPARED + [Act(DoPropose("d", "A", side, 0))]
  }

  lemma FirstProposalLegal(cfg: Settings, side: Side)
    ensures Legal(Ready(cfg), Act(DoPropose("d", "A", side, 0)))
  {
    CountZero(Ready(cfg).log, ApprovalsOf("d"));
  }

  lemma StepEndsAtNow(cfg: Settings, c: Core, s: Step)
    requires Good(cfg, c) && Legal(c, Act(s))
    ensures NotBefore(Next(cfg, c, s).log, s.now)
  {
    hide Next, TradeInv, DeferredInv, StopInv, Conserved, LifeInv, BookFollowsLog;
    NextStamps(cfg, c, s);
    StampsKeepTimely(c, Next(cfg, c, s), s.now);
  }

  lemma PositionIsReached(tradingDay: int -> int, side: Side)
    ensures var cfg := DefaultSettings(tradingDay);
      && LegalHistory(cfg, Opening(side))
      && After(cfg, Opening(side)) == Next(cfg, Ready(cfg), DoPropose("d", "A", side, 0))
      && NotBefore(After(cfg, Opening(side)).log, 0)
  {
    var cfg, open := DefaultSettings(tradingDay), DoPropose("d", "A", side, 0);
    ReadyIsReached(tradingDay);
    HistoryIsGood(cfg, PREPARED);
    FirstProposalLegal(cfg, side);
    hide Next, DefaultSettings, Good, Legal, Ready;
    StepEndsAtNow(cfg, Ready(cfg), open);
    LegalOneMore(cfg, PREPARED, Act(open));
  }

  /** The assumptions are met by real trading: under the shipped settings a legal history opens a position. */
  lemma TradingHappens(tradingDay: int -> int, side: Side)
    ensures exists moves :: LegalHistory(DefaultSettings(tradingDay), moves)
              && "A" in After(DefaultSettings(tradingDay), moves).book.positions
              && After(DefaultSettings(tradingDay), moves).book.positions["A"].side == side
  {
    PositionIsReached(tradingDay, side);
    FirstPosition(tradingDay, side);
    hide Next, Ready, DefaultSettings;
    assert LegalHistory(DefaultSettings(tradingDay), Opening(side));
  }

  // ---------- cash below zero ----------

  // The short enters below the market with at least five units, and is watched at a stop below 10000.
  lemma ShortEntered(tradingDay: int -> int)
    requires OpenPrice(DefaultSettings(tradingDay), Short, 100.0) != 0.0
    ensures var p := Entered(DefaultSettings(tradingDay), Short);
      && p.side == Short && 0.0 < p.entry < 100.0 && 5.0 <= p.quantity && p.stop.Some? && p.stop.value < 10000.0
  {
    var cfg := DefaultSettings(tradingDay);
    OpenPriceWorse(cfg, Short, 100.0);
    OpenPricePositive(cfg, Short, 100.0);
    FiveUnits(OpenPrice(cfg, Short, 100.0));
    StopBelowTenThousand();
    hide OpenPrice, OpenQuantity, StopFor;
  }

  lemma FiveUnits(price: real)
    requires 0.0 < price < 100.0
    ensures 5.0 <= OpenQuantity(500.0, price)
  {
    if 500.0 / price < 5.0 {
      DivAtMost(500.0, price, 5.0);
      assert false;
    }
    QuantizeAboveGrid(500.0 / price, 500000000, 0.00000001);
  }

  lemma StopBelowTenThousand()
    ensures StopFor(Short, 100.0, 0.03) < 10000.0
  {
    QuantizePriceNear(103.0, PRICE_SIG_FIGS);
    TenToSeven();
    hide QuantizePrice;
    assert StopFor(Short, 100.0, 0.03) == QuantizePrice(103.0);
  }

  lemma BuyBackAtTenThousand(p: Position)
    requires 0.0 < p.entry < 100.0 && 5.0 <= p.quantity
    ensures 9499.5 + BuyBackCredit(p, 10020.01) < -39000.0
  {
    var loss := 10020.01 - 2.0 * p.entry;
    assert 9800.0 < loss;
    assert 5.0 * 9800.0 <= p.quantity * loss by { ScaleBoth(5.0, p.quantity, 9800.0, loss); }
    assert BuyBackCredit(p, 10020.01) == -(p.quantity * loss);
  }

  lemma ScaleBoth(a: real, b: real, k: real, l: real)
    requires 0.0 <= a <= b && 0.0 <= k <= l
    ensures a * k <= b * l
  {
    ScaleLe(a, b, k);
    ScaleLe(k, l, b);
  }

  lemma CostAtTenThousand(tradingDay: int -> int)
    ensures ShortCloseCost(DefaultSettings(tradingDay), 10000.0) == 10020.01
  {
  }

  // A short that is alone in the book is stopped out at this price.
  lemma StoppedOut(cfg: Settings, moves: seq<Move>, price: real, now: int)
    requires LegalHistory(cfg, moves) && 0.0 < price
    requires var b := After(cfg, moves).book;
      b.positions.Keys == {"A"} && b.positions["A"].side == Short
      && (b.positions["A"].stop.Some? ==> b.positions["A"].stop.value <= price)
    ensures var b := After(cfg, moves).book;
      Next(cfg, After(cfg, moves), DoTick("A", Some(price), now)).book.cash
      == b.cash + BuyBackCredit(b.positions["A"], ShortCloseCost(cfg, price))
  {
    hide LegalHistory, After, Tick, CreditAt, Credits, ShortCloseCost, BuyBackCredit;
    var c := After(cfg, moves);
    var d := Next(cfg, c, DoTick("A", Some(price), now));
    assert "A" in c.book.positions;
    TickDecides(cfg, moves, "A", price, now);
    TickCloses(cfg, c, "A", price, now);
    assert d.book.positions.Keys == c.book.positions.Keys - {"A"};
    OneGone(cfg, c.book, d.book, "A");
    ShortCredit(cfg, c.book.positions["A"], price);
  }

  lemma ShortReached(tradingDay: int -> int)
    ensures var cfg, moves := DefaultSettings(tradingDay), Opening(Short);
      var b := After(cfg, moves).book;
      && LegalHistory(cfg, moves) && NotBefore(After(cfg, moves).log, 0) && b.positions.Keys == {"A"} && b.cash == 9499.5
      && var p := b.positions["A"];
        p.side == Short && 0.0 < p.entry < 100.0 && 5.0 <= p.quantity && p.stop.Some? && p.stop.value < 10000.0
  {
    PositionIsReached(tradingDay, Short);
    FirstPosition(tradingDay, Short);
    ShortEntered(tradingDay);
    hide Next, Ready, DefaultSettings, Entered, OpenPrice, LegalHistory, After;
  }

  /** A legal history under the shipped settings whose cash is negative: a short opened at 100 is stopped out by a
      next price of 10000. */
  lemma ShortOverdraws(tradingDay: int -> int)
    ensures exists moves :: LegalHistory(DefaultSettings(tradingDay), moves)
              && After(DefaultSettings(tradingDay), moves).book.cash < -39000.0
  {
    var cfg, jump, moves := DefaultSettings(tradingDay), DoTick("A", Some(10000.0), 1), Opening(Short);
    ShortReached(tradingDay);
    CostAtTenThousand(tradingDay);
    BuyBackAtTenThousand(After(cfg, moves).book.positions["A"]);
    hide LegalHistory, After, Next, DefaultSettings, BuyBackCredit, ShortCloseCost, Opening;
    StoppedOut(cfg, moves, 10000.0, 1);
    LegalOneMore(cfg, moves, Act(jump));
    assert LegalHistory(cfg, moves + [Act(jump)]);
  }

  // A tick settles in cash whatever it closes, and closes nothing else.
  lemma TickCloses(cfg: Settings, c: Core, instrument: string, price: real, now: int)
    requires 0.0 < price && c.book.positions.Keys == {instrument}
    ensures var d := Next(cfg, c, DoTick(instrument, Some(price), now));
      Settled(cfg, c.book, d.book) && d.book.positions.Keys <= c.book.positions.Keys
  {
    hide MonitorStop, RetryDeferred, Credits, Live, Stale;
    var marked := Marked(c, instrument, Some(price), now);
    var watched := MonitorStop(cfg, marked, instrument, Some(price), now);
    TickSettles(cfg, c, instrument, Some(price), now);
    WatchShrinks(cfg, marked, instrument, Some(price), now);
    CloseStillDefers(cfg, watched, instrument, now);
  }

  lemma WatchShrinks(cfg: Settings, c: Core, instrument: string, price: Option<real>, now: int)
    ensures MonitorStop(cfg, c, instrument, price, now).book.positions.Keys <= c.book.positions.Keys
  {
    CloseStillDefers(cfg, Emit(c, [LimitBreached(instrument, now)]), instrument, now);
    hide TryClose;
  }

  // ---------- a close deferred at startup ----------

  const NO_THESES := ThesisHistory(map[], {}, map[])

  /** A position is opened, its only tick pruned, and the process restarted: its thesis is dead and it has no price. */
  function Reopened(): seq<Move> {
    Opening(Long) + [PruneTicks(1)] + [Reboot(None, ["A"], NO_THESES, 1)]
  }

  lemma NothingLeft(c: Core, i: string)
    requires NotBefore(c.log, 0)
    ensures !EverPriced(Prune(c, 1).log, i) && NotBefore(Prune(c, 1).log, 0)
  {
    PrunedElements(c.log, 1);
    hide Pruned;
  }

  lemma PrunedIsReached(tradingDay: int -> int)
    ensures var cfg, moves := DefaultSettings(tradingDay), Opening(Long) + [PruneTicks(1)];
      var c := After(cfg, moves);
      && LegalHistory(cfg, moves) && c.book.positions.Keys == {"A"} && !EverPriced(c.log, "A") && NotBefore(c.log, 0)
  {
    var cfg, moves := DefaultSettings(tradingDay), Opening(Long);
    PositionIsReached(tradingDay, Long);
    FirstPosition(tradingDay, Long);
    NothingLeft(After(cfg, moves), "A");
    hide Next, Ready, DefaultSettings, Entered, OpenPrice, Pruned, NotBefore, EverPriced, LegalHistory, Opening;
    LegalOneMore(cfg, moves, PruneTicks(1));
  }

  lemma DeadWithoutPrice(cfg: Settings, c: Core)
    requires Good(cfg, c) && c.book.positions.Keys == {"A"} && !EverPriced(c.log, "A") && NotBefore(c.log, 0)
    ensures var m := Reboot(None, ["A"], NO_THESES, 1);
      Legal(c, m) && "A" in Advance(cfg, c, m).book.positions && "A" in Advance(cfg, c, m).closePending
  {
    hide Good, Restart;
    assert "A" in c.book.positions;
    NoOrphans(cfg, c, Reboot(None, ["A"], NO_THESES, 1));
  }

  lemma ReopenedIsLegal(tradingDay: int -> int)
    ensures var cfg := DefaultSettings(tradingDay);
      && LegalHistory(cfg, Reopened())
      && "A" in After(cfg, Reopened()).book.positions && "A" in After(cfg, Reopened()).closePending
  {
    var cfg, moves := DefaultSettings(tradingDay), Opening(Long) + [PruneTicks(1)];
    PrunedIsReached(tradingDay);
    HistoryIsGood(cfg, moves);
    hide DefaultSettings, Good, Legal, Advance, Opening;
    DeadWithoutPrice(cfg, After(cfg, moves));
    LegalOneMore(cfg, moves, Reboot(None, ["A"], NO_THESES, 1));
  }

  /** The case the deferral is for: a process booted with a position that has no price and no living thesis defers
      the close, and the first price that comes flattens it. */
  lemma DeferredThenFlattened(tradingDay: int -> int, price: real, now: int)
    requires 0.0 < price
    ensures exists moves :: var cfg := DefaultSettings(tradingDay);
      var c := After(cfg, moves);
      var d := Next(cfg, c, DoTick("A", Some(price), now));
      && LegalHistory(cfg, moves)
      && "A" in c.closePending && "A" in c.book.positions && !Usable(c.book, "A")
      && "A" !in d.closePending && "A" !in d.book.positions
  {
    var cfg, moves := DefaultSettings(tradingDay), Reopened();
    var c := After(cfg, moves);
    ReopenedIsLegal(tradingDay);
    EveryLifeQualifies(cfg, moves);
    assert Run(cfg, c, []) == c;
    FirstPriceFlattens(cfg, c, [], OpenedIds(c.log), "A", price, now);
    hide Next, DefaultSettings, Reopened, LegalHistory;
    assert LegalHistory(cfg, moves);
  }
}
