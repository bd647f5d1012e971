/** The daily accumulator against the plain sum over the day's closes. */
module Daily {
  import opened Events
  import opened Ledger
  import opened Execution
  import opened Safety
  import opened Following
  import opened Openings

  datatype Trade = Trade(day: int, pnl: real)

  predicate Closes(b: Book, e: Event) {
    IsCloseFill(e) && e.fill.instrument in b.positions
  }

  /** Every close of a held position with the trading day of its fill, oldest first. */
  ghost function Trades(cfg: Settings, log: seq<Event>): seq<Trade> {
    if log == [] then []
    else
      var before, e := log[..|log| - 1], log[|log| - 1];
      var b := Replay(cfg, before);
      Trades(cfg, before)
      + if Closes(b, e)
        then [Trade(cfg.tradingDay(e.time), RealizedPnl(b.positions[e.fill.instrument], e.fill.price, e.fill.fee))]
        else []
  }

  function DaySum(trades: seq<Trade>, day: int): real {
    if trades == [] then 0.0
    else
      var t := trades[|trades| - 1];
      DaySum(trades[..|trades| - 1], day) + if t.day == day then t.pnl else 0.0
  }

  function Pnls(trades: seq<Trade>): seq<real> {
    if trades == [] then [] else Pnls(trades[..|trades| - 1]) + [trades[|trades| - 1].pnl]
  }

  /** Fills arrive on nondecreasing trading days, none after `day`. */
  ghost predicate DaysUpTo(cfg: Settings, log: seq<Event>, day: int) {
    && (forall j, k :: 0 <= j < k < |log| && log[j].Filled? && log[k].Filled? ==>
          cfg.tradingDay(log[j].time) <= cfg.tradingDay(log[k].time))
    && (forall k :: 0 <= k < |log| && log[k].Filled? ==> cfg.tradingDay(log[k].time) <= day)
  }

  ghost predicate DailyInv(b: Book, trades: seq<Trade>, day: int) {
    && b.realized == Pnls(trades)
    && (b.dailyDate.None? ==> trades == [] && b.dailyPnl == 0.0)
    && (b.dailyDate.Some? ==>
          && b.dailyDate.value <= day
          && b.dailyPnl == DaySum(trades, b.dailyDate.value)
          && forall k :: 0 <= k < |trades| ==> trades[k].day <= b.dailyDate.value)
  }

  lemma {:induction false} LaterDayEmpty(trades: seq<Trade>, day: int)
    requires forall k :: 0 <= k < |trades| ==> trades[k].day < day
    ensures DaySum(trades, day) == 0.0
  {
    if trades != [] { LaterDayEmpty(trades[..|trades| - 1], day); }
  }

  lemma RolloverKeepsDaily(b: Book, trades: seq<Trade>, from: int, day: int)
    requires DailyInv(b, trades, from) && from <= day
    ensures DailyInv(Rollover(b, day), trades, day) && Rollover(b, day).dailyDate.Some?
  {
    if b.dailyDate.Some? && day > b.dailyDate.value { LaterDayEmpty(trades, day); }
    if b.dailyDate.None? { LaterDayEmpty(trades, day); }
  }

  lemma CloseKeepsDaily(b: Book, trades: seq<Trade>, from: int, instrument: string, price: real, fee: real, day: int)
    requires DailyInv(b, trades, from) && from <= day && instrument in b.positions
    ensures DailyInv(ClosePosition(b, instrument, price, fee, day),
                     trades + [Trade(day, RealizedPnl(b.positions[instrument], price, fee))], day)
  {
    RolloverKeepsDaily(b, trades, from, day);
    var t := Trade(day, RealizedPnl(b.positions[instrument], price, fee));
    assert (trades + [t])[..|trades|] == trades;
    assert Pnls(trades + [t]) == Pnls(trades) + [t.pnl];
    assert DaySum(trades + [t], day) == DaySum(trades, day) + t.pnl;
  }

  lemma LastFillDay(cfg: Settings, log: seq<Event>, day: int) returns (from: int)
    requires log != [] && DaysUpTo(cfg, log, day)
    ensures DaysUpTo(cfg, log[..|log| - 1], from) && from <= day
    ensures log[|log| - 1].Filled? ==> from <= cfg.tradingDay(log[|log| - 1].time) <= day
  {
    from := if log[|log| - 1].Filled? then cfg.tradingDay(log[|log| - 1].time) else day;
  }

  lemma {:induction false} ReplayDaily(cfg: Settings, log: seq<Event>, day: int)
    requires DaysUpTo(cfg, log, day)
    ensures DailyInv(Replay(cfg, log), Trades(cfg, log), day)
  {
    if log != [] {
      var before, e := log[..|log| - 1], log[|log| - 1];
      var from := LastFillDay(cfg, log, day);
      ReplayDaily(cfg, before, from);
      var b := Replay(cfg, before);
      hide RealizedPnl, DaySum, Pnls;
      if Closes(b, e) {
        CloseKeepsDaily(b, Trades(cfg, before), from, e.fill.instrument, e.fill.price, e.fill.fee, cfg.tradingDay(e.time));
      } else {
        assert Trades(cfg, log) == Trades(cfg, before);
        if IsOpenFill(e) {
          RolloverKeepsDaily(b, Trades(cfg, before), from, cfg.tradingDay(e.time));
        }
      }
    }
  }

  /** The accumulator reads as the filtered sum over the closes of that trading day. */
  lemma DailyPnlIsDaySum(cfg: Settings, log: seq<Event>, day: int)
    requires DaysUpTo(cfg, log, day)
    ensures DailyRealizedPnl(Replay(cfg, log), day) == DaySum(Trades(cfg, log), day)
    ensures Replay(cfg, log).realized == Pnls(Trades(cfg, log))
  {
    ReplayDaily(cfg, log, day);
    var b := Replay(cfg, log);
    if b.dailyDate.None? || b.dailyDate.value < day { LaterDayEmpty(Trades(cfg, log), day); }
  }

  /** Every open of a run happens while the day's closes have lost less than the limit. */
  lemma BreakerHolds(cfg: Settings, c: Core, s: Step)
    requires BookFollowsLog(cfg, c) && DaysUpTo(cfg, c.log, cfg.tradingDay(s.now))
    requires Checked(s) && OpenedSince(c, Next(cfg, c, s))
    ensures 0.0 < TotalValue(c.book)
    ensures -DaySum(Trades(cfg, c.log), cfg.tradingDay(s.now)) < cfg.maxDailyLossPct * TotalValue(c.book)
  {
    OpenPassesGates(cfg, c, s);
    DailyPnlIsDaySum(cfg, c.log, cfg.tradingDay(s.now));
  }
}
