/** portfolio/ledger.py: the ledger as the process keeps it, updated in place. */
module PaperBook {
  import opened Events
  import opened Totals
  import opened Ledger
  import opened Recovery

  /** Handling these events one after the other, from a given book. */
  function ReplayFrom(cfg: Settings, b: Book, log: seq<Event>): Book {
    if log == [] then b else Apply(cfg, ReplayFrom(cfg, b, log[..|log| - 1]), log[|log| - 1])
  }

  lemma {:induction false} ReplayFromEmpty(cfg: Settings, log: seq<Event>)
    ensures ReplayFrom(cfg, EmptyBook(cfg), log) == Replay(cfg, log)
  {
    if log != [] { ReplayFromEmpty(cfg, log[..|log| - 1]); }
  }

  class Portfolio {
    const cfg: Settings
    var cash: real
    var positions: map<string, Position>
    var prices: map<string, real>
    var dailyPnl: real
    var dailyDate: Option<int>
    var realized: seq<real>

    ghost function Snapshot(): Book
      reads this
    {
      Book(cash, positions, prices, dailyPnl, dailyDate, realized)
    }

    constructor (cfg: Settings)
      ensures this.cfg == cfg && Snapshot() == EmptyBook(cfg)
    {
      this.cfg := cfg;
      cash := cfg.initialCash;
      positions := map[];
      prices := map[];
      dailyPnl := 0.0;
      dailyDate := None;
      realized := [];
    }

    /** Account equity: cash plus what each position would give back. */
    method TotalValue() returns (value: real)
      ensures value == Ledger.TotalValue(Snapshot())
    {
      value := cash;
      var rest := positions;
      while rest != map[]
        invariant value + Total(rest, EquityContribution) == Ledger.TotalValue(Snapshot())
        decreases |rest|
      {
        var instrument :| instrument in rest;
        TotalSplit(rest, instrument, EquityContribution);
        value := value + EquityContribution(rest[instrument]);
        rest := rest - {instrument};
      }
    }

    method DailyRealizedPnl(day: int) returns (pnl: real)
      ensures pnl == Ledger.DailyRealizedPnl(Snapshot(), day)
    {
      pnl := if dailyDate.Some? && day <= dailyDate.value then dailyPnl else 0.0;
    }

    method RolloverIfNewDay(day: int)
      modifies this
      ensures Snapshot() == Rollover(old(Snapshot()), day)
    {
      if dailyDate.None? {
        dailyDate := Some(day);
      } else if day > dailyDate.value {
        dailyDate := Some(day);
        dailyPnl := 0.0;
      }
    }

    method OpenPosition(instrument: string, p: Position, cost: real, time: int)
      modifies this
      ensures Snapshot() == Ledger.OpenPosition(old(Snapshot()), instrument, p, cost, cfg.tradingDay(time))
    {
      cash := cash - (cost + p.entryFee);
      positions := positions[instrument := p];
      RolloverIfNewDay(cfg.tradingDay(time));
    }

    /** Closing what is not held changes nothing and realizes nothing. */
    method ClosePosition(instrument: string, fillPrice: real, fee: real, time: int) returns (pnl: real)
      modifies this
      ensures Snapshot() == Ledger.ClosePosition(old(Snapshot()), instrument, fillPrice, fee, cfg.tradingDay(time))
      ensures pnl == if instrument in old(positions) then RealizedPnl(old(positions)[instrument], fillPrice, fee) else 0.0
    {
      if instrument !in positions {
        return 0.0;
      }
      var p := positions[instrument];
      positions := positions - {instrument};
      var proceeds, basis := fillPrice * p.quantity, p.entry * p.quantity;
      var fees := fee + p.entryFee;
      if p.side == Long {
        pnl := proceeds - basis - fees;
        cash := cash + (proceeds - fee);
      } else {
        pnl := basis - proceeds - fees;
        cash := cash + (basis + (basis - proceeds) - fee);
      }
      assert pnl == RealizedPnl(p, fillPrice, fee) && cash == old(cash) + CloseCredit(p, fillPrice, fee);
      hide RealizedPnl, CloseCredit;
      RolloverIfNewDay(cfg.tradingDay(time));
      dailyPnl := dailyPnl + pnl;
      realized := realized + [pnl];
    }

    method HandleTick(instrument: string, price: Option<real>)
      modifies this
      ensures Snapshot() == Ledger.HandleTick(old(Snapshot()), instrument, price)
    {
      if instrument != "" && price.Some? {
        SetPrice(instrument, price.value);
      }
    }

    method SetPrice(instrument: string, price: real)
      modifies this
      ensures Snapshot() == Mark(old(Snapshot()), instrument, price)
    {
      prices := prices[instrument := price];
      if instrument in positions {
        positions := positions[instrument := positions[instrument].(mark := price)];
      }
    }

    /** `ok` is false where parsing the payload raises; the book is then untouched. */
    method HandleFill(fill: FillPayload, time: int) returns (ok: bool)
      modifies this
      ensures Snapshot() == Ledger.HandleFill(old(Snapshot()), fill, cfg.tradingDay(time))
      ensures !ok ==> Snapshot() == old(Snapshot())
      ensures ok <==> fill.FillPayload? && (fill.action == "open" ==> ReadSide(fill.side).Some?)
    {
      ok := fill.FillPayload?;
      if ok {
        if fill.action == "open" {
          match ReadSide(fill.side) {
            case None => ok := false;
            case Some(side) =>
              OpenPosition(fill.instrument,
                Position(side, fill.price, fill.quantity, fill.price, fill.stop, fill.fee, fill.decision), fill.cost, time);
          }
        } else if fill.action == "close" {
          var _ := ClosePosition(fill.instrument, fill.price, fill.fee, time);
        }
      }
    }

    /** Replay persisted fills; one that does not parse is skipped, not fatal. */
    method Rehydrate(fills: seq<Event>) returns (skipped: nat)
      requires forall e :: e in fills ==> e.Filled?
      modifies this
      ensures Snapshot() == ReplayFrom(cfg, old(Snapshot()), fills)
    {
      skipped := 0;
      for i := 0 to |fills|
        invariant Snapshot() == ReplayFrom(cfg, old(Snapshot()), fills[..i])
      {
        assert fills[..i + 1][..i] == fills[..i] && fills[i] in fills;
        var ok := HandleFill(fills[i].fill, fills[i].time);
        if !ok {
          skipped := skipped + 1;
        }
      }
      assert fills[..|fills|] == fills;
    }

    /** Set prices and marks from the last stored tick of each instrument. */
    method SeedPrices(ticks: map<string, Event>)
      modifies this
      ensures Snapshot() == Recovery.SeedPrices(old(Snapshot()), ticks)
    {
      hide SeedWith, SeedOf, Mark;
      var rest := ticks;
      ghost var before := Snapshot();
      ghost var seed: map<string, real> := map[];
      SeedWithNone(before);
      SeedOfNone(ticks);
      while rest != map[]
        invariant rest.Keys <= ticks.Keys && forall i :: i in rest ==> rest[i] == ticks[i]
        invariant Snapshot() == SeedWith(before, seed) && seed == SeedOf(ticks - rest.Keys)
        decreases |rest|
      {
        var instrument :| instrument in rest;
        var e := rest[instrument];
        SeedOne(ticks, rest.Keys, instrument);
        if e.Ticked? && e.price.Some? {
          SeedWithOne(before, seed, instrument, e.price.value);
          seed := seed[instrument := e.price.value];
          SetPrice(instrument, e.price.value);
        }
        rest := rest - {instrument};
      }
      assert ticks - {} == ticks;
    }
  }

  lemma SeedWithNone(b: Book)
    ensures SeedWith(b, map[]) == b
  {
    assert b.prices + map[] == b.prices;
    assert (map i | i in b.positions :: b.positions[i]) == b.positions;
  }

  lemma SeedOfNone(ticks: map<string, Event>)
    ensures SeedOf(ticks - ticks.Keys) == map[]
  {
  }

  lemma SeedWithOne(b: Book, seed: map<string, real>, instrument: string, price: real)
    ensures SeedWith(b, seed[instrument := price]) == Mark(SeedWith(b, seed), instrument, price)
  {
    assert b.prices + seed[instrument := price] == (b.prices + seed)[instrument := price];
    var marked := Mark(SeedWith(b, seed), instrument, price).positions;
    assert SeedWith(b, seed[instrument := price]).positions.Keys == marked.Keys;
    assert SeedWith(b, seed[instrument := price]).positions == marked;
  }

  /** One more instrument is seeded. */
  lemma SeedOne(ticks: map<string, Event>, rest: set<string>, instrument: string)
    requires instrument in rest && rest <= ticks.Keys
    ensures var e := ticks[instrument];
      SeedOf(ticks - (rest - {instrument}))
      == if e.Ticked? && e.price.Some? then SeedOf(ticks - rest)[instrument := e.price.value] else SeedOf(ticks - rest)
  {
    assert (ticks - (rest - {instrument})).Keys == (ticks - rest).Keys + {instrument};
  }
}
