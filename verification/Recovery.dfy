/** Startup: the book and its marks rebuilt from the persisted stream. */
module Recovery {
  import opened Events
  import opened Ledger
  import opened Conservation
  import opened Execution
  import opened Following
  import opened Store

  const FILLS: set<Kind> := {OrderFilled}
  const TICKS: set<Kind> := {MarketTick}

  /** The prices that the last stored ticks carry. */
  function SeedOf(ticks: map<string, Event>): map<string, real> {
    map i | i in ticks && ticks[i].Ticked? && ticks[i].price.Some? :: ticks[i].price.value
  }

  /** `seed_prices`: the last stored tick of an instrument sets its price and the mark of its position. */
  function SeedPrices(b: Book, ticks: map<string, Event>): Book {
    SeedWith(b, SeedOf(ticks))
  }

  function SeedWith(b: Book, seed: map<string, real>): Book {
    b.(prices := b.prices + seed,
       positions := map i | i in b.positions ::
         if i in seed then b.positions[i].(mark := seed[i]) else b.positions[i])
  }

  /** The book at startup: every persisted fill replayed, then the last tick of each instrument. */
  function RebuiltBook(cfg: Settings, log: seq<Event>): Book {
    SeedPrices(Replay(cfg, Range(log, FILLS)), LatestOf(log, TICKS))
  }

  predicate EverPriced(log: seq<Event>, instrument: string) {
    exists e :: e in log && IsPricedTick(e, instrument)
  }

  /** The last tick of an instrument carries a price if any of its ticks did; the empty name is never priced last. */
  ghost predicate TicksSettle(log: seq<Event>) {
    var last := LatestOf(log, TICKS);
    forall i :: i in last ==> (last[i].Ticked? && last[i].price.Some? <==> EverPriced(log, i))
  }

  // ---------- prices ----------

  /** What a live process knows of one instrument, given the last tick of that instrument. */
  predicate PriceFollows(prices: map<string, real>, last: map<string, Event>, log: seq<Event>, i: string) {
    && (i in prices <==> EverPriced(log, i))
    && (i in prices ==> i in last)
    && (i in last && IsPricedTick(last[i], i) ==> i in prices && prices[i] == last[i].price.value)
  }

  lemma EverPricedOne(log: seq<Event>, e: Event, i: string)
    ensures EverPriced(log + [e], i) <==> EverPriced(log, i) || IsPricedTick(e, i)
  {
    if x :| x in log && IsPricedTick(x, i) { assert x in log + [e]; }
    assert e in log + [e];
  }

  // One event more, for the live process and for the last write of each instrument.
  lemma PriceFollowsOne(cfg: Settings, b: Book, last: map<string, Event>, log: seq<Event>, e: Event, i: string)
    requires PriceFollows(b.prices, last, log, i)
    ensures PriceFollows(Apply(cfg, b, e).prices, if e.Ticked? then WriteKey(last, e) else last, log + [e], i)
  {
    if !e.Ticked? { FillKeepsPrices(cfg, b, e); }
    EverPricedOne(log, e, i);
    hide HandleFill, EverPriced;
  }

  lemma FillKeepsPrices(cfg: Settings, b: Book, e: Event)
    requires !e.Ticked?
    ensures Apply(cfg, b, e).prices == b.prices
  {
    hide RealizedPnl, CloseCredit;
  }

  lemma {:induction false} PricesFollow(cfg: Settings, log: seq<Event>, i: string)
    ensures PriceFollows(Replay(cfg, log).prices, LastWrite(OfKinds(log, TICKS)), log, i)
  {
    if log != [] {
      var rest, e := log[..|log| - 1], log[|log| - 1];
      assert log == rest + [e];
      PricesFollow(cfg, rest, i);
      OfKindsOne(rest, e, TICKS);
      LastWriteOne(OfKinds(rest, TICKS), e);
      hide PriceFollows, Apply, LastWrite, OfKinds;
      PriceFollowsOne(cfg, Replay(cfg, rest), LastWrite(OfKinds(rest, TICKS)), rest, e, i);
      assert OfKinds(rest, TICKS) + [] == OfKinds(rest, TICKS);
    }
  }

  // ---------- money ----------

  /** The fills alone account for the money. */
  lemma {:induction false} FillsAlone(cfg: Settings, log: seq<Event>)
    ensures SameMoney(Replay(cfg, log), Replay(cfg, OfKinds(log, FILLS)))
    ensures Replay(cfg, OfKinds(log, FILLS)).prices == map[]
  {
    if log != [] {
      var n := |log| - 1;
      FillsAlone(cfg, log[..n]);
      OfKindsOne(log[..n], log[n], FILLS);
      assert log == log[..n] + [log[n]];
      var fills := OfKinds(log[..n], FILLS);
      var before := Replay(cfg, log[..n]);
      if log[n].Filled? {
        ReplayAppend(cfg, fills, log[n]);
        ApplyKeepsSameness(cfg, before, Replay(cfg, fills), log[n]);
      } else {
        assert fills + [] == fills;
      }
    }
  }

  // ---------- both ----------

  lemma SeedMatches(cfg: Settings, log: seq<Event>)
    requires SortedByTime(log)
    ensures SeedOf(LatestOf(log, TICKS)) == Replay(cfg, log).prices <==> TicksSettle(log)
  {
    RangeOfSorted(log, TICKS);
    var last := LatestOf(log, TICKS);
    var prices := Replay(cfg, log).prices;
    LastWriteElements(OfKinds(log, TICKS));
    forall i
      ensures PriceFollows(prices, last, log, i)
    {
      PricesFollow(cfg, log, i);
    }
    if TicksSettle(log) {
      forall i
        ensures i in SeedOf(last) <==> i in prices
        ensures i in prices ==> SeedOf(last)[i] == prices[i]
      {
        assert PriceFollows(prices, last, log, i);
      }
    }
    if SeedOf(last) == prices {
      forall i | i in last
        ensures last[i].Ticked? && last[i].price.Some? <==> EverPriced(log, i)
      {
        assert PriceFollows(prices, last, log, i);
        assert i in SeedOf(last) <==> last[i].Ticked? && last[i].price.Some?;
      }
    }
  }

  /** Every held instrument with a price is marked at it. */
  predicate MarkedAtPrices(b: Book) {
    forall i :: i in b.positions && i in b.prices ==> b.positions[i].mark == b.prices[i]
  }

  lemma SeedingKeepsMoney(b: Book, ticks: map<string, Event>)
    requires b.prices == map[]
    ensures SeedPrices(b, ticks).prices == SeedOf(ticks)
    ensures SameMoney(b, SeedPrices(b, ticks))
    ensures MarkedAtPrices(SeedPrices(b, ticks))
  {
  }

  /** Over a stream in time order, a restart rebuilds cash, positions, realized trades, the daily
      accumulator and prices exactly when the last ticks settle. */
  lemma RestartIff(cfg: Settings, log: seq<Event>)
    requires SortedByTime(log)
    ensures SameButMarks(Replay(cfg, log), RebuiltBook(cfg, log)) <==> TicksSettle(log)
  {
    hide Replay, SeedOf, LatestOf, TicksSettle;
    RangeOfSorted(log, FILLS);
    hide Range;
    FillsAlone(cfg, log);
    SeedMatches(cfg, log);
    SeedingKeepsMoney(Replay(cfg, OfKinds(log, FILLS)), LatestOf(log, TICKS));
  }

  lemma {:induction false} TickedIsPriced(log: seq<Event>, i: string)
    requires TickedSince(log, i)
    ensures EverPriced(log, i)
  {
    var n := |log| - 1;
    assert log == log[..n] + [log[n]];
    EverPricedOne(log[..n], log[n], i);
    if !IsPricedTick(log[n], i) { TickedIsPriced(log[..n], i); }
  }

  /** What a restart would rebuild, beside the live book: the same money, the prices whose ticks are still stored,
      and the marks of every instrument that ticked since it was opened. */
  ghost predicate Recovers(log: seq<Event>, live: Book, rebuilt: Book) {
    && SameMoney(live, rebuilt) && PricesWithin(rebuilt.prices, live.prices)
    && (forall i :: i in rebuilt.prices <==> EverPriced(log, i))
    && (forall i :: i in live.positions && TickedSince(log, i) ==> rebuilt.positions[i].mark == live.positions[i].mark)
  }

  lemma RebuiltFacts(cfg: Settings, log: seq<Event>)
    requires SortedByTime(log) && TicksSettle(log)
    ensures SameButMarks(Replay(cfg, log), RebuiltBook(cfg, log)) && MarkedAtPrices(RebuiltBook(cfg, log))
    ensures forall i :: i in RebuiltBook(cfg, log).prices <==> EverPriced(log, i)
  {
    RestartIff(cfg, log);
    RangeOfSorted(log, FILLS);
    FillsAlone(cfg, log);
    hide SeedPrices, SeedOf, Range, LatestOf, Replay, EverPriced, TicksSettle, MarkedAtPrices;
    SeedingKeepsMoney(Replay(cfg, OfKinds(log, FILLS)), LatestOf(log, TICKS));
    forall i
      ensures i in Replay(cfg, log).prices <==> EverPriced(log, i)
    {
      PricesFollow(cfg, log, i);
    }
  }

  lemma SameMoneyJoins(a: Book, b: Book, d: Book)
    requires SameMoney(a, b) && SameMoney(a, d)
    ensures SameMoney(b, d) && b.positions.Keys == d.positions.Keys
  {
  }

  /** The live book and the rebuilt one. */
  lemma RestartEqualsLive(cfg: Settings, c: Core)
    requires BookFollowsLog(cfg, c) && SortedByTime(c.log) && TicksSettle(c.log)
    ensures Recovers(c.log, c.book, RebuiltBook(cfg, c.log))
    ensures MarksFresh(c.log, RebuiltBook(cfg, c.log))
  {
    RebuiltFacts(cfg, c.log);
    SameMoneyJoins(Replay(cfg, c.log), c.book, RebuiltBook(cfg, c.log));
    hide RebuiltBook, Replay, EverPriced, SortedByTime, TicksSettle, SameMoney;
    forall i
      ensures TickedSince(c.log, i) ==> EverPriced(c.log, i)
    {
      if TickedSince(c.log, i) { TickedIsPriced(c.log, i); }
    }
    hide TickedSince;
  }

  /** Every tick of the stream has a name and a price. */
  predicate TicksPriced(log: seq<Event>) {
    forall e :: e in log && e.Ticked? ==> PricedTick(e.instrument, e.price)
  }

  lemma PricedTicksSettle(log: seq<Event>)
    requires SortedByTime(log) && TicksPriced(log)
    ensures TicksSettle(log)
  {
    RangeOfSorted(log, TICKS);
    var last := LatestOf(log, TICKS);
    LastWriteElements(OfKinds(log, TICKS));
    OfKindsElements(log, TICKS);
    forall i | i in last
      ensures last[i].Ticked? && last[i].price.Some? && EverPriced(log, i)
    {
      assert IsPricedTick(last[i], i);
    }
  }

  /** When the last tick of a priced instrument has no price, a restart loses the price that the live process still has. */
  lemma UnpricedTickLosesPrice(cfg: Settings)
    ensures exists log :: SortedByTime(log) && "A" in Replay(cfg, log).prices && "A" !in RebuiltBook(cfg, log).prices
  {
    var first, second := Ticked("A", Some(1.0), 0), Ticked("A", None, 1);
    var log := [first, second];
    assert log[..1] == [first] && [first][..0] == [];
    RangeOfSorted(log, FILLS);
    FillsAlone(cfg, log);
    RangeOfSorted(log, TICKS);
    assert OfKinds(log, TICKS) == [first, second] by {
      OfKindsOne([], first, TICKS);
      OfKindsOne([first], second, TICKS);
      assert [first] + [second] == log;
    }
    assert LatestOf(log, TICKS)["A"] == second;
    PricesFollow(cfg, log, "A");
    assert IsPricedTick(first, "A") && first in log;
  }
}
