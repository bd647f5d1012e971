/** The equity curve against the books themselves: where it starts, where it ends, and what it covers. */
module Projection {
  import opened Events
  import opened Ledger
  import opened Store
  import opened Recovery
  import opened EquityCurve

  lemma {:induction false} UpToAll(events: seq<Event>, utcDay: int -> int, day: int)
    requires forall e :: e in events ==> utcDay(e.time) <= day
    ensures UpTo(events, utcDay, day) == events
  {
    if events != [] {
      var n := |events| - 1;
      assert events[n] in events && events == events[..n] + [events[n]];
      UpToAll(events[..n], utcDay, day);
    }
  }

  lemma {:induction false} UpToNone(events: seq<Event>, utcDay: int -> int, day: int)
    requires forall e :: e in events ==> day < utcDay(e.time)
    ensures UpTo(events, utcDay, day) == []
  {
    if events != [] {
      var n := |events| - 1;
      assert events[n] in events;
      UpToNone(events[..n], utcDay, day);
    }
  }

  /** What one tick does to the last prices. */
  function Quoted(prices: map<string, real>, e: Event): map<string, real>
    requires e.Ticked?
  {
    if PricedTick(e.instrument, e.price) then prices[e.instrument := e.price.value] else prices
  }

  lemma LastPricesOne(ticks: seq<Event>, e: Event)
    requires e.Ticked?
    ensures LastPrices(ticks + [e]) == Quoted(LastPrices(ticks), e)
  {
    assert (ticks + [e])[..|ticks|] == ticks;
  }

  lemma ApplyQuotes(cfg: Settings, b: Book, e: Event)
    ensures Apply(cfg, b, e).prices == if e.Ticked? then Quoted(b.prices, e) else b.prices
  {
    if !e.Ticked? { FillKeepsPrices(cfg, b, e); }
    hide HandleFill;
  }

  // The last prices of the stored ticks are those of the replayed book.
  lemma {:induction false} LastPricesReplay(cfg: Settings, log: seq<Event>)
    ensures LastPrices(OfKinds(log, TICKS)) == Replay(cfg, log).prices
  {
    if log != [] {
      var rest, e := log[..|log| - 1], log[|log| - 1];
      assert log == rest + [e] && Replay(cfg, log) == Apply(cfg, Replay(cfg, rest), e);
      LastPricesReplay(cfg, rest);
      OfKindsOne(rest, e, TICKS);
      hide OfKinds, LastPrices, Replay, Apply, Quoted;
      ApplyQuotes(cfg, Replay(cfg, rest), e);
      if e.Ticked? { LastPricesOne(OfKinds(rest, TICKS), e); }
      assert OfKinds(rest, TICKS) + [] == OfKinds(rest, TICKS);
    }
  }

  lemma MarkedLikeSeeded(b: Book, prices: map<string, real>)
    ensures MarkAll(b, prices).cash == SeedWith(b, prices).cash && MarkAll(b, prices).positions == SeedWith(b, prices).positions
  {
  }

  lemma SameValue(a: Book, b: Book)
    requires a.cash == b.cash && a.positions == b.positions
    ensures TotalValue(a) == TotalValue(b)
  {
  }

  /** The point of the day that everything so far belongs to is the account value that a restart would show. */
  lemma CurveEndsAtRestart(cfg: Settings, utcDay: int -> int, log: seq<Event>, today: int)
    requires SortedByTime(log) && TicksPriced(log) && forall e :: e in log ==> utcDay(e.time) <= today
    ensures EquityOn(cfg, utcDay, OfKinds(log, FILLS), OfKinds(log, TICKS), today) == TotalValue(RebuiltBook(cfg, log))
  {
    var fills, ticks := OfKinds(log, FILLS), OfKinds(log, TICKS);
    OfKindsElements(log, FILLS);
    OfKindsElements(log, TICKS);
    UpToAll(fills, utcDay, today);
    UpToAll(ticks, utcDay, today);
    LastPricesReplay(cfg, log);
    PricedTicksSettle(log);
    SeedMatches(cfg, log);
    RangeOfSorted(log, FILLS);
    hide UpTo, OfKinds, Replay, LastPrices, SeedOf, LatestOf, Range, MarkAll, SeedWith, TotalValue, SortedByTime, TicksPriced, TicksSettle;
    MarkedLikeSeeded(Replay(cfg, fills), LastPrices(ticks));
    SameValue(MarkAll(Replay(cfg, fills), LastPrices(ticks)), SeedWith(Replay(cfg, fills), LastPrices(ticks)));
  }

  /** Before the first fill the account is worth what it started with. */
  lemma CurveStartsFlat(cfg: Settings, utcDay: int -> int, fills: seq<Event>, ticks: seq<Event>, day: int)
    requires forall e :: e in fills ==> day < utcDay(e.time)
    ensures EquityOn(cfg, utcDay, fills, ticks, day) == cfg.initialCash
  {
    UpToNone(fills, utcDay, day);
    hide UpTo, LastPrices;
    assert MarkAll(EmptyBook(cfg), LastPrices(UpTo(ticks, utcDay, day))).positions == map[];
  }

  /** The curve has a point for every day from that of the first fill to today, both included, and none else. */
  lemma CurveCovers(cfg: Settings, utcDay: int -> int, fills: seq<Event>, ticks: seq<Event>, today: int)
    requires fills != [] && utcDay(fills[0].time) <= today && AllReadable(fills)
    ensures var curve, start := PlainCurve(cfg, utcDay, fills, ticks, today), utcDay(fills[0].time);
      && curve.Points? && |curve.points| == today - start + 1
      && forall k :: 0 <= k <= today - start ==>
           curve.points[k] == Point(start + k, EquityOn(cfg, utcDay, fills, ticks, start + k))
  {
    hide EquityOn, PlainPoints, UpTo;
    UpToWithin(fills, utcDay, today);
    assert AllReadable(UpTo(fills, utcDay, today));
    hide AllReadable;
    PlainPointsDaily(cfg, utcDay, fills, ticks, utcDay(fills[0].time), today + 1);
  }

  lemma {:induction false} UpToWithin(events: seq<Event>, utcDay: int -> int, day: int)
    ensures forall e :: e in UpTo(events, utcDay, day) ==> e in events
  {
    if events != [] {
      var n := |events| - 1;
      UpToWithin(events[..n], utcDay, day);
      assert events == events[..n] + [events[n]];
    }
  }
}
