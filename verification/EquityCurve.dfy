/** analytics/equity_curve.py: daily equity by two cursors, against the plain recomputation of each day. */
module EquityCurve {
  import opened Events
  import opened Ledger
  import opened PaperBook

  datatype Point = Point(day: int, equity: real)

  /** A fill that does not parse makes the whole projection raise. */
  datatype Curve = Raised | Points(points: seq<Point>)

  predicate Readable(f: FillPayload) {
    f.FillPayload? && (f.action == "open" ==> ReadSide(f.side).Some?)
  }

  // ---------- the plain form ----------

  function UpTo(events: seq<Event>, utcDay: int -> int, day: int): seq<Event> {
    if events == [] then []
    else
      var e := events[|events| - 1];
      UpTo(events[..|events| - 1], utcDay, day) + if utcDay(e.time) <= day then [e] else []
  }

  /** The last price of each instrument over these ticks. */
  function LastPrices(ticks: seq<Event>): map<string, real> {
    if ticks == [] then map[]
    else
      var e, before := ticks[|ticks| - 1], LastPrices(ticks[..|ticks| - 1]);
      if e.Ticked? && PricedTick(e.instrument, e.price) then before[e.instrument := e.price.value] else before
  }

  /** Every position that has a last price, marked at it. */
  function MarkAll(b: Book, prices: map<string, real>): Book {
    b.(positions := map i | i in b.positions ::
         if i in prices then b.positions[i].(mark := prices[i]) else b.positions[i])
  }

  /** Equity at the end of a day: replay all fills so far, mark at the last ticks so far. */
  ghost function EquityOn(cfg: Settings, utcDay: int -> int, fills: seq<Event>, ticks: seq<Event>, day: int): real {
    TotalValue(MarkAll(Replay(cfg, UpTo(fills, utcDay, day)), LastPrices(UpTo(ticks, utcDay, day))))
  }

  /** One point per day, from `start` up to but not including `end`. */
  ghost function PlainPoints(cfg: Settings, utcDay: int -> int, fills: seq<Event>, ticks: seq<Event>,
                             start: int, end: int): seq<Point>
    decreases end - start
  {
    if end <= start then []
    else PlainPoints(cfg, utcDay, fills, ticks, start, end - 1) + [Point(end - 1, EquityOn(cfg, utcDay, fills, ticks, end - 1))]
  }

  /** Exactly one point for each day, in order. */
  lemma {:induction false} PlainPointsDaily(cfg: Settings, utcDay: int -> int, fills: seq<Event>, ticks: seq<Event>,
                                            start: int, end: int)
    requires start <= end
    ensures var points := PlainPoints(cfg, utcDay, fills, ticks, start, end);
      |points| == end - start
      && forall k :: 0 <= k < end - start ==> points[k] == Point(start + k, EquityOn(cfg, utcDay, fills, ticks, start + k))
    decreases end - start
  {
    hide EquityOn;
    if start < end { PlainPointsDaily(cfg, utcDay, fills, ticks, start, end - 1); }
  }

  predicate AllReadable(fills: seq<Event>) {
    forall e :: e in fills && e.Filled? ==> Readable(e.fill)
  }

  ghost function PlainCurve(cfg: Settings, utcDay: int -> int, fills: seq<Event>, ticks: seq<Event>, today: int): Curve {
    if fills == [] then Points([])
    else
      var start := utcDay(fills[0].time);
      if today < start then Points([])
      else if AllReadable(UpTo(fills, utcDay, today)) then Points(PlainPoints(cfg, utcDay, fills, ticks, start, today + 1))
      else Raised
  }

  ghost predicate ByDay(events: seq<Event>, utcDay: int -> int) {
    forall j, k :: 0 <= j < k < |events| ==> utcDay(events[j].time) <= utcDay(events[k].time)
  }

  // ---------- cursors ----------

  /** The cursor stands behind everything up to that day. */
  ghost predicate CursorAt(events: seq<Event>, utcDay: int -> int, day: int, cursor: int) {
    && 0 <= cursor <= |events|
    && (forall k :: 0 <= k < cursor ==> utcDay(events[k].time) <= day)
    && (forall k :: cursor <= k < |events| ==> day < utcDay(events[k].time))
  }

  lemma {:induction false} CursorIsUpTo(events: seq<Event>, utcDay: int -> int, day: int, cursor: int)
    requires CursorAt(events, utcDay, day, cursor)
    ensures UpTo(events, utcDay, day) == events[..cursor]
  {
    if events != [] {
      var n := |events| - 1;
      assert events == events[..n] + [events[n]];
      if cursor == |events| {
        assert CursorAt(events[..n], utcDay, day, n);
        CursorIsUpTo(events[..n], utcDay, day, n);
      } else {
        CursorIsUpTo(events[..n], utcDay, day, cursor);
        assert events[..n][..cursor] == events[..cursor];
      }
    }
  }

  // ---------- the book between the marks ----------

  /** Equal, except for the marks of instruments that have a last price. */
  ghost predicate SameUnmarked(a: Book, b: Book, prices: map<string, real>) {
    && a.cash == b.cash && a.prices == b.prices && a.dailyPnl == b.dailyPnl && a.dailyDate == b.dailyDate
    && a.realized == b.realized && a.positions.Keys == b.positions.Keys
    && forall i :: i in a.positions ==>
         if i in prices then a.positions[i].(mark := 0.0) == b.positions[i].(mark := 0.0) else a.positions[i] == b.positions[i]
  }

  lemma SameUnmarkedMarks(a: Book, b: Book, prices: map<string, real>)
    requires SameUnmarked(a, b, prices)
    ensures MarkAll(a, prices) == MarkAll(b, prices)
  {
    forall i | i in a.positions && i in prices
      ensures a.positions[i].(mark := prices[i]) == b.positions[i].(mark := prices[i])
    {
      assert a.positions[i].(mark := 0.0).(mark := prices[i]) == b.positions[i].(mark := 0.0).(mark := prices[i]);
    }
  }

  lemma MarkedIsSame(a: Book, b: Book, prices: map<string, real>)
    requires SameUnmarked(a, b, prices)
    ensures SameUnmarked(MarkAll(a, prices), b, prices)
  {
  }

  lemma MorePricesSame(a: Book, b: Book, prices: map<string, real>, more: map<string, real>)
    requires SameUnmarked(a, b, prices) && prices.Keys <= more.Keys
    ensures SameUnmarked(a, b, more)
  {
  }

  lemma FillKeepsSame(cfg: Settings, a: Book, b: Book, e: Event, prices: map<string, real>)
    requires SameUnmarked(a, b, prices) && e.Filled?
    ensures SameUnmarked(Apply(cfg, a, e), Apply(cfg, b, e), prices)
  {
    if IsCloseFill(e) && e.fill.instrument in a.positions {
      var p, q := a.positions[e.fill.instrument], b.positions[e.fill.instrument];
      assert p.side == q.side && p.entry == q.entry && p.quantity == q.quantity && p.entryFee == q.entryFee;
      CloseIgnoresMark(p, q, e.fill.price, e.fill.fee);
      hide RealizedPnl, CloseCredit;
    }
  }

  lemma CloseIgnoresMark(p: Position, q: Position, price: real, fee: real)
    requires p.side == q.side && p.entry == q.entry && p.quantity == q.quantity && p.entryFee == q.entryFee
    ensures RealizedPnl(p, price, fee) == RealizedPnl(q, price, fee) && CloseCredit(p, price, fee) == CloseCredit(q, price, fee)
  {
  }

  lemma ReplayOne(cfg: Settings, fills: seq<Event>, i: int)
    requires 0 <= i < |fills|
    ensures Replay(cfg, fills[..i + 1]) == Apply(cfg, Replay(cfg, fills[..i]), fills[i])
  {
    assert fills[..i + 1][..i] == fills[..i];
  }

  // ---------- the projection ----------

  /** The throwaway ledger has applied the first `fi` fills, up to marks that a last price will overwrite. */
  ghost predicate HasApplied(cfg: Settings, b: Book, fills: seq<Event>, fi: int, prices: map<string, real>) {
    0 <= fi <= |fills| && SameUnmarked(b, Replay(cfg, fills[..fi]), prices) && AllReadable(fills[..fi])
  }

  ghost predicate AllUpTo(events: seq<Event>, utcDay: int -> int, day: int, cursor: int) {
    0 <= cursor <= |events| && forall k :: 0 <= k < cursor ==> utcDay(events[k].time) <= day
  }

  lemma OneMoreApplied(cfg: Settings, b: Book, fills: seq<Event>, fi: int, prices: map<string, real>)
    requires HasApplied(cfg, b, fills, fi, prices) && fi < |fills| && fills[fi].Filled? && Readable(fills[fi].fill)
    ensures HasApplied(cfg, Apply(cfg, b, fills[fi]), fills, fi + 1, prices)
  {
    ReplayOne(cfg, fills, fi);
    FillKeepsSame(cfg, b, Replay(cfg, fills[..fi]), fills[fi], prices);
    assert fills[..fi + 1] == fills[..fi] + [fills[fi]];
  }

  lemma CursorStops(events: seq<Event>, utcDay: int -> int, day: int, cursor: int)
    requires ByDay(events, utcDay) && AllUpTo(events, utcDay, day, cursor)
    requires cursor == |events| || day < utcDay(events[cursor].time)
    ensures CursorAt(events, utcDay, day, cursor)
  {
  }

  lemma Unreadable(fills: seq<Event>, utcDay: int -> int, day: int, k: int)
    requires 0 <= k < |fills| && utcDay(fills[k].time) <= day && fills[k].Filled? && !Readable(fills[k].fill)
    ensures !AllReadable(UpTo(fills, utcDay, day))
  {
    UpToHas(fills, utcDay, day, k);
  }

  /** Apply every fill up to this day; `ok` is false when one does not parse. */
  method AdvanceFills(cfg: Settings, utcDay: int -> int, fills: seq<Event>, portfolio: Portfolio, from: int, day: int,
                      ghost prices: map<string, real>)
    returns (ok: bool, fi: int)
    requires portfolio.cfg == cfg && HasApplied(cfg, portfolio.Snapshot(), fills, from, prices)
    requires (forall e :: e in fills ==> e.Filled?) && ByDay(fills, utcDay) && AllUpTo(fills, utcDay, day, from)
    modifies portfolio
    ensures ok ==> HasApplied(cfg, portfolio.Snapshot(), fills, fi, prices) && CursorAt(fills, utcDay, day, fi)
    ensures !ok ==> !AllReadable(UpTo(fills, utcDay, day))
  {
    ok, fi := true, from;
    hide HasApplied, HandleFill, ByDay, CursorAt, AllReadable, UpTo;
    while fi < |fills| && utcDay(fills[fi].time) <= day
      invariant AllUpTo(fills, utcDay, day, fi) && HasApplied(cfg, portfolio.Snapshot(), fills, fi, prices)
      decreases |fills| - fi
    {
      ghost var before := portfolio.Snapshot();
      assert fills[fi] in fills;
      ok := portfolio.HandleFill(fills[fi].fill, fills[fi].time);
      if !ok {
        Unreadable(fills, utcDay, day, fi);
        return;
      }
      OneMoreApplied(cfg, before, fills, fi, prices);
      fi := fi + 1;
    }
    ok := true;
    CursorStops(fills, utcDay, day, fi);
  }

  /** Take in every tick up to this day. */
  method AdvanceTicks(utcDay: int -> int, ticks: seq<Event>, from: int, known: map<string, real>, day: int)
    returns (ti: int, lastPrice: map<string, real>)
    requires ByDay(ticks, utcDay) && AllUpTo(ticks, utcDay, day, from) && known == LastPrices(ticks[..from])
    ensures CursorAt(ticks, utcDay, day, ti) && lastPrice == LastPrices(ticks[..ti]) && known.Keys <= lastPrice.Keys
  {
    ti, lastPrice := from, known;
    while ti < |ticks| && utcDay(ticks[ti].time) <= day
      invariant AllUpTo(ticks, utcDay, day, ti) && lastPrice == LastPrices(ticks[..ti]) && known.Keys <= lastPrice.Keys
      decreases |ticks| - ti
    {
      var e := ticks[ti];
      assert ticks[..ti + 1][..ti] == ticks[..ti];
      if e.Ticked? && e.instrument != "" && e.price.Some? {
        lastPrice := lastPrice[e.instrument := e.price.value];
      }
      ti := ti + 1;
    }
    CursorStops(ticks, utcDay, day, ti);
  }

  lemma MarkAllOne(b: Book, seen: map<string, real>, i: string, price: real)
    requires i in b.positions
    ensures i in MarkAll(b, seen).positions
    ensures MarkAll(b, seen[i := price])
            == MarkAll(b, seen).(positions := MarkAll(b, seen).positions[i := MarkAll(b, seen).positions[i].(mark := price)])
  {
    assert MarkAll(b, seen[i := price]).positions
        == MarkAll(b, seen).positions[i := MarkAll(b, seen).positions[i].(mark := price)];
  }

  lemma MarkAllSame(b: Book, seen: map<string, real>, prices: map<string, real>)
    requires forall i :: i in b.positions ==> (i in seen <==> i in prices) && (i in seen ==> seen[i] == prices[i])
    ensures MarkAll(b, seen) == MarkAll(b, prices)
  {
  }

  lemma MarkNone(b: Book)
    ensures MarkAll(b, map[]) == b
  {
    assert MarkAll(b, map[]).positions == b.positions;
  }

  /** Mark every open position that has a last price. */
  method MarkPositions(portfolio: Portfolio, lastPrice: map<string, real>)
    modifies portfolio
    ensures portfolio.Snapshot() == MarkAll(old(portfolio.Snapshot()), lastPrice)
  {
    ghost var before := portfolio.Snapshot();
    ghost var seen: map<string, real> := map[];
    var rest := portfolio.positions;
    MarkNone(before);
    hide MarkAll;
    while rest != map[]
      invariant rest.Keys <= before.positions.Keys && portfolio.Snapshot() == MarkAll(before, seen)
      invariant forall i :: i in before.positions ==> (i in seen <==> i !in rest && i in lastPrice)
      invariant forall i :: i in seen ==> i in lastPrice && seen[i] == lastPrice[i]
      decreases |rest|
    {
      var instrument :| instrument in rest;
      if instrument in lastPrice {
        MarkAllOne(before, seen, instrument, lastPrice[instrument]);
        seen := seen[instrument := lastPrice[instrument]];
        portfolio.positions := portfolio.positions[instrument := portfolio.positions[instrument].(mark := lastPrice[instrument])];
      }
      rest := rest - {instrument};
    }
    MarkAllSame(before, seen, lastPrice);
  }

  lemma {:induction false} UpToHas(events: seq<Event>, utcDay: int -> int, day: int, k: int)
    requires 0 <= k < |events| && utcDay(events[k].time) <= day
    ensures events[k] in UpTo(events, utcDay, day)
  {
    var n := |events| - 1;
    if k < n {
      UpToHas(events[..n], utcDay, day, k);
    }
  }

  lemma {:induction false} UpToGrows(events: seq<Event>, utcDay: int -> int, day: int, later: int)
    requires day <= later
    ensures forall e :: e in UpTo(events, utcDay, day) ==> e in UpTo(events, utcDay, later)
  {
    if events != [] { UpToGrows(events[..|events| - 1], utcDay, day, later); }
  }

  lemma CursorBehind(events: seq<Event>, utcDay: int -> int, day: int, cursor: int)
    requires CursorAt(events, utcDay, day, cursor)
    ensures AllUpTo(events, utcDay, day + 1, cursor) && UpTo(events, utcDay, day) == events[..cursor]
  {
    CursorIsUpTo(events, utcDay, day, cursor);
  }

  // What the loop holds after a day is what the plain form computes for it.
  lemma DayIsPlain(cfg: Settings, utcDay: int -> int, fills: seq<Event>, ticks: seq<Event>, b: Book, fi: int, ti: int, day: int)
    requires HasApplied(cfg, b, fills, fi, LastPrices(UpTo(ticks, utcDay, day))) && UpTo(fills, utcDay, day) == fills[..fi]
    ensures TotalValue(MarkAll(b, LastPrices(UpTo(ticks, utcDay, day)))) == EquityOn(cfg, utcDay, fills, ticks, day)
    ensures HasApplied(cfg, MarkAll(b, LastPrices(UpTo(ticks, utcDay, day))), fills, fi, LastPrices(UpTo(ticks, utcDay, day)))
    ensures AllReadable(UpTo(fills, utcDay, day))
  {
    var prices := LastPrices(UpTo(ticks, utcDay, day));
    hide SameUnmarked;
    SameUnmarkedMarks(b, Replay(cfg, fills[..fi]), prices);
    MarkedIsSame(b, Replay(cfg, fills[..fi]), prices);
  }

  lemma MoreApplied(cfg: Settings, b: Book, fills: seq<Event>, fi: int, prices: map<string, real>, more: map<string, real>)
    requires HasApplied(cfg, b, fills, fi, prices) && prices.Keys <= more.Keys
    ensures HasApplied(cfg, b, fills, fi, more)
  {
    MorePricesSame(b, Replay(cfg, fills[..fi]), prices, more);
  }

  /** Where the loop stands before a day: both cursors and what has been applied. */
  ghost predicate Ready(cfg: Settings, utcDay: int -> int, fills: seq<Event>, ticks: seq<Event>, b: Book,
                        fi: int, ti: int, lastPrice: map<string, real>, day: int) {
    && AllUpTo(fills, utcDay, day, fi) && AllUpTo(ticks, utcDay, day, ti)
    && lastPrice == LastPrices(ticks[..ti]) && HasApplied(cfg, b, fills, fi, lastPrice)
  }

  /** One day: apply its fills and ticks, mark the book, read the equity. */
  method CloseDay(cfg: Settings, utcDay: int -> int, fills: seq<Event>, ticks: seq<Event>, portfolio: Portfolio,
                  fi0: int, ti0: int, known: map<string, real>, day: int)
    returns (ok: bool, fi: int, ti: int, lastPrice: map<string, real>, equity: real)
    requires (forall e :: e in fills ==> e.Filled?) && ByDay(fills, utcDay) && ByDay(ticks, utcDay)
    requires portfolio.cfg == cfg && Ready(cfg, utcDay, fills, ticks, portfolio.Snapshot(), fi0, ti0, known, day)
    modifies portfolio
    ensures ok ==> Ready(cfg, utcDay, fills, ticks, portfolio.Snapshot(), fi, ti, lastPrice, day + 1)
    ensures ok ==> equity == EquityOn(cfg, utcDay, fills, ticks, day)
    ensures ok <==> AllReadable(UpTo(fills, utcDay, day))
  {
    hide HasApplied, EquityOn, MarkAll, UpTo, LastPrices, ByDay, CursorAt;
    ti, lastPrice, equity := ti0, known, 0.0;
    ok, fi := AdvanceFills(cfg, utcDay, fills, portfolio, fi0, day, known);
    if ok {
      ti, lastPrice := AdvanceTicks(utcDay, ticks, ti0, known, day);
      MoreApplied(cfg, portfolio.Snapshot(), fills, fi, known, lastPrice);
      CursorBehind(fills, utcDay, day, fi);
      CursorBehind(ticks, utcDay, day, ti);
      DayIsPlain(cfg, utcDay, fills, ticks, portfolio.Snapshot(), fi, ti, day);
      MarkPositions(portfolio, lastPrice);
      equity := portfolio.TotalValue();
    }
  }

  /** The outer loop, day by day. */
  method EachDay(cfg: Settings, utcDay: int -> int, fills: seq<Event>, ticks: seq<Event>, portfolio: Portfolio,
                 start: int, today: int)
    returns (ok: bool, points: seq<Point>)
    requires (forall e :: e in fills ==> e.Filled?) && ByDay(fills, utcDay) && ByDay(ticks, utcDay) && start <= today
    requires portfolio.cfg == cfg && portfolio.Snapshot() == EmptyBook(cfg)
    modifies portfolio
    ensures ok <==> AllReadable(UpTo(fills, utcDay, today))
    ensures ok ==> points == PlainPoints(cfg, utcDay, fills, ticks, start, today + 1)
  {
    NothingYet(cfg, utcDay, fills, ticks, start);
    hide Ready, EquityOn, ByDay, AllReadable, UpTo, EmptyBook;
    var lastPrice: map<string, real> := map[];
    var fi, ti, day, equity := 0, 0, start, 0.0;
    ok, points := true, [];
    while day <= today
      invariant start <= day <= today + 1
      invariant Ready(cfg, utcDay, fills, ticks, portfolio.Snapshot(), fi, ti, lastPrice, day)
      invariant start < day ==> AllReadable(UpTo(fills, utcDay, day - 1))
      invariant points == PlainPoints(cfg, utcDay, fills, ticks, start, day)
      decreases today - day
    {
      ok, fi, ti, lastPrice, equity := CloseDay(cfg, utcDay, fills, ticks, portfolio, fi, ti, lastPrice, day);
      if !ok {
        ReadableShrinks(fills, utcDay, day, today);
        return;
      }
      points := points + [Point(day, equity)];
      day := day + 1;
    }
    ok := true;
  }

  /** For inputs in time order the two cursors return exactly one point per day from the first fill to today,
      each equal to the plain recomputation of that day. */
  method BuildEquityCurve(cfg: Settings, utcDay: int -> int, fills: seq<Event>, ticks: seq<Event>, today: int)
    returns (curve: Curve)
    requires (forall e :: e in fills ==> e.Filled?) && ByDay(fills, utcDay) && ByDay(ticks, utcDay)
    ensures curve == PlainCurve(cfg, utcDay, fills, ticks, today)
  {
    if fills == [] {
      return Points([]);
    }
    var portfolio := new Portfolio(cfg);
    var start := utcDay(fills[0].time);
    if today < start {
      return Points([]);
    }
    var ok, points := EachDay(cfg, utcDay, fills, ticks, portfolio, start, today);
    curve := if ok then Points(points) else Raised;
  }

  lemma ReadableShrinks(fills: seq<Event>, utcDay: int -> int, day: int, later: int)
    requires day <= later
    ensures AllReadable(UpTo(fills, utcDay, later)) ==> AllReadable(UpTo(fills, utcDay, day))
  {
    UpToGrows(fills, utcDay, day, later);
  }

  lemma NothingYet(cfg: Settings, utcDay: int -> int, fills: seq<Event>, ticks: seq<Event>, day: int)
    ensures Ready(cfg, utcDay, fills, ticks, EmptyBook(cfg), 0, 0, map[], day)
  {
  }
}
