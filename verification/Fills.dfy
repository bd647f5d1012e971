/** What one opening and one closing fill do to the book, to the last digit. */
module Fills {
  import opened Numbers
  import opened Events
  import opened Rounding
  import opened Pricing
  import opened Ledger
  import opened Risk
  import opened Execution
  import opened Account

  // ---------- an open ----------

  function PositionOf(side: Side, f: FillPayload): Position
    requires f.FillPayload?
  {
    Position(side, f.price, f.quantity, f.price, f.stop, f.fee, f.decision)
  }

  lemma OpenBooks(cfg: Settings, c: Core, t: Ticket, now: int)
    requires CanOpen(c, t) && OpenPrice(cfg, t.side, c.book.prices[t.instrument]) != 0.0
    ensures var f := OpenFill(cfg, t, OpenPrice(cfg, t.side, c.book.prices[t.instrument]));
      f.FillPayload? && f.instrument == t.instrument
      && TryOpen(cfg, c, t, now).book == OpenPosition(c.book, t.instrument, PositionOf(t.side, f), f.cost, cfg.tradingDay(now))
  {
    hide OpenPrice, OpenQuantity, OpenPosition, HandleFill;
    FillOpens(c.book, OpenFill(cfg, t, OpenPrice(cfg, t.side, c.book.prices[t.instrument])), t.side, cfg.tradingDay(now));
  }

  lemma FillOpens(b: Book, f: FillPayload, side: Side, day: int)
    requires f.FillPayload? && f.action == "open" && f.side == SideText(side)
    ensures HandleFill(b, f, day)
            == OpenPosition(b, f.instrument, PositionOf(side, f), f.cost, day)
  {
  }

  /** The market price moved against a buyer of this side by a share of it. */
  function Worse(side: Side, price: real, pct: real): real {
    match side
    case Long => price * (1.0 + pct)
    case Short => price * (1.0 - pct)
  }

  lemma OpenPriceNear(cfg: Settings, side: Side, price: real)
    ensures RoundsTo(Worse(side, price, cfg.slippage), OpenPrice(cfg, side, price))
  {
    QuantizeRounds(SlippedPrice(cfg, side, price));
    hide QuantizePrice, RoundsTo;
  }

  /** So many units of the eighth decimal. */
  function Units(n: int): real {
    n as real * 0.00000001
  }

  /** The quantity that the size pays for at this price, rounded to eight decimals. */
  ghost predicate PaidFor(size: real, price: real, quantity: real) {
    0.0 <= quantity && (exists n :: quantity == Units(n)) && Abs(price * quantity - size) <= 0.000000005 * price
  }

  lemma QuantityPaidFor(size: real, price: real)
    requires 0.0 < price && 0.0 < size
    ensures PaidFor(size, price, OpenQuantity(size, price))
  {
    QuantityNear(size, price);
    assert OpenQuantity(size, price) == Units(RoundHalfEven(size / price / 0.00000001));
    hide OpenQuantity;
  }

  /** The position bought with `size` at this market price: entered at the slipped and rounded price, for the quantity
      that the size pays for. */
  ghost predicate Bought(cfg: Settings, t: Ticket, market: real, p: Position) {
    && p.side == t.side && p.stop == t.stop && p.decision == t.id && p.mark == p.entry
    && 0.0 < p.entry && RoundsTo(Worse(t.side, market, cfg.slippage), p.entry)
    && PaidFor(t.size, p.entry, p.quantity)
    && p.entryFee == t.size * cfg.feePct
  }

  lemma OpenIsBought(cfg: Settings, t: Ticket, market: real)
    requires 0.0 < market && 0.0 <= cfg.slippage < 1.0 && 0.0 < t.size
    ensures OpenPrice(cfg, t.side, market) != 0.0
    ensures Bought(cfg, t, market, PositionOf(t.side, OpenFill(cfg, t, OpenPrice(cfg, t.side, market))))
  {
    var price := OpenPrice(cfg, t.side, market);
    OpenPricePositive(cfg, t.side, market);
    OpenPriceNear(cfg, t.side, market);
    QuantityPaidFor(t.size, price);
    hide OpenPrice, OpenQuantity, Worse, RoundsTo, PaidFor;
  }

  lemma OpenCosts(b: Book, instrument: string, p: Position, cost: real, day: int)
    ensures var d := OpenPosition(b, instrument, p, cost, day);
      && d.cash == b.cash - (cost + p.entryFee) && d.positions == b.positions[instrument := p]
      && d.prices == b.prices && d.realized == b.realized
  {
  }

  /** An open takes its size and the fee on it from cash, adds that position and touches nothing else. */
  lemma OpenTakes(cfg: Settings, c: Core, t: Ticket, now: int)
    requires CanOpen(c, t) && 0.0 < c.book.prices[t.instrument] && 0.0 <= cfg.slippage < 1.0
    ensures var d := TryOpen(cfg, c, t, now).book;
      && t.instrument in d.positions && Bought(cfg, t, c.book.prices[t.instrument], d.positions[t.instrument])
      && d.positions == c.book.positions[t.instrument := d.positions[t.instrument]]
      && d.prices == c.book.prices && d.realized == c.book.realized
      && d.cash == c.book.cash - t.size * (1.0 + cfg.feePct)
  {
    var market := c.book.prices[t.instrument];
    OpenIsBought(cfg, t, market);
    OpenBooks(cfg, c, t, now);
    var f := OpenFill(cfg, t, OpenPrice(cfg, t.side, market));
    OpenCosts(c.book, t.instrument, PositionOf(t.side, f), f.cost, cfg.tradingDay(now));
    SizeAndFee(cfg, t, OpenPrice(cfg, t.side, market));
    hide TryOpen, OpenFill, OpenPosition, Bought, OpenPrice;
  }

  lemma SizeAndFee(cfg: Settings, t: Ticket, fillPrice: real)
    requires fillPrice != 0.0
    ensures var f := OpenFill(cfg, t, fillPrice);
      f.FillPayload? && f.cost + PositionOf(t.side, f).entryFee == t.size * (1.0 + cfg.feePct)
  {
    hide OpenQuantity;
    assert t.size * (1.0 + cfg.feePct) == t.size + t.size * cfg.feePct;
  }

  // ---------- a close ----------

  /** What slippage costs a close at this market price. */
  function SlippageCost(cfg: Settings, p: Position, price: real): real {
    cfg.slippage * price * p.quantity
  }

  /** The notional the closing fee is charged on: the quantity at the slipped price. */
  function SlippedNotional(cfg: Settings, p: Position, price: real): real {
    match p.side
    case Long => p.quantity * (price - cfg.slippage * price)
    case Short => p.quantity * (price + cfg.slippage * price)
  }

  lemma ClosingFill(cfg: Settings, p: Position, price: real)
    ensures ClosePrice(cfg, p.side, price) * p.quantity == SlippedNotional(cfg, p, price)
  {
    match p.side {
      case Long => assert price * (1.0 - cfg.slippage) == price - cfg.slippage * price;
      case Short => assert price * (1.0 + cfg.slippage) == price + cfg.slippage * price;
    }
  }

  lemma NotionalSplits(cfg: Settings, p: Position, price: real)
    ensures p.side == Long ==> SlippedNotional(cfg, p, price) == price * p.quantity - SlippageCost(cfg, p, price)
    ensures p.side == Short ==> SlippedNotional(cfg, p, price) == price * p.quantity + SlippageCost(cfg, p, price)
  {
  }

  lemma EquityAt(p: Position, price: real)
    ensures p.side == Long ==> EquityContribution(p.(mark := price)) == price * p.quantity
    ensures p.side == Short ==> EquityContribution(p.(mark := price)) == 2.0 * SizeUsd(p) - price * p.quantity
  {
    assert (price - p.entry) * p.quantity == price * p.quantity - p.entry * p.quantity;
    assert (p.entry - price) * p.quantity == p.entry * p.quantity - price * p.quantity;
  }

  lemma CreditParts(cfg: Settings, p: Position, price: real)
    ensures p.side == Long ==> CreditAt(cfg, p, price) == SlippedNotional(cfg, p, price) - SlippedNotional(cfg, p, price) * cfg.feePct
    ensures p.side == Short ==>
              CreditAt(cfg, p, price)
              == 2.0 * SizeUsd(p) - SlippedNotional(cfg, p, price) - SlippedNotional(cfg, p, price) * cfg.feePct
  {
    ClosingFill(cfg, p, price);
    hide SlippedNotional, ClosePrice;
  }

  /** A close pays out what the position contributes to equity at the market price, less the slippage on the whole
      quantity, less the fee on the slipped notional. */
  lemma CloseReturns(cfg: Settings, p: Position, price: real)
    ensures CreditAt(cfg, p, price)
            == EquityContribution(p.(mark := price)) - SlippageCost(cfg, p, price) - SlippedNotional(cfg, p, price) * cfg.feePct
  {
    CreditParts(cfg, p, price);
    NotionalSplits(cfg, p, price);
    EquityAt(p, price);
    hide CreditAt, SlippedNotional, SlippageCost, EquityContribution, SizeUsd;
  }

  lemma PnlIsCredit(p: Position, price: real, fee: real)
    ensures RealizedPnl(p, price, fee) == CloseCredit(p, price, fee) - Committed(p)
  {
  }

  /** A closed position pays that credit into cash, realizes the credit less what it had tied up, and is gone. */
  lemma ClosePays(cfg: Settings, c: Core, i: string, now: int)
    requires CanClose(c, i)
    ensures var d, credit := Closed(cfg, c, i, now).book, CreditAt(cfg, c.book.positions[i], c.book.prices[i]);
      && d.cash == c.book.cash + credit && d.realized == c.book.realized + [credit - Committed(c.book.positions[i])]
      && d.positions == c.book.positions - {i} && d.prices == c.book.prices
  {
    var p := c.book.positions[i];
    var f := CloseFill(cfg, i, p, c.book.prices[i]);
    PnlIsCredit(p, f.price, f.fee);
    hide RealizedPnl, CloseCredit, ClosePrice, Committed;
  }

  // ---------- the audit trail ----------

  /** One order and its fill, and nothing else. */
  predicate Ordered(events: seq<Event>, key: string, intent: Intent, decision: string, now: int) {
    && |events| == 2 && events[0] == Submitted(key, intent, decision, now)
    && events[1].Filled? && events[1].time == now && events[1].fill.FillPayload? && events[1].fill.decision == decision
    && (if intent == Open then IsOpenFill(events[1]) else IsCloseFill(events[1]))
  }

  /** A close, and an open at a price that does not round to zero, record their order under its key, which is used up,
      and then the fill. */
  lemma OrdersPrecedeFills(cfg: Settings, c: Core, t: Ticket, i: string, now: int)
    ensures CanOpen(c, t) && OpenPrice(cfg, t.side, c.book.prices[t.instrument]) != 0.0 ==>
              var d, key := TryOpen(cfg, c, t, now), OrderKey(t.id, Open);
              && c.log <= d.log && Ordered(d.log[|c.log|..], key, Open, t.id, now)
              && key !in c.submitted && d.submitted == c.submitted + {key}
    ensures CanClose(c, i) ==>
              var d, id := TryClose(cfg, c, i, now), c.book.positions[i].decision;
              && c.log <= d.log && Ordered(d.log[|c.log|..], OrderKey(id, Close), Close, id, now)
              && OrderKey(id, Close) !in c.submitted && d.submitted == c.submitted + {OrderKey(id, Close)}
  {
    hide HandleFill, OpenPrice, OpenQuantity, ClosePrice, OrderKey;
  }
}
