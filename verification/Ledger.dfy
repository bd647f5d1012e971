/** portfolio/models.py and portfolio/ledger.py: the paper book as a value. */
module Ledger {
  import opened Events
  import opened Totals

  datatype Position = Position(
    side: Side,
    entry: real,
    quantity: real,
    mark: real,
    stop: Option<real>,
    entryFee: real,
    decision: string)

  function SizeUsd(p: Position): real {
    p.entry * p.quantity
  }

  function UnrealizedPnl(p: Position): real {
    match p.side
    case Long => (p.mark - p.entry) * p.quantity
    case Short => (p.entry - p.mark) * p.quantity
  }

  function EquityContribution(p: Position): real {
    SizeUsd(p) + UnrealizedPnl(p)
  }

  function EntryFee(p: Position): real {
    p.entryFee
  }

  /** What the position tied up when it was opened: notional plus entry fee. */
  function Committed(p: Position): real {
    SizeUsd(p) + p.entryFee
  }

  datatype Book = Book(
    cash: real,
    positions: map<string, Position>,
    prices: map<string, real>,
    dailyPnl: real,
    dailyDate: Option<int>,
    realized: seq<real>)

  function EmptyBook(cfg: Settings): Book {
    Book(cfg.initialCash, map[], map[], 0.0, None, [])
  }

  ghost function TotalValue(b: Book): real {
    b.cash + Total(b.positions, EquityContribution)
  }

  /** A price that `if not current_price` lets through: known and not zero. */
  predicate Usable(b: Book, instrument: string) {
    instrument in b.prices && b.prices[instrument] != 0.0
  }

  predicate IsCurrentDay(b: Book, day: int) {
    b.dailyDate.Some? && day <= b.dailyDate.value
  }

  function DailyRealizedPnl(b: Book, day: int): real {
    if IsCurrentDay(b, day) then b.dailyPnl else 0.0
  }

  function Rollover(b: Book, day: int): Book {
    if b.dailyDate.None? then b.(dailyDate := Some(day))
    else if day > b.dailyDate.value then b.(dailyDate := Some(day), dailyPnl := 0.0)
    else b
  }

  function OpenPosition(b: Book, instrument: string, p: Position, cost: real, day: int): Book {
    Rollover(b.(cash := b.cash - (cost + p.entryFee), positions := b.positions[instrument := p]), day)
  }

  /** Net of both fees. */
  function RealizedPnl(p: Position, price: real, fee: real): real {
    var proceeds, basis := price * p.quantity, SizeUsd(p);
    match p.side
    case Long => proceeds - basis - (fee + p.entryFee)
    case Short => basis - proceeds - (fee + p.entryFee)
  }

  function CloseCredit(p: Position, price: real, fee: real): real {
    var proceeds, basis := price * p.quantity, SizeUsd(p);
    match p.side
    case Long => proceeds - fee
    case Short => basis + (basis - proceeds) - fee
  }

  function ClosePosition(b: Book, instrument: string, price: real, fee: real, day: int): Book {
    if instrument !in b.positions then b
    else
      var p := b.positions[instrument];
      var realized := RealizedPnl(p, price, fee);
      var rolled := Rollover(
        b.(cash := b.cash + CloseCredit(p, price, fee), positions := b.positions - {instrument}), day);
      rolled.(dailyPnl := rolled.dailyPnl + realized, realized := rolled.realized + [realized])
  }

  /** A payload that does not parse raises before anything is written. */
  function HandleFill(b: Book, f: FillPayload, day: int): Book {
    match f
    case Unreadable => b
    case FillPayload(instrument, action, sideText, price, quantity, cost, fee, stop, decision) =>
      if action == "open" then
        match ReadSide(sideText)
        case None => b
        case Some(side) =>
          OpenPosition(b, instrument, Position(side, price, quantity, price, stop, fee, decision), cost, day)
      else if action == "close" then ClosePosition(b, instrument, price, fee, day)
      else b
  }

  predicate PricedTick(instrument: string, price: Option<real>) {
    instrument != "" && price.Some?
  }

  /** Record a price and mark the position it belongs to. */
  function Mark(b: Book, instrument: string, price: real): Book {
    b.(prices := b.prices[instrument := price],
       positions := if instrument in b.positions
                    then b.positions[instrument := b.positions[instrument].(mark := price)]
                    else b.positions)
  }

  function HandleTick(b: Book, instrument: string, price: Option<real>): Book {
    if PricedTick(instrument, price) then Mark(b, instrument, price.value) else b
  }

  function Apply(cfg: Settings, b: Book, e: Event): Book {
    match e
    case Ticked(instrument, price, _) => HandleTick(b, instrument, price)
    case Filled(fill, time) => HandleFill(b, fill, cfg.tradingDay(time))
    case _ => b
  }

  /** The book a live process reaches by handling the events one after the other. */
  function Replay(cfg: Settings, log: seq<Event>): Book {
    if log == [] then EmptyBook(cfg)
    else Apply(cfg, Replay(cfg, log[..|log| - 1]), log[|log| - 1])
  }
}
