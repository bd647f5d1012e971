/** portfolio/executor.py and core/mode.py as transitions of one state value.
    A published event and everything its handlers do form one atomic transition. */
module Execution {
  import opened Events
  import opened Ledger
  import opened Pricing
  import opened Rounding
  import opened Risk

  /** An approval awaiting the operator. */
  datatype Parked = Parked(ticket: Ticket, approvedAt: int)

  /** Everything the trading core holds in memory, and the event stream it has persisted.
      `pending` lists the dictionary's entries in insertion order. */
  datatype Core = Core(
    mode: Mode,
    book: Book,
    pending: seq<Parked>,
    submitted: set<string>,
    closePending: set<string>,
    log: seq<Event>)

  function Emit(c: Core, events: seq<Event>): Core {
    c.(log := c.log + events)
  }

  // ---------- the autonomy ladder ----------

  function Level(mode: Mode): int {
    match mode
    case Observe => 0
    case Paper => 1
    case Assisted => 2
    case SemiAuto => 3
    case Supervised => 4
  }

  function ValidTransitions(from: Mode): set<Mode> {
    match from
    case Observe => {Paper, Assisted}
    case Paper => {Observe, Assisted}
    case Assisted => {Observe, Paper}
    case SemiAuto => {Observe, Assisted}
    case Supervised => {Observe, Assisted}
  }

  // ---------- order keys ----------

  function OrderKey(decision: string, intent: Intent): string {
    decision + match intent case Open => ":open" case Close => ":close"
  }

  /** One key per decision and intent. */
  lemma OrderKeyInjective(d: string, i: Intent, e: string, j: Intent)
    requires OrderKey(d, i) == OrderKey(e, j)
    ensures d == e && i == j
  {
    var key := OrderKey(d, i);
    assert key[|key| - 1] == if i == Open then 'n' else 'e';
    assert key[|key| - 1] == if j == Open then 'n' else 'e';
    assert |d| == |e|;
    assert d == key[..|d|] == e;
  }

  // ---------- the parked queue ----------

  predicate Has(q: seq<Parked>, id: string) {
    exists k :: 0 <= k < |q| && q[k].ticket.id == id
  }

  function Find(q: seq<Parked>, id: string): Parked
    requires Has(q, id)
  {
    if q[0].ticket.id == id then q[0] else Find(q[1..], id)
  }

  function Without(q: seq<Parked>, id: string): seq<Parked> {
    if q == [] then []
    else if q[0].ticket.id == id then Without(q[1..], id)
    else [q[0]] + Without(q[1..], id)
  }

  /** `_pending[id] = parked`: an existing entry keeps its place. */
  function Put(q: seq<Parked>, parked: Parked): seq<Parked> {
    if q == [] then [parked]
    else if q[0].ticket.id == parked.ticket.id then [parked] + q[1..]
    else [q[0]] + Put(q[1..], parked)
  }

  predicate IsExpired(cfg: Settings, parked: Parked, now: int) {
    now - parked.approvedAt >= cfg.pendingTtl
  }

  function Stale(cfg: Settings, q: seq<Parked>, now: int): seq<Parked> {
    if q == [] then []
    else (if IsExpired(cfg, q[0], now) then [q[0]] else []) + Stale(cfg, q[1..], now)
  }

  function Live(cfg: Settings, q: seq<Parked>, now: int): seq<Parked> {
    if q == [] then []
    else (if IsExpired(cfg, q[0], now) then [] else [q[0]]) + Live(cfg, q[1..], now)
  }

  function Expiries(q: seq<Parked>, now: int): seq<Event> {
    seq(|q|, k requires 0 <= k < |q| => Expired(q[k].ticket.id, now))
  }

  function ExpireStale(cfg: Settings, c: Core, now: int): Core {
    c.(pending := Live(cfg, c.pending, now), log := c.log + Expiries(Stale(cfg, c.pending, now), now))
  }

  function ExpirePending(c: Core, now: int): Core {
    c.(pending := [], log := c.log + Expiries(c.pending, now))
  }

  // ---------- closing ----------

  function ClosePrice(cfg: Settings, side: Side, price: real): real {
    match side
    case Long => price * (1.0 - cfg.slippage)
    case Short => price * (1.0 + cfg.slippage)
  }

  function CloseFill(cfg: Settings, instrument: string, p: Position, price: real): FillPayload {
    var fillPrice := ClosePrice(cfg, p.side, price);
    FillPayload(instrument, "close", SideText(p.side), fillPrice, p.quantity, 0.0,
                fillPrice * p.quantity * cfg.feePct, None, p.decision)
  }

  predicate CanClose(c: Core, instrument: string) {
    && instrument in c.book.positions
    && Usable(c.book, instrument)
    && OrderKey(c.book.positions[instrument].decision, Close) !in c.submitted
  }

  function Closed(cfg: Settings, c: Core, instrument: string, now: int): Core
    requires CanClose(c, instrument)
  {
    var p := c.book.positions[instrument];
    var key := OrderKey(p.decision, Close);
    var fill := CloseFill(cfg, instrument, p, c.book.prices[instrument]);
    c.(submitted := c.submitted + {key},
       log := c.log + [Submitted(key, Close, p.decision, now), Filled(fill, now)],
       book := HandleFill(c.book, fill, cfg.tradingDay(now)))
  }

  /** `close_position`: succeeds exactly when `CanClose`. */
  function TryClose(cfg: Settings, c: Core, instrument: string, now: int): Core {
    if CanClose(c, instrument) then Closed(cfg, c, instrument, now) else c
  }

  function CloseOrDefer(cfg: Settings, c: Core, instrument: string, now: int): Core {
    if CanClose(c, instrument) then
      var d := Closed(cfg, c, instrument, now);
      d.(closePending := d.closePending - {instrument})
    else if instrument in c.book.positions then c.(closePending := c.closePending + {instrument})
    else c
  }

  function ReconcileOrphans(cfg: Settings, c: Core, instruments: seq<string>, now: int): Core
    decreases |instruments|
  {
    if instruments == [] then c
    else
      var d := if instruments[0] in c.book.positions then CloseOrDefer(cfg, c, instruments[0], now) else c;
      ReconcileOrphans(cfg, d, instruments[1..], now)
  }

  // ---------- opening ----------

  function SlippedPrice(cfg: Settings, side: Side, price: real): real {
    match side
    case Long => price * (1.0 + cfg.slippage)
    case Short => price * (1.0 - cfg.slippage)
  }

  function OpenPrice(cfg: Settings, side: Side, price: real): real {
    QuantizePrice(SlippedPrice(cfg, side, price))
  }

  function OpenQuantity(size: real, fillPrice: real): real
    requires fillPrice != 0.0
  {
    Quantize(size / fillPrice, 0.00000001)
  }

  function OpenFill(cfg: Settings, t: Ticket, fillPrice: real): FillPayload
    requires fillPrice != 0.0
  {
    FillPayload(t.instrument, "open", SideText(t.side), fillPrice, OpenQuantity(t.size, fillPrice), t.size,
                t.size * cfg.feePct, t.stop, t.id)
  }

  predicate CanOpen(c: Core, t: Ticket) {
    0.0 < t.size && Usable(c.book, t.instrument) && OrderKey(t.id, Open) !in c.submitted
  }

  /** `_fill`. The key is registered before the division; a fill price of zero raises there. */
  function TryOpen(cfg: Settings, c: Core, t: Ticket, now: int): Core {
    if !CanOpen(c, t) then c
    else
      var key := OrderKey(t.id, Open);
      var d := c.(submitted := c.submitted + {key}, log := c.log + [Submitted(key, Open, t.id, now)]);
      var fillPrice := OpenPrice(cfg, t.side, c.book.prices[t.instrument]);
      if fillPrice == 0.0 then d
      else
        var fill := OpenFill(cfg, t, fillPrice);
        d.(log := d.log + [Filled(fill, now)], book := HandleFill(d.book, fill, cfg.tradingDay(now)))
  }

  // ---------- bus handlers and operator calls ----------

  function HandleApproved(cfg: Settings, c: Core, t: Ticket, now: int): Core {
    match c.mode
    case Paper => TryOpen(cfg, c, t, now)
    case Assisted => if t.id != "" then c.(pending := Put(c.pending, Parked(t, now))) else c
    case _ => c
  }

  /** A proposal reaches the risk engine; a clearance is published and executed or parked. */
  ghost function Propose(cfg: Settings, c: Core, id: string, instrument: string, side: Side, now: int): Core {
    match Evaluate(cfg, c.mode, c.book, instrument, side, now)
    case Refused(_) => Emit(c, [RiskRejected(id, now)])
    case Cleared(size, stop) =>
      var t := Ticket(id, instrument, side, size, Some(stop));
      HandleApproved(cfg, Emit(c, [Approved(t, now)]), t, now)
  }

  datatype Answer = NotFound | HaltedError | StaleDecision | Done

  ghost function Execute(cfg: Settings, c: Core, id: string, now: int): (Core, Answer) {
    if Level(c.mode) < Level(Assisted) then (c, HaltedError)
    else if !Has(c.pending, id) then (c, NotFound)
    else
      var parked := Find(c.pending, id);
      var d := c.(pending := Without(c.pending, id));
      if IsExpired(cfg, parked, now) then (Emit(d, [Expired(id, now)]), StaleDecision)
      else
        match Evaluate(cfg, d.mode, d.book, parked.ticket.instrument, parked.ticket.side, now)
        case Refused(_) => (Emit(d, [Expired(id, now)]), StaleDecision)
        case Cleared(size, stop) =>
          (TryOpen(cfg, d, parked.ticket.(size := size, stop := Some(stop)), now), Done)
  }

  function Reject(c: Core, id: string, now: int): (Core, Answer) {
    if !Has(c.pending, id) then (c, NotFound)
    else (Emit(c.(pending := Without(c.pending, id)), [OperatorRejected(id, now)]), Done)
  }

  function MonitorStop(cfg: Settings, c: Core, instrument: string, price: Option<real>, now: int): Core {
    if PricedTick(instrument, price) && instrument in c.book.positions then
      var p := c.book.positions[instrument];
      if p.stop.Some? && p.stop.value != 0.0 && !OnSafeSide(p.side, price.value, p.stop.value) then
        TryClose(cfg, Emit(c, [LimitBreached(instrument, now)]), instrument, now)
      else c
    else c
  }

  function RetryDeferred(cfg: Settings, c: Core, instrument: string, now: int): Core {
    if instrument !in c.closePending then c
    else if instrument !in c.book.positions then c.(closePending := c.closePending - {instrument})
    else if CanClose(c, instrument) then
      var d := Closed(cfg, c, instrument, now);
      d.(closePending := d.closePending - {instrument})
    else c
  }

  /** A market tick: the portfolio marks, the risk engine watches the stop, the executor retries and sweeps. */
  function Tick(cfg: Settings, c: Core, instrument: string, price: Option<real>, now: int): Core {
    var marked := Emit(c, [Ticked(instrument, price, now)]).(book := HandleTick(c.book, instrument, price));
    var watched := MonitorStop(cfg, marked, instrument, price, now);
    var retried := RetryDeferred(cfg, watched, instrument, now);
    if retried.pending != [] then ExpireStale(cfg, retried, now) else retried
  }

  function Invalidate(cfg: Settings, c: Core, instrument: string, now: int): Core {
    var d := Emit(c, [ThesisInvalidated(instrument, now)]);
    if instrument == "" || instrument !in d.book.positions then d else CloseOrDefer(cfg, d, instrument, now)
  }

  function ModeHandlers(c: Core, now: int): Core {
    if Level(c.mode) < Level(Assisted) then ExpirePending(c, now) else c
  }

  /** A disallowed transition raises and changes nothing. */
  function SetMode(c: Core, to: Mode, now: int): Core {
    if to == c.mode || to !in ValidTransitions(c.mode) then c
    else ModeHandlers(Emit(c.(mode := to), [ModeChanged(to, now)]), now)
  }

  function Halt(c: Core, now: int): Core {
    var halted := ExpirePending(Emit(c.(mode := Observe), [Halted(now)]), now);
    if c.mode == Observe then halted
    else ModeHandlers(Emit(halted, [ModeChanged(Observe, now)]), now)
  }

  // ---------- one process ----------

  datatype Step =
    | DoTick(instrument: string, price: Option<real>, now: int)
    | DoPropose(id: string, instrument: string, side: Side, now: int)
    | DoRedeliver(ticket: Ticket, now: int)
    | DoExecute(id: string, now: int)
    | DoReject(id: string, now: int)
    | DoClose(instrument: string, now: int)
    | DoInvalidate(instrument: string, now: int)
    | DoSetMode(to: Mode, now: int)
    | DoHalt(now: int)

  ghost function Next(cfg: Settings, c: Core, s: Step): Core {
    match s
    case DoTick(instrument, price, now) => Tick(cfg, c, instrument, price, now)
    case DoPropose(id, instrument, side, now) => Propose(cfg, c, id, instrument, side, now)
    case DoRedeliver(t, now) => HandleApproved(cfg, Emit(c, [Approved(t, now)]), t, now)
    case DoExecute(id, now) => Execute(cfg, c, id, now).0
    case DoReject(id, now) => Reject(c, id, now).0
    case DoClose(instrument, now) => TryClose(cfg, c, instrument, now)
    case DoInvalidate(instrument, now) => Invalidate(cfg, c, instrument, now)
    case DoSetMode(to, now) => SetMode(c, to, now)
    case DoHalt(now) => Halt(c, now)
  }

  ghost function Run(cfg: Settings, c: Core, steps: seq<Step>): Core {
    if steps == [] then c else Next(cfg, Run(cfg, c, steps[..|steps| - 1]), steps[|steps| - 1])
  }

  /** A process that starts with an empty store. */
  function Flat(cfg: Settings): Core {
    Core(Observe, EmptyBook(cfg), [], {}, {}, [])
  }
}
