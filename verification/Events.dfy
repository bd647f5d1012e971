/** Shared values: settings, decisions, fills and the persisted event stream. */
module Events {

  datatype Option<+T> = None | Some(value: T)

  datatype Side = Long | Short

  datatype Mode = Observe | Paper | Assisted | SemiAuto | Supervised

  datatype Intent = Open | Close

  datatype Settings = Settings(
    initialCash: real,
    slippage: real,
    feePct: real,
    pendingTtl: int,
    maxPositionPct: real,
    maxTradeLossPct: real,
    stopLossPct: real,
    cashBufferPct: real,
    minTradeSize: real,
    maxOpenPositions: int,
    maxDailyLossPct: real,
    tradingDay: int -> int)

  /** The part of an approved decision that execution reads. */
  datatype Ticket = Ticket(id: string, instrument: string, side: Side, size: real, stop: Option<real>)

  /** An `order.filled` payload; `Unreadable` stands for one whose numbers do not parse. */
  datatype FillPayload =
    | Unreadable
    | FillPayload(instrument: string, action: string, side: string, price: real, quantity: real,
                  cost: real, fee: real, stop: Option<real>, decision: string)

  datatype Event =
    | Ticked(instrument: string, price: Option<real>, time: int)
    | Approved(ticket: Ticket, time: int)
    | RiskRejected(id: string, time: int)
    | OperatorRejected(id: string, time: int)
    | Expired(id: string, time: int)
    | Submitted(key: string, intent: Intent, decision: string, time: int)
    | Filled(fill: FillPayload, time: int)
    | LimitBreached(instrument: string, time: int)
    | ThesisInvalidated(instrument: string, time: int)
    | ModeChanged(to: Mode, time: int)
    | Halted(time: int)

  function SideText(side: Side): string {
    match side case Long => "long" case Short => "short"
  }

  /** `Side(text)`; `None` stands for the ValueError. */
  function ReadSide(text: string): (side: Option<Side>) {
    if text == "long" then Some(Long)
    else if text == "short" then Some(Short)
    else None
  }

  // ---------- counting events ----------

  function Count(log: seq<Event>, p: Event -> bool): nat {
    if log == [] then 0
    else Count(log[..|log| - 1], p) + if p(log[|log| - 1]) then 1 else 0
  }

  lemma {:induction false} CountConcat(a: seq<Event>, b: seq<Event>, p: Event -> bool)
    ensures Count(a + b, p) == Count(a, p) + Count(b, p)
  {
    if b == [] {
      assert a + b == a;
    } else {
      var n := |b| - 1;
      assert (a + b)[..|a + b| - 1] == a + b[..n];
      CountConcat(a, b[..n], p);
    }
  }

  lemma {:induction false} CountZero(log: seq<Event>, p: Event -> bool)
    ensures Count(log, p) == 0 <==> forall e :: e in log ==> !p(e)
  {
    if log != [] {
      var n := |log| - 1;
      CountZero(log[..n], p);
      assert log == log[..n] + [log[n]];
    }
  }

  predicate IsOpenFill(e: Event) {
    e.Filled? && e.fill.FillPayload? && e.fill.action == "open" && ReadSide(e.fill.side).Some?
  }

  predicate IsCloseFill(e: Event) {
    e.Filled? && e.fill.FillPayload? && e.fill.action == "close"
  }

  function OpensOf(id: string): Event -> bool {
    (e: Event) => IsOpenFill(e) && e.fill.decision == id
  }

  function ClosesOf(id: string): Event -> bool {
    (e: Event) => IsCloseFill(e) && e.fill.decision == id
  }

  function ApprovalsOf(id: string): Event -> bool {
    (e: Event) => e.Approved? && e.ticket.id == id
  }

  function OperatorRejectsOf(id: string): Event -> bool {
    (e: Event) => e.OperatorRejected? && e.id == id
  }

  function ExpiriesOf(id: string): Event -> bool {
    (e: Event) => e.Expired? && e.id == id
  }
}
