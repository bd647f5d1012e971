/** What can cause an opening order, and what the kill switch therefore stops. */
module Openings {
  import opened Events
  import opened Ledger
  import opened Risk
  import opened Execution
  import opened Orders
  import opened Safety

  /** An opening order or its fill. */
  predicate IsOpening(e: Event) {
    IsOpenFill(e) || (e.Submitted? && e.intent == Open)
  }

  function DecisionOf(e: Event): string
    requires IsOpening(e)
  {
    if e.Filled? then e.fill.decision else e.decision
  }

  /** `d` has persisted everything `c` has, and since then opened nothing but `id`, if that is given. */
  ghost predicate OpensAtMost(c: Core, d: Core, id: Option<string>) {
    && c.log <= d.log
    && forall k :: |c.log| <= k < |d.log| && IsOpening(d.log[k]) ==> id == Some(DecisionOf(d.log[k]))
  }

  /** The decision a step can open: the one it approves in PAPER, or the queued one it executes. */
  function Openable(c: Core, s: Step): Option<string> {
    if c.mode == Paper then Approving(s)
    else if s.DoExecute? && Level(c.mode) >= Level(Assisted) && Has(c.pending, s.id) then Some(s.id)
    else None
  }

  lemma ClosedOpensNone(cfg: Settings, c: Core, instrument: string, now: int)
    ensures OpensAtMost(c, TryClose(cfg, c, instrument, now), None)
    ensures OpensAtMost(c, CloseOrDefer(cfg, c, instrument, now), None)
    ensures OpensAtMost(c, RetryDeferred(cfg, c, instrument, now), None)
  {
  }

  lemma ExpiriesOpenNone(cfg: Settings, c: Core, now: int)
    ensures OpensAtMost(c, ExpirePending(c, now), None) && OpensAtMost(c, ExpireStale(cfg, c, now), None)
    ensures OpensAtMost(c, ModeHandlers(c, now), None)
  {
  }

  lemma OpensChain(c: Core, d: Core, e: Core, id: Option<string>)
    requires OpensAtMost(c, d, id) && OpensAtMost(d, e, id)
    ensures OpensAtMost(c, e, id)
  {
  }

  lemma TickOpensNone(cfg: Settings, c: Core, instrument: string, price: Option<real>, now: int)
    ensures OpensAtMost(c, Tick(cfg, c, instrument, price, now), None)
  {
    var marked := Marked(c, instrument, price, now);
    var breach := Emit(marked, [LimitBreached(instrument, now)]);
    var watched := MonitorStop(cfg, marked, instrument, price, now);
    var retried := RetryDeferred(cfg, watched, instrument, now);
    ClosedOpensNone(cfg, breach, instrument, now);
    ClosedOpensNone(cfg, watched, instrument, now);
    ExpiriesOpenNone(cfg, retried, now);
    OpensChain(c, marked, breach, None);
    OpensChain(c, breach, TryClose(cfg, breach, instrument, now), None);
    OpensChain(c, watched, retried, None);
    OpensChain(c, retried, ExpireStale(cfg, retried, now), None);
  }

  lemma FillOpensOne(cfg: Settings, c: Core, t: Ticket, now: int)
    ensures OpensAtMost(c, TryOpen(cfg, c, t, now), Some(t.id))
  {
  }

  lemma ApprovedOpens(cfg: Settings, c: Core, t: Ticket, now: int)
    ensures OpensAtMost(c, HandleApproved(cfg, Emit(c, [Approved(t, now)]), t, now),
              if c.mode == Paper then Some(t.id) else None)
  {
    var d := Emit(c, [Approved(t, now)]);
    FillOpensOne(cfg, d, t, now);
    if c.mode == Paper { OpensChain(c, d, TryOpen(cfg, d, t, now), Some(t.id)); }
  }

  lemma HaltOpensNone(cfg: Settings, c: Core, now: int)
    ensures OpensAtMost(c, Halt(c, now), None)
  {
    var halted := Emit(c.(mode := Observe), [Halted(now)]);
    var flushed := ExpirePending(halted, now);
    ExpiriesOpenNone(cfg, halted, now);
    OpensChain(c, halted, flushed, None);
    var changed := Emit(flushed, [ModeChanged(Observe, now)]);
    OpensChain(c, flushed, changed, None);
    ExpiriesOpenNone(cfg, changed, now);
    OpensChain(c, changed, ModeHandlers(changed, now), None);
  }

  /** Every opening order and fill of a step belongs to the one decision the step can open; in OBSERVE there is none. */
  lemma StepOpens(cfg: Settings, c: Core, s: Step)
    ensures OpensAtMost(c, Next(cfg, c, s), Openable(c, s))
    ensures c.mode == Observe ==> Openable(c, s) == None
  {
    match s {
      case DoTick(instrument, price, now) => TickOpensNone(cfg, c, instrument, price, now);
      case DoPropose(id, instrument, side, now) =>
        var verdict := Evaluate(cfg, c.mode, c.book, instrument, side, now);
        if verdict.Cleared? {
          ApprovedOpens(cfg, c, Ticket(id, instrument, side, verdict.size, Some(verdict.stop)), now);
        }
      case DoRedeliver(t, now) => ApprovedOpens(cfg, c, t, now);
      case DoExecute(id, now) => ExecuteOpens(cfg, c, id, now);
      case DoReject(id, now) =>
      case DoClose(instrument, now) => ClosedOpensNone(cfg, c, instrument, now);
      case DoInvalidate(instrument, now) =>
        var d := Emit(c, [ThesisInvalidated(instrument, now)]);
        ClosedOpensNone(cfg, d, instrument, now);
        OpensChain(c, d, CloseOrDefer(cfg, d, instrument, now), None);
      case DoSetMode(to, now) =>
        var d := Emit(c.(mode := to), [ModeChanged(to, now)]);
        ExpiriesOpenNone(cfg, d, now);
        OpensChain(c, d, ModeHandlers(d, now), None);
      case DoHalt(now) => HaltOpensNone(cfg, c, now);
    }
  }

  lemma ExecuteOpens(cfg: Settings, c: Core, id: string, now: int)
    ensures OpensAtMost(c, Execute(cfg, c, id, now).0, Openable(c, DoExecute(id, now)))
  {
    if Level(c.mode) >= Level(Assisted) && Has(c.pending, id) {
      FindElement(c.pending, id);
      var parked := Find(c.pending, id);
      var d := c.(pending := Without(c.pending, id));
      var verdict := Evaluate(cfg, d.mode, d.book, parked.ticket.instrument, parked.ticket.side, now);
      if verdict.Cleared? {
        FillOpensOne(cfg, d, parked.ticket.(size := verdict.size, stop := Some(verdict.stop)), now);
      }
    }
  }

  // ---------- the gates, over every open ----------

  /** Some order was opened between the two states. */
  ghost predicate OpenedSince(c: Core, d: Core) {
    exists k :: |c.log| <= k < |d.log| && IsOpening(d.log[k])
  }

  /** Every open of a checked step happened with room for a position, the instrument free,
      and the day's realized loss below its limit. */
  lemma OpenPassesGates(cfg: Settings, c: Core, s: Step)
    requires Checked(s) && OpenedSince(c, Next(cfg, c, s))
    ensures c.mode != Observe && |c.book.positions| < cfg.maxOpenPositions
    ensures 0.0 < TotalValue(c.book) && BelowDailyLimit(cfg, c.book, TotalValue(c.book), cfg.tradingDay(s.now))
    ensures exists t :: ClearedTicket(cfg, c, t, s.now) && t.instrument !in c.book.positions
              && Openable(c, s) == Some(t.id) && WithinLimits(cfg, TotalValue(c.book), t.size)
  {
    StepOpens(cfg, c, s);
    var t := ClearedBy(cfg, c, s);
    ClearedMeans(cfg, c.mode, c.book, t.instrument, t.side, s.now);
  }

  lemma ClearedBy(cfg: Settings, c: Core, s: Step) returns (t: Ticket)
    requires Checked(s) && OpenedSince(c, Next(cfg, c, s)) && Openable(c, s).Some?
    ensures ClearedTicket(cfg, c, t, s.now) && Openable(c, s) == Some(t.id)
  {
    match s {
      case DoPropose(id, instrument, side, now) =>
        var verdict := Evaluate(cfg, c.mode, c.book, instrument, side, now);
        assert verdict.Cleared?;
        t := Ticket(id, instrument, side, verdict.size, Some(verdict.stop));
      case DoExecute(id, now) =>
        FindElement(c.pending, id);
        var parked := Find(c.pending, id);
        var d := c.(pending := Without(c.pending, id));
        var verdict := Evaluate(cfg, d.mode, d.book, parked.ticket.instrument, parked.ticket.side, now);
        assert verdict.Cleared?;
        t := parked.ticket.(size := verdict.size, stop := Some(verdict.stop));
    }
  }

  // ---------- the kill switch ----------

  /** A halt, or a permitted change to a mode without execution authority. */
  predicate Demotes(c: Core, s: Step) {
    s.DoHalt? || (s.DoSetMode? && s.to != c.mode && s.to in ValidTransitions(c.mode) && Level(s.to) < Level(Assisted))
  }

  lemma DemotionFlushes(cfg: Settings, c: Core, s: Step)
    requires Demotes(c, s)
    ensures Next(cfg, c, s).pending == []
  {
  }

  lemma NeverWaitsAgain(cfg: Settings, c: Core, s: Step, id: string)
    requires !Has(c.pending, id) && Approving(s) != Some(id)
    ensures !Has(Next(cfg, c, s).pending, id) && Openable(c, s) != Some(id)
  {
    PendingFromApproval(cfg, c, s);
    var q := Next(cfg, c, s).pending;
    forall k | 0 <= k < |q|
      ensures q[k].ticket.id != id
    {
      assert q[k] in q;
      if q[k] in c.pending {
        var j :| 0 <= j < |c.pending| && c.pending[j] == q[k];
      }
    }
  }

  ghost predicate OpensNot(c: Core, d: Core, id: string) {
    c.log <= d.log && forall k :: |c.log| <= k < |d.log| && IsOpening(d.log[k]) ==> DecisionOf(d.log[k]) != id
  }

  function OpeningsOf(id: string): Event -> bool {
    (e: Event) => IsOpening(e) && DecisionOf(e) == id
  }

  lemma OpensNotCounts(c: Core, d: Core, id: string)
    requires OpensNot(c, d, id)
    ensures Count(d.log, OpeningsOf(id)) == Count(c.log, OpeningsOf(id))
  {
    var added := d.log[|c.log|..];
    assert d.log == c.log + added;
    CountConcat(c.log, added, OpeningsOf(id));
    forall e | e in added
      ensures !OpeningsOf(id)(e)
    {
      var k :| 0 <= k < |added| && added[k] == e;
      assert d.log[|c.log| + k] == e;
    }
    CountZero(added, OpeningsOf(id));
  }

  /** A decision that is not waiting is not opened by any run that does not approve it. */
  lemma {:induction false} NotWaitingNotOpened(cfg: Settings, c: Core, steps: seq<Step>, id: string)
    requires !Has(c.pending, id) && forall s :: s in steps ==> Approving(s) != Some(id)
    ensures OpensNot(c, Run(cfg, c, steps), id) && !Has(Run(cfg, c, steps).pending, id)
  {
    if steps != [] {
      var before, s := steps[..|steps| - 1], steps[|steps| - 1];
      NotWaitingNotOpened(cfg, c, before, id);
      StepOpens(cfg, Run(cfg, c, before), s);
      NeverWaitsAgain(cfg, Run(cfg, c, before), s, id);
    }
  }

  /** The kill switch: after a halt or a demotion nothing that was queued is opened, whatever follows, unless approved anew. */
  lemma KillSwitch(cfg: Settings, c: Core, s: Step, steps: seq<Step>, id: string)
    requires Demotes(c, s)
    requires forall t :: t in steps ==> Approving(t) != Some(id)
    ensures Next(cfg, c, s).pending == []
    ensures OpensNot(Next(cfg, c, s), Run(cfg, Next(cfg, c, s), steps), id)
  {
    DemotionFlushes(cfg, c, s);
    NotWaitingNotOpened(cfg, Next(cfg, c, s), steps, id);
  }

  lemma FillKeepsMode(cfg: Settings, c: Core, t: Ticket, now: int)
    ensures TryOpen(cfg, c, t, now).mode == c.mode
  {
    hide OpenPrice, OpenFill, HandleFill;
  }

  lemma CloseKeepsMode(cfg: Settings, c: Core, instrument: string, now: int)
    ensures TryClose(cfg, c, instrument, now).mode == c.mode
    ensures CloseOrDefer(cfg, c, instrument, now).mode == c.mode
    ensures RetryDeferred(cfg, c, instrument, now).mode == c.mode
  {
    hide CloseFill, HandleFill;
  }

  lemma TickKeepsMode(cfg: Settings, c: Core, instrument: string, price: Option<real>, now: int)
    ensures Tick(cfg, c, instrument, price, now).mode == c.mode
  {
    hide TryClose, RetryDeferred, HandleTick;
    var marked := Marked(c, instrument, price, now);
    CloseKeepsMode(cfg, Emit(marked, [LimitBreached(instrument, now)]), instrument, now);
    CloseKeepsMode(cfg, MonitorStop(cfg, marked, instrument, price, now), instrument, now);
  }

  lemma ExecuteKeepsMode(cfg: Settings, c: Core, id: string, now: int)
    ensures Execute(cfg, c, id, now).0.mode == c.mode
  {
    hide TryOpen, Evaluate;
    if Level(c.mode) >= Level(Assisted) && Has(c.pending, id) {
      var parked := Find(c.pending, id);
      var d := c.(pending := Without(c.pending, id));
      var verdict := Evaluate(cfg, d.mode, d.book, parked.ticket.instrument, parked.ticket.side, now);
      if verdict.Cleared? {
        FillKeepsMode(cfg, d, parked.ticket.(size := verdict.size, stop := Some(verdict.stop)), now);
      }
    }
  }

  lemma ProposeKeepsMode(cfg: Settings, c: Core, id: string, instrument: string, side: Side, now: int)
    ensures Propose(cfg, c, id, instrument, side, now).mode == c.mode
  {
    hide TryOpen, Evaluate;
    var verdict := Evaluate(cfg, c.mode, c.book, instrument, side, now);
    if verdict.Cleared? {
      var t := Ticket(id, instrument, side, verdict.size, Some(verdict.stop));
      FillKeepsMode(cfg, Emit(c, [Approved(t, now)]), t, now);
    }
  }

  /** Only the operator's mode changes and the halt touch the mode, and a halt only lowers it. */
  lemma ModeMoves(cfg: Settings, c: Core, s: Step)
    ensures Next(cfg, c, s).mode ==
              match s
              case DoSetMode(to, _) => if to in ValidTransitions(c.mode) then to else c.mode
              case DoHalt(_) => Observe
              case _ => c.mode
  {
    hide Tick, Propose, Execute, CloseOrDefer, TryClose, TryOpen;
    match s {
      case DoTick(instrument, price, now) => TickKeepsMode(cfg, c, instrument, price, now);
      case DoPropose(id, instrument, side, now) => ProposeKeepsMode(cfg, c, id, instrument, side, now);
      case DoRedeliver(t, now) => FillKeepsMode(cfg, Emit(c, [Approved(t, now)]), t, now);
      case DoExecute(id, now) => ExecuteKeepsMode(cfg, c, id, now);
      case DoClose(instrument, now) => CloseKeepsMode(cfg, c, instrument, now);
      case DoInvalidate(instrument, now) =>
        CloseKeepsMode(cfg, Emit(c, [ThesisInvalidated(instrument, now)]), instrument, now);
      case _ =>
    }
  }

  /** The ladder: every other mode may go to OBSERVE and to ASSISTED, every move starts or ends at OBSERVE or ASSISTED,
      and neither mode beyond ASSISTED is ever entered. */
  lemma LadderRules(from: Mode, to: Mode)
    ensures from != Observe ==> Observe in ValidTransitions(from)
    ensures from != Assisted ==> Assisted in ValidTransitions(from)
    ensures to in ValidTransitions(from) ==> to != from && Level(to) <= Level(Assisted)
    ensures to in ValidTransitions(from) ==> from == Observe || from == Assisted || to == Observe || to == Assisted
    ensures Level(from) <= Level(Assisted) && Level(to) <= Level(Assisted) && from != to ==> to in ValidTransitions(from)
  {
  }

  /** From OBSERVE a process only ever reaches OBSERVE, PAPER and ASSISTED. */
  lemma {:induction false} WiredModes(cfg: Settings, c: Core, steps: seq<Step>)
    requires Level(c.mode) <= Level(Assisted)
    ensures Level(Run(cfg, c, steps).mode) <= Level(Assisted)
  {
    if steps != [] {
      var before, s := Run(cfg, c, steps[..|steps| - 1]), steps[|steps| - 1];
      WiredModes(cfg, c, steps[..|steps| - 1]);
      ModeMoves(cfg, before, s);
      if s.DoSetMode? { LadderRules(before.mode, s.to); }
      hide Next, ValidTransitions;
    }
  }
}
