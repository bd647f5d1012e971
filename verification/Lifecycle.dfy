/** Every approved decision leaves the queue exactly once, and the queue can be rebuilt from the stream. */
module Lifecycle {
  import opened Events
  import opened Pricing
  import opened Risk
  import opened Execution
  import opened Orders
  import opened Safety
  import opened Account

  /** A fill that startup counts as an execution. */
  predicate IsExecution(e: Event) {
    e.Filled? && e.fill.FillPayload? && e.fill.action == "open"
  }

  function ExecutionsOf(id: string): Event -> bool {
    (e: Event) => IsExecution(e) && e.fill.decision == id
  }

  /** Opened, rejected by the operator, or expired. */
  function SettlesOf(id: string): Event -> bool {
    (e: Event) => ExecutionsOf(id)(e) || OperatorRejectsOf(id)(e) || ExpiriesOf(id)(e)
  }

  predicate IsTerminal(e: Event) {
    IsExecution(e) || e.RiskRejected? || e.OperatorRejected? || e.Expired?
  }

  function TerminalId(e: Event): string
    requires IsTerminal(e)
  {
    if e.Filled? then e.fill.decision else e.id
  }

  /** The ids startup treats as settled: executed, rejected or expired. */
  function TerminalIds(log: seq<Event>): set<string> {
    set e | e in log && IsTerminal(e) :: TerminalId(e)
  }

  /** The approvals in arrival order, as queue entries; an approval without an id is never parked. */
  function ApprovedQueue(log: seq<Event>): seq<Parked> {
    if log == [] then []
    else
      var e := log[|log| - 1];
      ApprovedQueue(log[..|log| - 1])
      + if e.Approved? && e.ticket.id != "" then [Parked(e.ticket, e.time)] else []
  }

  function Drop(q: seq<Parked>, ids: set<string>): seq<Parked> {
    if q == [] then []
    else Drop(q[..|q| - 1], ids) + if q[|q| - 1].ticket.id in ids then [] else [q[|q| - 1]]
  }

  /** What the stream says is still waiting for the operator. */
  function Unsettled(log: seq<Event>): seq<Parked> {
    Drop(ApprovedQueue(log), TerminalIds(log))
  }

  ghost predicate DistinctIds(q: seq<Parked>) {
    forall j, k :: 0 <= j < k < |q| ==> q[j].ticket.id != q[k].ticket.id
  }

  function Waiting(q: seq<Parked>, id: string): nat {
    if Has(q, id) then 1 else 0
  }

  /** Approvals of one id are waiting or settled. */
  ghost predicate Balanced(log: seq<Event>, q: seq<Parked>, id: string) {
    Count(log, ApprovalsOf(id)) == Waiting(q, id) + Count(log, SettlesOf(id))
  }

  ghost predicate QueueInv(c: Core) {
    && DistinctIds(c.pending) && !Has(c.pending, "")
    && c.pending == Unsettled(c.log)
    && (forall id :: id != "" ==> Balanced(c.log, c.pending, id))
    && (forall id :: Count(c.log, ApprovalsOf(id)) <= 1)
    && (forall id :: OrderKey(id, Open) in c.submitted ==> Count(c.log, OpensOf(id)) >= 1)
  }

  predicate FillOf(approval: Event, fill: Event) {
    approval.Approved? && approval.ticket.id != "" && IsOpenFill(fill) && fill.fill.decision == approval.ticket.id
  }

  /** Every fill of an approval happened strictly within the time to live. */
  ghost predicate AgeInv(cfg: Settings, c: Core) {
    && (forall x, e :: x in c.pending && e in c.log && e.Approved? && e.ticket.id == x.ticket.id ==> e.time == x.approvedAt)
    && (forall e, f :: e in c.log && f in c.log && FillOf(e, f) ==> f.time - e.time < cfg.pendingTtl)
  }

  /** The modes this version can be in. */
  predicate Wired(c: Core) {
    c.mode == Observe || c.mode == Paper || c.mode == Assisted
  }

  /** Settings under which a cleared ticket always fills. */
  predicate FillSettings(cfg: Settings) {
    0.0 <= cfg.slippage < 1.0 && 0.0 < cfg.minTradeSize && 0 < cfg.pendingTtl
  }

  /** No approval is re-delivered, and no decision is proposed once it has had a verdict. */
  predicate OneVerdict(c: Core, s: Step) {
    && !s.DoRedeliver?
    && (s.DoPropose? ==> Count(c.log, ApprovalsOf(s.id)) == 0 && s.id !in TerminalIds(c.log))
  }

  // ---------- the queue as a list ----------

  lemma {:induction false} HasElement(q: seq<Parked>, id: string)
    ensures Has(q, id) <==> exists x :: x in q && x.ticket.id == id
  {
    if Has(q, id) {
      var k :| 0 <= k < |q| && q[k].ticket.id == id;
      assert q[k] in q;
    }
    if x :| x in q && x.ticket.id == id {
      var k :| 0 <= k < |q| && q[k] == x;
      assert q[k].ticket.id == id;
    }
  }

  lemma {:induction false} DropElements(q: seq<Parked>, ids: set<string>)
    ensures forall x :: x in Drop(q, ids) <==> x in q && x.ticket.id !in ids
  {
    if q != [] {
      var n := |q| - 1;
      DropElements(q[..n], ids);
      assert q == q[..n] + [q[n]];
    }
  }

  lemma {:induction false} DropTwice(q: seq<Parked>, a: set<string>, b: set<string>)
    ensures Drop(Drop(q, a), b) == Drop(q, a + b)
  {
    if q != [] {
      var n := |q| - 1;
      DropTwice(q[..n], a, b);
      var d := Drop(q[..n], a);
      assert (d + [q[n]])[..|d|] == d;
      assert d + [] == d;
    }
  }

  lemma {:induction false} DropNothing(q: seq<Parked>, ids: set<string>)
    requires forall x :: x in q ==> x.ticket.id !in ids
    ensures Drop(q, ids) == q
  {
    if q != [] {
      var n := |q| - 1;
      DropNothing(q[..n], ids);
      assert q == q[..n] + [q[n]];
    }
  }

  lemma {:induction false} DropPrefix(q: seq<Parked>, ids: set<string>)
    requires q != []
    ensures Drop(q, ids) == (if q[0].ticket.id in ids then [] else [q[0]]) + Drop(q[1..], ids)
  {
    var n := |q| - 1;
    if n > 0 {
      DropPrefix(q[..n], ids);
      assert q[..n][1..] == q[1..][..n - 1];
      assert q[1..][n - 1] == q[n];
    }
  }

  lemma {:induction false} WithoutIsDrop(q: seq<Parked>, id: string)
    ensures Without(q, id) == Drop(q, {id})
  {
    if q != [] {
      DropPrefix(q, {id});
      WithoutIsDrop(q[1..], id);
    }
  }

  function Ids(q: seq<Parked>): set<string> {
    set x | x in q :: x.ticket.id
  }

  // With distinct ids, keeping the live entries is dropping the stale ids.
  lemma {:induction false} LiveIsDrop(cfg: Settings, q: seq<Parked>, now: int, ids: set<string>)
    requires forall x :: x in q ==> (x.ticket.id in ids <==> IsExpired(cfg, x, now))
    ensures Live(cfg, q, now) == Drop(q, ids)
  {
    if q != [] {
      DropPrefix(q, ids);
      assert q[0] in q;
      forall x | x in q[1..] ensures x in q { }
      LiveIsDrop(cfg, q[1..], now, ids);
    }
  }

  lemma {:induction false} PutIsAppend(q: seq<Parked>, parked: Parked)
    requires !Has(q, parked.ticket.id)
    ensures Put(q, parked) == q + [parked]
  {
    if q != [] {
      assert q[0].ticket.id != parked.ticket.id;
      forall k | 0 <= k < |q[1..]| ensures q[1..][k].ticket.id != parked.ticket.id {
        assert q[1..][k] == q[k + 1];
      }
      PutIsAppend(q[1..], parked);
      assert q == [q[0]] + q[1..];
    }
  }

  lemma DistinctSplit(q: seq<Parked>)
    requires DistinctIds(q) && q != []
    ensures DistinctIds(q[1..]) && !Has(q[1..], q[0].ticket.id)
  {
    forall k | 0 <= k < |q[1..]| ensures q[1..][k].ticket.id != q[0].ticket.id {
      assert q[1..][k] == q[k + 1];
    }
  }

  lemma {:induction false} DropDistinct(q: seq<Parked>, ids: set<string>)
    requires DistinctIds(q)
    ensures DistinctIds(Drop(q, ids))
  {
    if q != [] {
      DistinctSplit(q);
      DropDistinct(q[1..], ids);
      DropPrefix(q, ids);
      DropElements(q[1..], ids);
      var d := Drop(q[1..], ids);
      forall k | 0 <= k < |d| ensures d[k].ticket.id != q[0].ticket.id {
        assert d[k] in q[1..];
        HasElement(q[1..], q[0].ticket.id);
      }
    }
  }

  lemma HasDrop(q: seq<Parked>, ids: set<string>, id: string)
    ensures Has(Drop(q, ids), id) <==> Has(q, id) && id !in ids
  {
    DropElements(q, ids);
    HasElement(q, id);
    HasElement(Drop(q, ids), id);
  }

  // ---------- what events add ----------

  lemma CountOne(log: seq<Event>, e: Event, p: Event -> bool)
    ensures Count(log + [e], p) == Count(log, p) + if p(e) then 1 else 0
  {
    assert (log + [e])[..|log|] == log;
  }

  lemma ApprovedQueueOne(log: seq<Event>, e: Event)
    ensures ApprovedQueue(log + [e])
            == ApprovedQueue(log) + if e.Approved? && e.ticket.id != "" then [Parked(e.ticket, e.time)] else []
  {
    assert (log + [e])[..|log|] == log;
  }

  lemma TerminalOne(log: seq<Event>, e: Event)
    ensures TerminalIds(log + [e]) == TerminalIds(log) + if IsTerminal(e) then {TerminalId(e)} else {}
  {
  }

  // Whatever is in the queue was approved under that id.
  lemma {:induction false} ApprovedQueueCounts(log: seq<Event>, id: string)
    ensures Has(ApprovedQueue(log), id) ==> Count(log, ApprovalsOf(id)) >= 1
    ensures !Has(ApprovedQueue(log), "")
  {
    if log != [] {
      var n := |log| - 1;
      ApprovedQueueCounts(log[..n], id);
      var q := ApprovedQueue(log[..n]);
      if Has(ApprovedQueue(log), id) && !Has(q, id) {
        var k :| 0 <= k < |ApprovedQueue(log)| && ApprovedQueue(log)[k].ticket.id == id;
        assert k >= |q|;
      }
      forall k | 0 <= k < |ApprovedQueue(log)|
        ensures ApprovedQueue(log)[k].ticket.id != ""
      {
        if k < |q| { assert ApprovedQueue(log)[k] == q[k]; }
      }
    }
  }

  /** One more event: the waiting list loses the ids it settles and gains a fresh approval. */
  lemma UnsettledOne(log: seq<Event>, e: Event)
    requires e.Approved? ==> e.ticket.id !in TerminalIds(log)
    ensures Unsettled(log + [e]) ==
              if e.Approved? && e.ticket.id != "" then Unsettled(log) + [Parked(e.ticket, e.time)]
              else if IsTerminal(e) then Drop(Unsettled(log), {TerminalId(e)})
              else Unsettled(log)
  {
    ApprovedQueueOne(log, e);
    TerminalOne(log, e);
    var q := ApprovedQueue(log);
    if e.Approved? && e.ticket.id != "" {
      var x := Parked(e.ticket, e.time);
      assert (q + [x])[..|q|] == q;
      assert TerminalIds(log + [e]) == TerminalIds(log);
    } else {
      assert ApprovedQueue(log + [e]) == q;
      if IsTerminal(e) {
        DropTwice(q, TerminalIds(log), {TerminalId(e)});
        assert TerminalIds(log + [e]) == TerminalIds(log) + {TerminalId(e)};
      } else {
        assert TerminalIds(log + [e]) == TerminalIds(log);
      }
    }
  }

  lemma DropAbsent(q: seq<Parked>, id: string)
    requires !Has(q, id)
    ensures Drop(q, {id}) == q
  {
    HasElement(q, id);
    DropNothing(q, {id});
  }

  /** What one event does to the waiting list. */
  function Absorb(q: seq<Parked>, e: Event): seq<Parked> {
    if e.Approved? && e.ticket.id != "" then q + [Parked(e.ticket, e.time)]
    else if IsTerminal(e) then Drop(q, {TerminalId(e)})
    else q
  }

  /** A verdict comes once, and only a waiting decision is settled. */
  ghost predicate Orderly(c: Core, e: Event) {
    && (e.Approved? ==> Count(c.log, ApprovalsOf(e.ticket.id)) == 0 && e.ticket.id !in TerminalIds(c.log))
    && (e.RiskRejected? ==> Count(c.log, ApprovalsOf(e.id)) == 0)
    && (IsTerminal(e) && !e.RiskRejected? ==> TerminalId(e) == "" || Has(c.pending, TerminalId(e)))
  }

  lemma WaitingAppend(q: seq<Parked>, x: Parked, id: string)
    ensures Has(q + [x], id) <==> Has(q, id) || x.ticket.id == id
  {
    HasElement(q, id);
    HasElement(q + [x], id);
  }

  // Nothing waits under an id that was never approved.
  lemma NotApprovedNotWaiting(c: Core, id: string)
    requires QueueInv(c) && Count(c.log, ApprovalsOf(id)) == 0
    ensures !Has(c.pending, id)
  {
    assert id != "" ==> Balanced(c.log, c.pending, id);
  }

  /** The event settles `id`: a fill, an operator's rejection or an expiry. */
  predicate Settles(e: Event, id: string) {
    IsTerminal(e) && !e.RiskRejected? && id == TerminalId(e)
  }

  lemma EventCounts(log: seq<Event>, e: Event, id: string)
    ensures Count(log + [e], ApprovalsOf(id)) == Count(log, ApprovalsOf(id)) + if e.Approved? && e.ticket.id == id then 1 else 0
    ensures Count(log + [e], SettlesOf(id)) == Count(log, SettlesOf(id)) + if Settles(e, id) then 1 else 0
    ensures Count(log + [e], OpensOf(id)) == Count(log, OpensOf(id)) + if IsOpenFill(e) && e.fill.decision == id then 1 else 0
  {
    CountOne(log, e, ApprovalsOf(id));
    CountOne(log, e, SettlesOf(id));
    CountOne(log, e, OpensOf(id));
    assert ExecutionsOf(id)(e) <==> IsExecution(e) && e.fill.decision == id;
    assert OperatorRejectsOf(id)(e) <==> e.OperatorRejected? && e.id == id;
    assert ExpiriesOf(id)(e) <==> e.Expired? && e.id == id;
  }

  lemma EventBalances(c: Core, e: Event, id: string)
    requires QueueInv(c) && Orderly(c, e) && id != ""
    ensures Balanced(c.log + [e], Absorb(c.pending, e), id)
    ensures Count(c.log + [e], ApprovalsOf(id)) <= 1
  {
    EventCounts(c.log, e, id);
    assert Balanced(c.log, c.pending, id);
    if e.Approved? {
      WaitingAppend(c.pending, Parked(e.ticket, e.time), id);
      NotApprovedNotWaiting(c, e.ticket.id);
    } else if IsTerminal(e) {
      HasDrop(c.pending, {TerminalId(e)}, id);
      if e.RiskRejected? { NotApprovedNotWaiting(c, e.id); }
    }
  }

  lemma AbsorbDistinct(c: Core, e: Event)
    requires QueueInv(c) && Orderly(c, e)
    ensures DistinctIds(Absorb(c.pending, e)) && !Has(Absorb(c.pending, e), "")
  {
    if e.Approved? && e.ticket.id != "" {
      NotApprovedNotWaiting(c, e.ticket.id);
      WaitingAppend(c.pending, Parked(e.ticket, e.time), "");
    } else if IsTerminal(e) {
      DropDistinct(c.pending, {TerminalId(e)});
      HasDrop(c.pending, {TerminalId(e)}, "");
    }
  }

  lemma EventKeepsQueue(c: Core, d: Core, e: Event)
    requires QueueInv(c) && Orderly(c, e)
    requires d.log == c.log + [e] && d.pending == Absorb(c.pending, e)
    requires forall id :: OrderKey(id, Open) in d.submitted ==>
               OrderKey(id, Open) in c.submitted || (IsOpenFill(e) && e.fill.decision == id)
    ensures QueueInv(d)
  {
    UnsettledOne(c.log, e);
    AbsorbDistinct(c, e);
    forall id | id != ""
      ensures Balanced(d.log, d.pending, id)
    {
      EventBalances(c, e, id);
    }
    forall id
      ensures Count(d.log, ApprovalsOf(id)) <= 1
      ensures Count(d.log, OpensOf(id)) == Count(c.log, OpensOf(id)) + if IsOpenFill(e) && e.fill.decision == id then 1 else 0
    {
      EventCounts(c.log, e, id);
    }
  }

  lemma EventKeepsAge(cfg: Settings, c: Core, d: Core, e: Event)
    requires QueueInv(c) && AgeInv(cfg, c) && Orderly(c, e)
    requires d.log == c.log + [e] && d.pending == Absorb(c.pending, e)
    requires IsOpenFill(e) ==>
               forall x :: x in c.pending && x.ticket.id == e.fill.decision ==> e.time - x.approvedAt < cfg.pendingTtl
    ensures AgeInv(cfg, d)
  {
    if e.Approved? {
      CountZero(c.log, ApprovalsOf(e.ticket.id));
      NotApprovedNotWaiting(c, e.ticket.id);
      HasElement(c.pending, e.ticket.id);
      assert forall f :: f in c.log && IsTerminal(f) ==> TerminalId(f) in TerminalIds(c.log);
    } else if IsTerminal(e) {
      DropElements(c.pending, {TerminalId(e)});
      if IsOpenFill(e) {
        HasElement(c.pending, e.fill.decision);
      }
    }
  }

  ghost predicate LifeInv(cfg: Settings, c: Core) {
    QueueInv(c) && AgeInv(cfg, c)
  }

  lemma EventKeepsLife(cfg: Settings, c: Core, d: Core, e: Event)
    requires LifeInv(cfg, c) && Orderly(c, e) && !IsOpenFill(e)
    requires d.log == c.log + [e] && d.pending == Absorb(c.pending, e) && d.submitted == c.submitted
    ensures LifeInv(cfg, d)
  {
    EventKeepsQueue(c, d, e);
    EventKeepsAge(cfg, c, d, e);
  }

  lemma MarkedLives(cfg: Settings, c: Core, instrument: string, price: Option<real>, now: int)
    requires LifeInv(cfg, c)
    ensures LifeInv(cfg, Marked(c, instrument, price, now))
  {
    EventKeepsLife(cfg, c, Marked(c, instrument, price, now), Ticked(instrument, price, now));
  }

  lemma ClosedLives(cfg: Settings, c: Core, instrument: string, now: int)
    requires LifeInv(cfg, c) && CanClose(c, instrument)
    ensures LifeInv(cfg, Closed(cfg, c, instrument, now))
  {
    var p := c.book.positions[instrument];
    var key := Submitted(OrderKey(p.decision, Close), Close, p.decision, now);
    var fill := CloseFill(cfg, instrument, p, c.book.prices[instrument]);
    var e := c.(log := c.log + [key]);
    EventKeepsLife(cfg, c, e, key);
    var d := Closed(cfg, c, instrument, now);
    assert d.log == e.log + [Filled(fill, now)];
    forall id | OrderKey(id, Open) in d.submitted
      ensures OrderKey(id, Open) in e.submitted
    {
      if OrderKey(id, Open) == OrderKey(p.decision, Close) { OrderKeyInjective(id, Open, p.decision, Close); }
    }
    EventKeepsQueue(e, d, Filled(fill, now));
    EventKeepsAge(cfg, e, d, Filled(fill, now));
  }

  // A waiting decision's open key is free.
  lemma WaitingKeyFree(c: Core, id: string)
    requires QueueInv(c) && (Has(c.pending, id) || Count(c.log, ApprovalsOf(id)) == 0)
    requires id != ""
    ensures OrderKey(id, Open) !in c.submitted
  {
    OpensAreSettlements(c.log, id);
    assert Balanced(c.log, c.pending, id);
  }

  /** The three ways out of the queue are disjoint. */
  lemma {:induction false} SettlesSplit(log: seq<Event>, id: string)
    ensures Count(log, SettlesOf(id))
            == Count(log, ExecutionsOf(id)) + Count(log, OperatorRejectsOf(id)) + Count(log, ExpiriesOf(id))
  {
    if log != [] { SettlesSplit(log[..|log| - 1], id); }
  }

  lemma {:induction false} OpensAreSettlements(log: seq<Event>, id: string)
    ensures Count(log, OpensOf(id)) <= Count(log, SettlesOf(id))
  {
    if log != [] {
      var e := log[|log| - 1];
      OpensAreSettlements(log[..|log| - 1], id);
      assert OpensOf(id)(e) ==> ExecutionsOf(id)(e);
      assert SettlesOf(id)(e) <==> ExecutionsOf(id)(e) || OperatorRejectsOf(id)(e) || ExpiriesOf(id)(e);
    }
  }

  /** A cleared ticket fills; the waiting entry it came from leaves the queue in the same step. */
  lemma FillLives(cfg: Settings, c: Core, d: Core, t: Ticket, now: int)
    requires LifeInv(cfg, c) && FillSettings(cfg) && t.id != "" && Has(c.pending, t.id)
    requires d == c.(pending := Drop(c.pending, {t.id}))
    requires forall x :: x in c.pending && x.ticket.id == t.id ==> now - x.approvedAt < cfg.pendingTtl
    requires ClearedTicket(cfg, c, t, now)
    ensures LifeInv(cfg, TryOpen(cfg, d, t, now))
    ensures Count(TryOpen(cfg, d, t, now).log, OpensOf(t.id)) == Count(c.log, OpensOf(t.id)) + 1
  {
    WaitingKeyFree(c, t.id);
    ClearedMeans(cfg, c.mode, c.book, t.instrument, t.side, now);
    assert CanOpen(d, t);
    var fillPrice := OpenPrice(cfg, t.side, c.book.prices[t.instrument]);
    OpenPriceNonzero(cfg, t.side, c.book.prices[t.instrument]);
    FilledLives(cfg, c, TryOpen(cfg, d, t, now), t.id, OpenFill(cfg, t, fillPrice), now);
  }

  lemma OpenPriceNonzero(cfg: Settings, side: Side, price: real)
    requires 0.0 <= cfg.slippage < 1.0 && price != 0.0
    ensures OpenPrice(cfg, side, price) != 0.0
  {
    SlippedNonzero(cfg, side, price);
    NeverCollapses(PRICE_SIG_FIGS);
  }

  lemma SlippedNonzero(cfg: Settings, side: Side, price: real)
    requires 0.0 <= cfg.slippage < 1.0 && price != 0.0
    ensures SlippedPrice(cfg, side, price) != 0.0
  {
    if 0.0 < price {
      SlippedPositive(cfg, side, price);
    } else {
      SlippedPositive(cfg, side, -price);
      assert SlippedPrice(cfg, side, -price) == -SlippedPrice(cfg, side, price);
    }
  }

  lemma FilledLives(cfg: Settings, c: Core, d: Core, id: string, f: FillPayload, now: int)
    requires LifeInv(cfg, c) && id != "" && Has(c.pending, id)
    requires f.FillPayload? && f.decision == id && IsOpenFill(Filled(f, now))
    requires d.log == c.log + [Submitted(OrderKey(id, Open), Open, id, now)] + [Filled(f, now)]
    requires d.submitted == c.submitted + {OrderKey(id, Open)} && d.pending == Drop(c.pending, {id})
    requires forall x :: x in c.pending && x.ticket.id == id ==> now - x.approvedAt < cfg.pendingTtl
    ensures LifeInv(cfg, d)
    ensures Count(d.log, OpensOf(id)) == Count(c.log, OpensOf(id)) + 1
  {
    var key := Submitted(OrderKey(id, Open), Open, id, now);
    var e := c.(log := c.log + [key]);
    EventKeepsLife(cfg, c, e, key);
    forall other | OrderKey(other, Open) == OrderKey(id, Open)
      ensures other == id
    {
      OrderKeyInjective(other, Open, id, Open);
    }
    EventKeepsQueue(e, d, Filled(f, now));
    EventKeepsAge(cfg, e, d, Filled(f, now));
    CountOne(c.log, key, OpensOf(id));
    CountOne(e.log, Filled(f, now), OpensOf(id));
  }

  lemma ExpiredLives(cfg: Settings, c: Core, d: Core, id: string, now: int)
    requires LifeInv(cfg, c) && Has(c.pending, id)
    requires d.log == c.log + [Expired(id, now)] && d.pending == Drop(c.pending, {id}) && d.submitted == c.submitted
    ensures LifeInv(cfg, d)
  {
    EventKeepsLife(cfg, c, d, Expired(id, now));
  }

  lemma LastExpiry(q: seq<Parked>, now: int)
    requires q != []
    ensures Expiries(q, now) == Expiries(q[..|q| - 1], now) + [Expired(q[|q| - 1].ticket.id, now)]
    ensures Ids(q) == Ids(q[..|q| - 1]) + {q[|q| - 1].ticket.id}
  {
    assert q == q[..|q| - 1] + [q[|q| - 1]];
  }

  /** `d` is `c` with the entries `q` expired. */
  ghost predicate Expiring(c: Core, d: Core, q: seq<Parked>, now: int) {
    && DistinctIds(q) && (forall x :: x in q ==> x in c.pending)
    && d.log == c.log + Expiries(q, now) && d.pending == Drop(c.pending, Ids(q)) && d.submitted == c.submitted
  }

  lemma ExpiringSplits(c: Core, d: Core, q: seq<Parked>, now: int) returns (e: Core)
    requires Expiring(c, d, q, now) && q != []
    ensures Expiring(c, e, q[..|q| - 1], now)
    ensures var id := q[|q| - 1].ticket.id;
      && Has(e.pending, id) && d.log == e.log + [Expired(id, now)]
      && d.pending == Drop(e.pending, {id}) && d.submitted == e.submitted
  {
    var n := |q| - 1;
    e := c.(log := c.log + Expiries(q[..n], now), pending := Drop(c.pending, Ids(q[..n])));
    LastExpiry(q, now);
    LastWaits(c.pending, q);
    DropTwice(c.pending, Ids(q[..n]), {q[n].ticket.id});
  }

  /** Expiring a list of waiting entries one after the other. */
  lemma {:induction false} ExpiriesLive(cfg: Settings, c: Core, d: Core, q: seq<Parked>, now: int)
    requires LifeInv(cfg, c) && Expiring(c, d, q, now)
    ensures LifeInv(cfg, d)
    decreases |q|
  {
    if q == [] {
      DropNothing(c.pending, Ids(q));
      assert d.log == c.log;
    } else {
      var e := ExpiringSplits(c, d, q, now);
      ExpiriesLive(cfg, c, e, q[..|q| - 1], now);
      ExpiredLives(cfg, e, d, q[|q| - 1].ticket.id, now);
    }
  }

  lemma LastWaits(all: seq<Parked>, q: seq<Parked>)
    requires q != [] && DistinctIds(q) && q[|q| - 1] in all
    ensures Has(Drop(all, Ids(q[..|q| - 1])), q[|q| - 1].ticket.id)
  {
    var last := q[|q| - 1];
    HasElement(all, last.ticket.id);
    HasDrop(all, Ids(q[..|q| - 1]), last.ticket.id);
  }

  lemma SweepLives(cfg: Settings, c: Core, now: int)
    requires LifeInv(cfg, c)
    ensures LifeInv(cfg, ExpireStale(cfg, c, now))
  {
    StaleExpires(cfg, c, now);
    ExpiriesLive(cfg, c, ExpireStale(cfg, c, now), Stale(cfg, c.pending, now), now);
  }

  lemma StaleExpires(cfg: Settings, c: Core, now: int)
    requires DistinctIds(c.pending)
    ensures Expiring(c, ExpireStale(cfg, c, now), Stale(cfg, c.pending, now), now)
  {
    var q := Stale(cfg, c.pending, now);
    LiveElements(cfg, c.pending, now);
    StaleDistinct(cfg, c.pending, now);
    forall x | x in c.pending
      ensures x.ticket.id in Ids(q) <==> IsExpired(cfg, x, now)
    {
      if y :| y in q && y.ticket.id == x.ticket.id {
        SameIdSameEntry(c.pending, x, y);
      }
    }
    LiveIsDrop(cfg, c.pending, now, Ids(q));
  }

  lemma SameIdSameEntry(q: seq<Parked>, x: Parked, y: Parked)
    requires DistinctIds(q) && x in q && y in q && x.ticket.id == y.ticket.id
    ensures x == y
  {
  }

  lemma {:induction false} StaleDistinct(cfg: Settings, q: seq<Parked>, now: int)
    requires DistinctIds(q)
    ensures DistinctIds(Stale(cfg, q, now))
  {
    if q != [] {
      DistinctSplit(q);
      StaleDistinct(cfg, q[1..], now);
      LiveElements(cfg, q[1..], now);
      HasElement(q[1..], q[0].ticket.id);
    }
  }

  lemma FlushLives(cfg: Settings, c: Core, now: int)
    requires LifeInv(cfg, c)
    ensures LifeInv(cfg, ExpirePending(c, now)) && LifeInv(cfg, ModeHandlers(c, now))
  {
    DropElements(c.pending, Ids(c.pending));
    assert Drop(c.pending, Ids(c.pending)) == [] by {
      if Drop(c.pending, Ids(c.pending)) != [] {
        assert Drop(c.pending, Ids(c.pending))[0] in Drop(c.pending, Ids(c.pending));
        assert false;
      }
    }
    ExpiriesLive(cfg, c, ExpirePending(c, now), c.pending, now);
  }

  lemma CloseLives(cfg: Settings, c: Core, instrument: string, now: int)
    requires LifeInv(cfg, c)
    ensures LifeInv(cfg, TryClose(cfg, c, instrument, now))
    ensures LifeInv(cfg, CloseOrDefer(cfg, c, instrument, now)) && LifeInv(cfg, RetryDeferred(cfg, c, instrument, now))
  {
    if CanClose(c, instrument) { ClosedLives(cfg, c, instrument, now); }
  }

  lemma TickLives(cfg: Settings, c: Core, instrument: string, price: Option<real>, now: int)
    requires LifeInv(cfg, c)
    ensures LifeInv(cfg, Tick(cfg, c, instrument, price, now))
  {
    var marked := Marked(c, instrument, price, now);
    MarkedLives(cfg, c, instrument, price, now);
    var breach := Emit(marked, [LimitBreached(instrument, now)]);
    EventKeepsLife(cfg, marked, breach, LimitBreached(instrument, now));
    CloseLives(cfg, breach, instrument, now);
    var watched := MonitorStop(cfg, marked, instrument, price, now);
    CloseLives(cfg, watched, instrument, now);
    SweepLives(cfg, RetryDeferred(cfg, watched, instrument, now), now);
  }

  lemma ProposeLives(cfg: Settings, c: Core, s: Step)
    requires LifeInv(cfg, c) && FillSettings(cfg) && Wired(c) && s.DoPropose? && OneVerdict(c, s)
    ensures LifeInv(cfg, Next(cfg, c, s))
  {
    var verdict := Evaluate(cfg, c.mode, c.book, s.instrument, s.side, s.now);
    NotApprovedNotWaiting(c, s.id);
    if verdict.Refused? {
      DropAbsent(c.pending, s.id);
      EventKeepsLife(cfg, c, Next(cfg, c, s), RiskRejected(s.id, s.now));
    } else {
      ApprovedLives(cfg, c, Ticket(s.id, s.instrument, s.side, verdict.size, Some(verdict.stop)), s.now);
    }
  }

  lemma ParkLives(cfg: Settings, c: Core, d: Core, t: Ticket, now: int)
    requires LifeInv(cfg, c) && Count(c.log, ApprovalsOf(t.id)) == 0 && t.id !in TerminalIds(c.log)
    requires d == Emit(c, [Approved(t, now)]).(pending := Absorb(c.pending, Approved(t, now)))
    ensures LifeInv(cfg, d) && !Has(c.pending, t.id)
  {
    EventKeepsLife(cfg, c, d, Approved(t, now));
    NotApprovedNotWaiting(c, t.id);
  }

  /** A fresh clearance is parked, or filled at once as if it had been parked and executed. */
  lemma ApprovedLives(cfg: Settings, c: Core, t: Ticket, now: int)
    requires LifeInv(cfg, c) && FillSettings(cfg) && ClearedTicket(cfg, c, t, now) && Wired(c)
    requires Count(c.log, ApprovalsOf(t.id)) == 0 && t.id !in TerminalIds(c.log)
    ensures LifeInv(cfg, HandleApproved(cfg, Emit(c, [Approved(t, now)]), t, now))
  {
    var d := Emit(c, [Approved(t, now)]).(pending := Absorb(c.pending, Approved(t, now)));
    ParkLives(cfg, c, d, t, now);
    if c.mode == Paper {
      PaperLives(cfg, d, Emit(c, [Approved(t, now)]), c.pending, t, now);
    } else {
      PutIsAppend(c.pending, Parked(t, now));
    }
  }

  lemma PaperLives(cfg: Settings, parked: Core, c: Core, q: seq<Parked>, t: Ticket, now: int)
    requires LifeInv(cfg, parked) && FillSettings(cfg) && ClearedTicket(cfg, parked, t, now)
    requires !Has(q, t.id) && c == parked.(pending := q)
    requires parked.pending == if t.id == "" then q else q + [Parked(t, now)]
    ensures LifeInv(cfg, TryOpen(cfg, c, t, now))
  {
    if t.id == "" {
      NamelessLives(cfg, c, t, now);
    } else {
      ParkedThenDropped(q, Parked(t, now));
      FillLives(cfg, parked, c, t, now);
    }
  }

  lemma ParkedThenDropped(q: seq<Parked>, x: Parked)
    requires !Has(q, x.ticket.id)
    ensures Drop(q + [x], {x.ticket.id}) == q && Has(q + [x], x.ticket.id)
    ensures forall y :: y in q + [x] && y.ticket.id == x.ticket.id ==> y == x
  {
    assert (q + [x])[..|q|] == q;
    DropAbsent(q, x.ticket.id);
    WaitingAppend(q, x, x.ticket.id);
    HasElement(q, x.ticket.id);
  }

  // An approval without an id fills in PAPER and leaves the queue alone.
  lemma NamelessLives(cfg: Settings, c: Core, t: Ticket, now: int)
    requires LifeInv(cfg, c) && FillSettings(cfg) && t.id == "" && ClearedTicket(cfg, c, t, now)
    ensures LifeInv(cfg, TryOpen(cfg, c, t, now))
  {
    if CanOpen(c, t) {
      var fillPrice := OpenPrice(cfg, t.side, c.book.prices[t.instrument]);
      OpenPriceNonzero(cfg, t.side, c.book.prices[t.instrument]);
      NamelessFilled(cfg, c, TryOpen(cfg, c, t, now), OpenFill(cfg, t, fillPrice), now);
    }
  }

  lemma NamelessFilled(cfg: Settings, c: Core, d: Core, f: FillPayload, now: int)
    requires LifeInv(cfg, c) && f.FillPayload? && f.decision == "" && IsOpenFill(Filled(f, now))
    requires d.log == c.log + [Submitted(OrderKey("", Open), Open, "", now)] + [Filled(f, now)]
    requires d.submitted == c.submitted + {OrderKey("", Open)} && d.pending == c.pending
    ensures LifeInv(cfg, d)
  {
    var key := Submitted(OrderKey("", Open), Open, "", now);
    var e := c.(log := c.log + [key]);
    EventKeepsLife(cfg, c, e, key);
    forall other | OrderKey(other, Open) == OrderKey("", Open)
      ensures other == ""
    {
      OrderKeyInjective(other, Open, "", Open);
    }
    DropAbsent(c.pending, "");
    HasElement(c.pending, "");
    EventKeepsQueue(e, d, Filled(f, now));
    EventKeepsAge(cfg, e, d, Filled(f, now));
  }

  lemma ExecuteLives(cfg: Settings, c: Core, id: string, now: int)
    requires LifeInv(cfg, c) && FillSettings(cfg)
    ensures LifeInv(cfg, Execute(cfg, c, id, now).0)
  {
    if Level(c.mode) >= Level(Assisted) && Has(c.pending, id) {
      var parked := Find(c.pending, id);
      FindElement(c.pending, id);
      WithoutIsDrop(c.pending, id);
      var d := c.(pending := Without(c.pending, id));
      ExpiredLives(cfg, c, Emit(d, [Expired(id, now)]), id, now);
      var verdict := Evaluate(cfg, d.mode, d.book, parked.ticket.instrument, parked.ticket.side, now);
      if !IsExpired(cfg, parked, now) && verdict.Cleared? {
        OnlyEntry(c.pending, parked);
        FillLives(cfg, c, d, parked.ticket.(size := verdict.size, stop := Some(verdict.stop)), now);
      }
    }
  }

  lemma OnlyEntry(q: seq<Parked>, x: Parked)
    requires DistinctIds(q) && x in q
    ensures forall y :: y in q && y.ticket.id == x.ticket.id ==> y == x
  {
  }

  lemma RejectLives(cfg: Settings, c: Core, id: string, now: int)
    requires LifeInv(cfg, c)
    ensures LifeInv(cfg, Reject(c, id, now).0)
  {
    if Has(c.pending, id) {
      WithoutIsDrop(c.pending, id);
      EventKeepsLife(cfg, c, Reject(c, id, now).0, OperatorRejected(id, now));
    }
  }

  lemma SetModeLives(cfg: Settings, c: Core, to: Mode, now: int)
    requires LifeInv(cfg, c)
    ensures LifeInv(cfg, SetMode(c, to, now))
  {
    var d := Emit(c.(mode := to), [ModeChanged(to, now)]);
    EventKeepsLife(cfg, c, d, ModeChanged(to, now));
    FlushLives(cfg, d, now);
  }

  lemma HaltLives(cfg: Settings, c: Core, now: int)
    requires LifeInv(cfg, c)
    ensures LifeInv(cfg, Halt(c, now))
  {
    var halted := Emit(c.(mode := Observe), [Halted(now)]);
    EventKeepsLife(cfg, c, halted, Halted(now));
    FlushLives(cfg, halted, now);
    var flushed := ExpirePending(halted, now);
    var changed := Emit(flushed, [ModeChanged(Observe, now)]);
    EventKeepsLife(cfg, flushed, changed, ModeChanged(Observe, now));
    FlushLives(cfg, changed, now);
  }

  lemma InvalidateLives(cfg: Settings, c: Core, instrument: string, now: int)
    requires LifeInv(cfg, c)
    ensures LifeInv(cfg, Invalidate(cfg, c, instrument, now))
  {
    var d := Emit(c, [ThesisInvalidated(instrument, now)]);
    EventKeepsLife(cfg, c, d, ThesisInvalidated(instrument, now));
    CloseLives(cfg, d, instrument, now);
  }

  lemma NextLives(cfg: Settings, c: Core, s: Step)
    requires LifeInv(cfg, c) && FillSettings(cfg) && Wired(c) && OneVerdict(c, s)
    ensures LifeInv(cfg, Next(cfg, c, s))
  {
    hide LifeInv, Tick, Propose, Execute, Reject, TryClose, Invalidate, SetMode, Halt;
    match s {
      case DoTick(instrument, price, now) => TickLives(cfg, c, instrument, price, now);
      case DoPropose(_, _, _, _) => ProposeLives(cfg, c, s);
      case DoRedeliver(_, _) =>
      case DoExecute(id, now) => ExecuteLives(cfg, c, id, now);
      case DoReject(id, now) => RejectLives(cfg, c, id, now);
      case DoClose(instrument, now) => CloseLives(cfg, c, instrument, now);
      case DoInvalidate(instrument, now) => InvalidateLives(cfg, c, instrument, now);
      case DoSetMode(to, now) => SetModeLives(cfg, c, to, now);
      case DoHalt(now) => HaltLives(cfg, c, now);
    }
  }
}
