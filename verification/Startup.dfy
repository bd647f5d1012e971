/** Restart: the operator's queue re-parked, positions without a live thesis closed, every invariant carried over. */
module Startup {
  import opened Events
  import opened Ledger
  import opened Execution
  import opened Orders
  import opened Lifecycle
  import opened Recovery
  import opened Store

  const APPROVALS: set<Kind> := {DecisionApproved}

  datatype Queue = Queue(pending: seq<Parked>, expired: seq<Event>)

  /** `rehydrate_pending` into an empty queue. */
  function Repark(cfg: Settings, approvals: seq<Event>, terminal: set<string>, now: int): Queue {
    if approvals == [] then Queue([], [])
    else
      var n := |approvals| - 1;
      var q := Repark(cfg, approvals[..n], terminal, now);
      var e := approvals[n];
      if !e.Approved? || e.ticket.id == "" || e.ticket.id in terminal || Has(q.pending, e.ticket.id) then q
      else if IsExpired(cfg, Parked(e.ticket, e.time), now) then
        Queue(q.pending, q.expired + [Expired(e.ticket.id, now)])
      else Queue(q.pending + [Parked(e.ticket, e.time)], q.expired)
  }

  /** A process started over this stream, before reconciliation. */
  function Boot(cfg: Settings, log: seq<Event>, now: int): Core {
    var q := Repark(cfg, OfKinds(log, APPROVALS), TerminalIds(log), now);
    Core(Observe, RebuiltBook(cfg, log), q.pending, {}, {}, log + q.expired)
  }

  // ---------- the queue ----------

  lemma {:induction false} LiveAppend(cfg: Settings, q: seq<Parked>, x: Parked, now: int)
    ensures Live(cfg, q + [x], now) == Live(cfg, q, now) + if IsExpired(cfg, x, now) then [] else [x]
    ensures Stale(cfg, q + [x], now) == Stale(cfg, q, now) + if IsExpired(cfg, x, now) then [x] else []
  {
    hide IsExpired;
    if q == [] {
      assert q + [x] == [x] && [x][1..] == [];
    } else {
      LiveAppend(cfg, q[1..], x, now);
      assert (q + [x])[1..] == q[1..] + [x] && (q + [x])[0] == q[0];
    }
  }

  lemma {:induction false} ApprovalsDistinct(log: seq<Event>)
    requires forall id :: Count(log, ApprovalsOf(id)) <= 1
    ensures DistinctIds(ApprovedQueue(log))
  {
    if log != [] {
      var n := |log| - 1;
      assert log == log[..n] + [log[n]];
      forall id
        ensures Count(log, ApprovalsOf(id))
                == Count(log[..n], ApprovalsOf(id)) + if log[n].Approved? && log[n].ticket.id == id then 1 else 0
      {
        EventCounts(log[..n], log[n], id);
      }
      ApprovalsDistinct(log[..n]);
      if log[n].Approved? {
        ApprovedQueueCounts(log[..n], log[n].ticket.id);
      }
    }
  }

  lemma DropAppend(q: seq<Parked>, x: Parked, ids: set<string>)
    ensures Drop(q + [x], ids) == Drop(q, ids) + if x.ticket.id in ids then [] else [x]
  {
    assert (q + [x])[..|q|] == q;
  }

  lemma DistinctLast(q: seq<Parked>, x: Parked)
    requires DistinctIds(q + [x])
    ensures DistinctIds(q) && !Has(q, x.ticket.id)
  {
    forall j | 0 <= j < |q|
      ensures q[j].ticket.id != x.ticket.id
    {
      assert (q + [x])[j] == q[j] && (q + [x])[|q|] == x;
    }
    forall j, k | 0 <= j < k < |q|
      ensures q[j].ticket.id != q[k].ticket.id
    {
      assert (q + [x])[j] == q[j] && (q + [x])[k] == q[k];
    }
  }

  lemma LiveLacks(cfg: Settings, q: seq<Parked>, ids: set<string>, now: int, id: string)
    requires !Has(q, id)
    ensures !Has(Live(cfg, Drop(q, ids), now), id)
  {
    HasDrop(q, ids, id);
    LiveElements(cfg, Drop(q, ids), now);
    HasElement(Drop(q, ids), id);
    HasElement(Live(cfg, Drop(q, ids), now), id);
  }

  /** Every unsettled approval is re-parked, or expired when it is past its time to live; order and all. */
  lemma {:induction false} ReparkSplits(cfg: Settings, log: seq<Event>, ids: set<string>, now: int)
    requires DistinctIds(ApprovedQueue(log))
    ensures Repark(cfg, OfKinds(log, APPROVALS), ids, now)
            == Queue(Live(cfg, Drop(ApprovedQueue(log), ids), now), Expiries(Stale(cfg, Drop(ApprovedQueue(log), ids), now), now))
  {
    if log != [] {
      var n := |log| - 1;
      var e, q := log[n], ApprovedQueue(log[..n]);
      assert log == log[..n] + [e];
      OfKindsOne(log[..n], e, APPROVALS);
      ApprovedQueueOne(log[..n], e);
      var approvals := OfKinds(log[..n], APPROVALS);
      assert (approvals + [e])[..|approvals|] == approvals && approvals + [] == approvals;
      if e.Approved? && e.ticket.id != "" {
        var x := Parked(e.ticket, e.time);
        DistinctLast(q, x);
        ReparkSplits(cfg, log[..n], ids, now);
        DropAppend(q, x, ids);
        LiveLacks(cfg, q, ids, now, e.ticket.id);
        LiveAppend(cfg, Drop(q, ids), x, now);
        ExpiriesAppend(Stale(cfg, Drop(q, ids), now), x, now);
        assert Drop(q, ids) + [] == Drop(q, ids);
      } else {
        assert q + [] == q;
        ReparkSplits(cfg, log[..n], ids, now);
      }
    }
  }

  lemma ExpiriesAppend(q: seq<Parked>, x: Parked, now: int)
    ensures Expiries(q + [x], now) == Expiries(q, now) + [Expired(x.ticket.id, now)]
    ensures q + [] == q
  {
  }

  /** A crash loses nothing: the queue a new process rebuilds is the live one after one sweep. */
  lemma QueueSurvives(cfg: Settings, c: Core, now: int)
    requires QueueInv(c)
    ensures Boot(cfg, c.log, now).pending == ExpireStale(cfg, c, now).pending
    ensures Boot(cfg, c.log, now).log == ExpireStale(cfg, c, now).log
  {
    ApprovalsDistinct(c.log);
    ReparkSplits(cfg, c.log, TerminalIds(c.log), now);
  }

  // ---------- orphaned positions ----------

  /** What the stream says about theses: the one behind each decision, the dead ones, and when each ends. */
  datatype ThesisHistory = ThesisHistory(origin: map<string, string>, invalidated: set<string>, ends: map<string, int>)

  /** The decision is traceable to a thesis that is known, not invalidated and not past its horizon. */
  predicate ThesisLive(th: ThesisHistory, decision: string, now: int) {
    && decision in th.origin
    && th.origin[decision] !in th.invalidated
    && th.origin[decision] in th.ends
    && now < th.ends[th.origin[decision]]
  }

  /** `held` lists the book's instruments in the order of its dictionary. */
  function Orphans(b: Book, held: seq<string>, th: ThesisHistory, now: int): seq<string> {
    if held == [] then []
    else
      var i := held[|held| - 1];
      Orphans(b, held[..|held| - 1], th, now)
      + if i in b.positions && !ThesisLive(th, b.positions[i].decision, now) then [i] else []
  }

  lemma {:induction false} OrphansAreDead(b: Book, held: seq<string>, th: ThesisHistory, now: int)
    ensures forall i :: i in Orphans(b, held, th, now) <==>
              i in held && i in b.positions && !ThesisLive(th, b.positions[i].decision, now)
  {
    if held != [] {
      var n := |held| - 1;
      OrphansAreDead(b, held[..n], th, now);
      assert held == held[..n] + [held[n]];
    }
  }

  /** Every instrument listed is closed, or waits for its price; nothing else is touched. */
  ghost predicate Reconciled(c: Core, d: Core, instruments: seq<string>) {
    && d.book.prices == c.book.prices
    && (forall i :: i in d.book.positions ==> i in c.book.positions && d.book.positions[i] == c.book.positions[i])
    && (forall i :: i in c.book.positions && i !in instruments ==> i in d.book.positions)
    && (forall i :: i in instruments && i in c.book.positions ==> (i in d.book.positions <==> !Usable(c.book, i)))
    && (forall i :: i !in instruments ==> (i in d.closePending <==> i in c.closePending))
    && (forall i :: i in instruments && i in d.book.positions ==> i in d.closePending)
  }

  lemma CloseOrDeferReconciles(cfg: Settings, c: Core, instrument: string, now: int)
    requires CloseReady(c, instrument)
    ensures Reconciled(c, if instrument in c.book.positions then CloseOrDefer(cfg, c, instrument, now) else c, [instrument])
  {
  }

  lemma ReconciledChain(c: Core, d: Core, e: Core, first: string, rest: seq<string>)
    requires Reconciled(c, d, [first]) && Reconciled(d, e, rest)
    ensures Reconciled(c, e, [first] + rest)
  {
    forall i | i in [first] + rest && i in c.book.positions
      ensures i in e.book.positions <==> !Usable(c.book, i)
      ensures i in e.book.positions ==> i in e.closePending
    {
      assert i in [first] || i in rest;
    }
  }

  lemma {:induction false} ReconcileSettles(cfg: Settings, c: Core, instruments: seq<string>, now: int, carried: set<string>)
    requires TradeInv(c, carried)
    ensures Reconciled(c, ReconcileOrphans(cfg, c, instruments, now), instruments)
    ensures TradeInv(ReconcileOrphans(cfg, c, instruments, now), carried)
    decreases |instruments|
  {
    if instruments != [] {
      var i := instruments[0];
      CloseSucceeds(c, carried, i);
      CloseOrDeferReconciles(cfg, c, i, now);
      CloseOrDeferKeeps(cfg, c, i, now, carried);
      var d := if i in c.book.positions then CloseOrDefer(cfg, c, i, now) else c;
      ReconcileSettles(cfg, d, instruments[1..], now, carried);
      ReconciledChain(c, d, ReconcileOrphans(cfg, c, instruments, now), i, instruments[1..]);
      assert instruments == [i] + instruments[1..];
    }
  }

  /** A crash, or an orderly stop at `stopped`; then startup at `now`. */
  function Restart(cfg: Settings, c: Core, stopped: Option<int>, held: seq<string>, th: ThesisHistory, now: int): Core {
    var down := if stopped.Some? then ExpirePending(c, stopped.value) else c;
    var booted := Boot(cfg, down.log, now);
    ReconcileOrphans(cfg, booted, Orphans(booted.book, held, th, now), now)
  }

  /** After startup every held position has a live thesis or waits for a price to close at;
      positions with a live thesis are left alone, and of the others exactly those without a price are still held. */
  lemma OnlyLiveTheses(cfg: Settings, booted: Core, held: seq<string>, th: ThesisHistory, now: int, carried: set<string>)
    requires TradeInv(booted, carried) && booted.closePending == {}
    requires forall i :: i in booted.book.positions ==> i in held
    ensures var d := ReconcileOrphans(cfg, booted, Orphans(booted.book, held, th, now), now);
      forall i :: i in booted.book.positions ==>
        if ThesisLive(th, booted.book.positions[i].decision, now)
        then i in d.book.positions && d.book.positions[i] == booted.book.positions[i] && i !in d.closePending
        else (i in d.book.positions <==> !Usable(booted.book, i)) && (i in d.book.positions ==> i in d.closePending)
  {
    var orphans := Orphans(booted.book, held, th, now);
    OrphansAreDead(booted.book, held, th, now);
    ReconcileSettles(cfg, booted, orphans, now, carried);
  }
}
