/** ingestion/pruner.py: old ticks leave the store, and no invariant of the trading core with them. */
module Pruning {
  import opened Events
  import opened Ledger
  import opened Conservation
  import opened Execution
  import opened Orders
  import opened Following
  import opened Account
  import opened Lifecycle
  import opened Store
  import opened Recovery

  /** The stream after a pass of the pruner: ticks before the cutoff are gone. */
  function Pruned(log: seq<Event>, before: int): seq<Event> {
    Kept(log, TICKS, before)
  }

  /** The pruner works on the store; the process keeps what it knows. */
  function Prune(c: Core, before: int): Core {
    c.(log := Pruned(c.log, before))
  }

  lemma PrunedOne(log: seq<Event>, e: Event, before: int)
    ensures Pruned(log + [e], before) == Pruned(log, before) + if e.Ticked? && e.time < before then [] else [e]
    ensures Pruned(log, before) + [] == Pruned(log, before)
  {
    KeptOne(log, e, TICKS, before);
  }

  lemma PrunedElements(log: seq<Event>, before: int)
    ensures forall e :: e in Pruned(log, before) <==> e in log && !(e.Ticked? && e.time < before)
  {
    KeptExactly(log, TICKS, before);
  }

  lemma {:induction false} PruneKeepsCounts(log: seq<Event>, before: int, p: Event -> bool)
    requires forall e: Event :: e.Ticked? ==> !p(e)
    ensures Count(Pruned(log, before), p) == Count(log, p)
  {
    if log != [] {
      var rest, e := log[..|log| - 1], log[|log| - 1];
      assert log == rest + [e];
      PruneKeepsCounts(rest, before, p);
      PrunedOne(rest, e, before);
      hide Pruned;
      CountOne(rest, e, p);
      CountOne(Pruned(rest, before), e, p);
    }
  }

  lemma {:induction false} PruneKeepsQueue(log: seq<Event>, before: int)
    ensures ApprovedQueue(Pruned(log, before)) == ApprovedQueue(log)
  {
    if log != [] {
      var rest, e := log[..|log| - 1], log[|log| - 1];
      assert log == rest + [e];
      PruneKeepsQueue(rest, before);
      PrunedOne(rest, e, before);
      hide Pruned;
      ApprovedQueueOne(rest, e);
      ApprovedQueueOne(Pruned(rest, before), e);
      assert ApprovedQueue(rest) + [] == ApprovedQueue(rest);
    }
  }

  lemma {:induction false} PruneKeepsResidual(log: seq<Event>, before: int)
    ensures Residual(Pruned(log, before)) == Residual(log)
  {
    if log != [] {
      var rest, e := log[..|log| - 1], log[|log| - 1];
      assert log == rest + [e];
      PruneKeepsResidual(rest, before);
      PrunedOne(rest, e, before);
      hide Pruned;
      ResidualOne(rest, e);
      ResidualOne(Pruned(rest, before), e);
    }
  }

  lemma {:induction false} PruneKeepsTicked(log: seq<Event>, before: int, i: string)
    ensures TickedSince(Pruned(log, before), i) ==> TickedSince(log, i)
  {
    if log != [] {
      var rest, e := log[..|log| - 1], log[|log| - 1];
      assert log == rest + [e];
      PruneKeepsTicked(rest, before, i);
      PrunedOne(rest, e, before);
      hide Pruned;
      assert (Pruned(rest, before) + [e])[..|Pruned(rest, before)|] == Pruned(rest, before);
    }
  }

  // ---------- every invariant but the prices ----------

  lemma PruneKeepsTrade(c: Core, before: int, carried: set<string>)
    requires TradeInv(c, carried)
    ensures TradeInv(Prune(c, before), carried)
  {
    hide Pruned;
    forall id
      ensures Count(Pruned(c.log, before), OpensOf(id)) == Count(c.log, OpensOf(id))
      ensures Count(Pruned(c.log, before), ClosesOf(id)) == Count(c.log, ClosesOf(id))
    {
      PruneKeepsCounts(c.log, before, OpensOf(id));
      PruneKeepsCounts(c.log, before, ClosesOf(id));
    }
  }

  lemma PruneConserves(cfg: Settings, c: Core, before: int)
    requires Conserved(cfg, c)
    ensures Conserved(cfg, Prune(c, before))
  {
    hide Pruned, CashIdentity;
    PruneKeepsResidual(c.log, before);
    PrunedElements(c.log, before);
  }

  lemma PruneKeepsTerminal(log: seq<Event>, before: int)
    ensures TerminalIds(Pruned(log, before)) == TerminalIds(log)
  {
    hide Pruned;
    PrunedElements(log, before);
    forall e | e in log && IsTerminal(e)
      ensures e in Pruned(log, before)
    {
    }
  }

  lemma PruneKeepsBalance(log: seq<Event>, before: int, id: string)
    ensures Count(Pruned(log, before), ApprovalsOf(id)) == Count(log, ApprovalsOf(id))
    ensures Count(Pruned(log, before), SettlesOf(id)) == Count(log, SettlesOf(id))
    ensures Count(Pruned(log, before), OpensOf(id)) == Count(log, OpensOf(id))
  {
    PruneKeepsCounts(log, before, ApprovalsOf(id));
    forall e: Event | e.Ticked?
      ensures !SettlesOf(id)(e)
    {
      assert !ExecutionsOf(id)(e) && !OperatorRejectsOf(id)(e) && !ExpiriesOf(id)(e);
    }
    PruneKeepsCounts(log, before, SettlesOf(id));
    PruneKeepsCounts(log, before, OpensOf(id));
  }

  lemma PruneKeepsWaiting(c: Core, before: int)
    requires QueueInv(c)
    ensures QueueInv(Prune(c, before))
  {
    hide Pruned;
    PruneKeepsQueue(c.log, before);
    PruneKeepsTerminal(c.log, before);
    forall id
      ensures Count(Pruned(c.log, before), ApprovalsOf(id)) == Count(c.log, ApprovalsOf(id))
      ensures Count(Pruned(c.log, before), SettlesOf(id)) == Count(c.log, SettlesOf(id))
      ensures Count(Pruned(c.log, before), OpensOf(id)) == Count(c.log, OpensOf(id))
    {
      PruneKeepsBalance(c.log, before, id);
    }
    forall id | id != ""
      ensures Balanced(Pruned(c.log, before), c.pending, id)
    {
      assert Balanced(c.log, c.pending, id);
    }
  }

  lemma PruneLives(cfg: Settings, c: Core, before: int)
    requires LifeInv(cfg, c)
    ensures LifeInv(cfg, Prune(c, before))
  {
    hide Pruned, QueueInv;
    PruneKeepsWaiting(c, before);
    PrunedElements(c.log, before);
  }

  // ---------- prices ----------

  lemma PricedIffLatest(log: seq<Event>, i: string)
    requires TicksPriced(log)
    ensures EverPriced(log, i) <==> i in LatestOf(log, TICKS)
    ensures i in LatestOf(log, TICKS) ==> IsPricedTick(LatestOf(log, TICKS)[i], i)
  {
    LatestIsLatest(log, TICKS);
    hide LatestOf;
    if EverPriced(log, i) {
      var e :| e in log && IsPricedTick(e, i);
      assert KindOf(e) in TICKS && TickKey(e) == Some(i);
    }
    if i in LatestOf(log, TICKS) {
      var e := LatestOf(log, TICKS)[i];
      assert TickKey(e) == Some(i);
    }
  }

  lemma PrunedTimely(log: seq<Event>, before: int)
    requires SortedByTime(log) && TicksPriced(log)
    ensures SortedByTime(Pruned(log, before)) && TicksPriced(Pruned(log, before))
  {
    PrunedElements(log, before);
    PrunedSorted(log, before);
  }

  lemma {:induction false} PrunedSorted(log: seq<Event>, before: int)
    requires SortedByTime(log)
    ensures SortedByTime(Pruned(log, before))
  {
    if log != [] {
      var rest, e := log[..|log| - 1], log[|log| - 1];
      assert log == rest + [e];
      SortedLast(log);
      PrunedSorted(rest, before);
      PrunedOne(rest, e, before);
      PrunedElements(rest, before);
      hide Pruned;
      SortedAppend(Pruned(rest, before), e);
    }
  }

  /** The store still knows a price exactly when the instrument's last tick is not before the cutoff. */
  lemma PriceSurvives(log: seq<Event>, before: int, i: string)
    requires TicksPriced(log)
    ensures EverPriced(Pruned(log, before), i) <==> i in LatestOf(log, TICKS) && before <= LatestOf(log, TICKS)[i].time
    ensures EverPriced(Pruned(log, before), i) ==>
              i in LatestOf(Pruned(log, before), TICKS) && LatestOf(Pruned(log, before), TICKS)[i] == LatestOf(log, TICKS)[i]
  {
    PrunedElements(log, before);
    PricedIffLatest(Pruned(log, before), i);
    LatestAfterPrune(log, TICKS, before);
  }

  lemma PrunedMoney(cfg: Settings, log: seq<Event>, before: int)
    ensures SameMoney(Replay(cfg, log), Replay(cfg, Pruned(log, before)))
  {
    FillsAlone(cfg, log);
    FillsAlone(cfg, Pruned(log, before));
    PruneUnasked(log, TICKS, before, FILLS, None, None);
    WithinAll(OfKinds(log, FILLS));
    WithinAll(OfKinds(Pruned(log, before), FILLS));
  }

  lemma ReplayedPrice(cfg: Settings, log: seq<Event>, i: string)
    requires SortedByTime(log) && TicksPriced(log)
    ensures i in Replay(cfg, log).prices <==> EverPriced(log, i)
    ensures EverPriced(log, i) ==> i in LatestOf(log, TICKS) && LatestOf(log, TICKS)[i].Ticked?
                                   && LatestOf(log, TICKS)[i].price == Some(Replay(cfg, log).prices[i])
  {
    RangeOfSorted(log, TICKS);
    PricesFollow(cfg, log, i);
    PricedIffLatest(log, i);
  }

  lemma PrunedPrices(cfg: Settings, log: seq<Event>, before: int)
    requires SortedByTime(log) && TicksPriced(log)
    ensures PricesWithin(Replay(cfg, Pruned(log, before)).prices, Replay(cfg, log).prices)
  {
    PrunedTimely(log, before);
    hide Pruned, LatestOf;
    forall i | i in Replay(cfg, Pruned(log, before)).prices
      ensures i in Replay(cfg, log).prices && Replay(cfg, log).prices[i] == Replay(cfg, Pruned(log, before)).prices[i]
    {
      ReplayedPrice(cfg, Pruned(log, before), i);
      PriceSurvives(log, before, i);
      PricedIffLatest(log, i);
      ReplayedPrice(cfg, log, i);
    }
  }

  lemma PruneFollows(cfg: Settings, c: Core, before: int)
    requires BookFollowsLog(cfg, c) && SortedByTime(c.log) && TicksPriced(c.log)
    ensures BookFollowsLog(cfg, Prune(c, before))
  {
    PrunedMoney(cfg, c.log, before);
    PrunedPrices(cfg, c.log, before);
    hide Pruned;
    forall i
      ensures TickedSince(Pruned(c.log, before), i) ==> TickedSince(c.log, i)
    {
      PruneKeepsTicked(c.log, before, i);
    }
  }
}
