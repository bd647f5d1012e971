/** Whole histories: any number of lives of the process over one store, which is pruned now and then. */
module History {
  import opened Events
  import opened Ledger
  import opened Conservation
  import opened Risk
  import opened Execution
  import opened Orders
  import opened Following
  import opened Safety
  import opened Account
  import opened Lifecycle
  import opened Openings
  import opened Recovery
  import opened Startup
  import opened Store
  import opened Clock
  import opened Pruning

  datatype Move =
    | Act(step: Step)
    | Reboot(stopped: Option<int>, held: seq<string>, theses: ThesisHistory, now: int)
    | PruneTicks(before: int)

  ghost function Advance(cfg: Settings, c: Core, m: Move): Core {
    match m
    case Act(s) => Next(cfg, c, s)
    case Reboot(stopped, held, th, now) => Restart(cfg, c, stopped, held, th, now)
    case PruneTicks(before) => Prune(c, before)
  }

  ghost function Continue(cfg: Settings, c: Core, moves: seq<Move>): Core {
    if moves == [] then c else Advance(cfg, Continue(cfg, c, moves[..|moves| - 1]), moves[|moves| - 1])
  }

  predicate NotBefore(log: seq<Event>, now: int) {
    forall e :: e in log ==> e.time <= now
  }

  /** What the surroundings guarantee: event times that do not decrease, priced ticks with positive prices,
      one proposal per decision, verdicts only from the risk engine. The pruner may come at any time with any cutoff. */
  ghost predicate Legal(c: Core, m: Move) {
    match m
    case Act(s) => Checked(s) && Clocked(s) && OneVerdict(c, s) && NotBefore(c.log, s.now)
    case Reboot(stopped, held, th, now) =>
      && NotBefore(c.log, now)
      && (stopped.Some? ==> NotBefore(c.log, stopped.value) && stopped.value <= now)
      && forall i :: i in c.book.positions ==> i in held
    case PruneTicks(_) => true
  }

  ghost predicate LegalFrom(cfg: Settings, c: Core, moves: seq<Move>) {
    moves == [] || (LegalFrom(cfg, c, moves[..|moves| - 1])
                    && Legal(Continue(cfg, c, moves[..|moves| - 1]), moves[|moves| - 1]))
  }

  predicate SafeSettings(cfg: Settings) {
    HALF_UNIT < cfg.stopLossPct && FillSettings(cfg)
  }

  /** The decisions with an opening fill in the stream. */
  function OpenedIds(log: seq<Event>): set<string> {
    set e | e in log && IsOpenFill(e) :: e.fill.decision
  }

  ghost predicate Timely(log: seq<Event>) {
    SortedByTime(log) && TicksPriced(log)
  }

  ghost predicate Good(cfg: Settings, c: Core) {
    && TradeInv(c, OpenedIds(c.log)) && DeferredInv(c) && StopInv(c.book) && Conserved(cfg, c)
    && LifeInv(cfg, c) && BookFollowsLog(cfg, c) && Timely(c.log) && Wired(c)
  }

  // ---------- one step ----------

  lemma CarriedGrows(c: Core, a: set<string>, b: set<string>)
    requires TradeInv(c, a) && a <= b
    ensures TradeInv(c, b)
  {
  }

  lemma OpenedGrows(a: seq<Event>, b: seq<Event>)
    requires a <= b
    ensures OpenedIds(a) <= OpenedIds(b)
  {
    forall e | e in a ensures e in b { }
  }

  lemma StampsKeepTimely(c: Core, d: Core, now: int)
    requires Timely(c.log) && NotBefore(c.log, now) && Stamped(c, d, now)
    ensures Timely(d.log) && NotBefore(d.log, now)
  {
    forall k | 0 <= k < |d.log|
      ensures d.log[k].time <= now && (d.log[k].Ticked? ==> PricedTick(d.log[k].instrument, d.log[k].price))
    {
      if k < |c.log| { assert d.log[k] == c.log[k] && c.log[k] in c.log; }
    }
    forall j, k | 0 <= j < k < |d.log|
      ensures d.log[j].time <= d.log[k].time
    {
      if k < |c.log| { assert d.log[j] == c.log[j] && d.log[k] == c.log[k]; }
    }
  }

  // Nothing that waits has been opened.
  lemma WaitingUnopened(c: Core)
    requires QueueInv(c)
    ensures PendingAvoids(c, OpenedIds(c.log))
  {
    DropElements(ApprovedQueue(c.log), TerminalIds(c.log));
    assert OpenedIds(c.log) <= TerminalIds(c.log) by {
      forall e | e in c.log && IsOpenFill(e) ensures TerminalId(e) in TerminalIds(c.log) { }
    }
  }

  lemma FreshAvoids(c: Core, s: Step)
    requires OneVerdict(c, s)
    ensures Avoids(s, OpenedIds(c.log))
  {
    forall e | e in c.log && IsOpenFill(e)
      ensures TerminalId(e) in TerminalIds(c.log) {}
  }

  lemma ActKeepsTrade(cfg: Settings, c: Core, s: Step)
    requires TradeInv(c, OpenedIds(c.log)) && QueueInv(c) && OneVerdict(c, s) && Clocked(s)
    ensures TradeInv(Next(cfg, c, s), OpenedIds(Next(cfg, c, s).log))
  {
    WaitingUnopened(c);
    FreshAvoids(c, s);
    NextKeepsTrade(cfg, c, s, OpenedIds(c.log));
    NextStamps(cfg, c, s);
    OpenedGrows(c.log, Next(cfg, c, s).log);
    CarriedGrows(Next(cfg, c, s), OpenedIds(c.log), OpenedIds(Next(cfg, c, s).log));
  }

  lemma ActKeepsGood(cfg: Settings, c: Core, s: Step)
    requires Good(cfg, c) && SafeSettings(cfg) && Legal(c, Act(s))
    ensures Good(cfg, Next(cfg, c, s))
  {
    ActKeepsTrade(cfg, c, s);
    NextKeepsDeferred(cfg, c, s, OpenedIds(c.log));
    NextKeepsStops(cfg, c, s, OpenedIds(c.log));
    NextConserves(cfg, c, s);
    NextLives(cfg, c, s);
    NextFollows(cfg, c, s);
    NextStamps(cfg, c, s);
    StampsKeepTimely(c, Next(cfg, c, s), s.now);
    NextWired(cfg, c, s);
  }

  lemma NextWired(cfg: Settings, c: Core, s: Step)
    requires Wired(c)
    ensures Wired(Next(cfg, c, s))
  {
    hide Next;
    ModeMoves(cfg, c, s);
  }

  // ---------- a restart ----------

  lemma StopKeepsGood(cfg: Settings, c: Core, now: int)
    requires Good(cfg, c) && NotBefore(c.log, now)
    ensures Good(cfg, ExpirePending(c, now)) && NotBefore(ExpirePending(c, now).log, now)
  {
    var d := ExpirePending(c, now);
    QuietKeeps(c, d, Expiries(c.pending, now), OpenedIds(c.log));
    OpenedGrows(c.log, d.log);
    CarriedGrows(d, OpenedIds(c.log), OpenedIds(d.log));
    QuietConserves(cfg, c, d, Expiries(c.pending, now));
    FlushLives(cfg, c, now);
    FlushFollows(cfg, c, now);
    ExpiriesStamp(cfg, c, now);
    StampsKeepTimely(c, d, now);
  }

  lemma SweepKeepsTrade(cfg: Settings, c: Core, now: int)
    requires TradeInv(c, OpenedIds(c.log))
    ensures TradeInv(ExpireStale(cfg, c, now), OpenedIds(ExpireStale(cfg, c, now).log))
  {
    var d := ExpireStale(cfg, c, now);
    QuietKeeps(c, d, Expiries(Stale(cfg, c.pending, now), now), OpenedIds(c.log));
    OpenedGrows(c.log, d.log);
    CarriedGrows(d, OpenedIds(c.log), OpenedIds(d.log));
  }

  // A new process has used no keys; the decisions opened before it are carried.
  lemma ForgetKeys(c: Core, d: Core)
    requires TradeInv(c, OpenedIds(c.log)) && d.log == c.log && d.submitted == {}
    requires SameDecisions(c.book, d.book)
    ensures TradeInv(d, OpenedIds(d.log))
  {
    forall id
      ensures Held(d.book, id) == Held(c.book, id)
      ensures Count(d.log, OpensOf(id)) == 1 ==> id in OpenedIds(d.log)
    {
      CountZero(d.log, OpensOf(id));
    }
  }

  // Startup is one sweep of the live process, with the book rebuilt and the process state forgotten.
  lemma BootKeepsGood(cfg: Settings, c: Core, now: int)
    requires Good(cfg, c) && NotBefore(c.log, now)
    ensures Good(cfg, Boot(cfg, c.log, now)) && NotBefore(Boot(cfg, c.log, now).log, now)
    ensures Recovers(c.log, c.book, Boot(cfg, c.log, now).book)
  {
    var swept, d := ExpireStale(cfg, c, now), Boot(cfg, c.log, now);
    PricedTicksSettle(c.log);
    RestartEqualsLive(cfg, c);
    RestartIff(cfg, c.log);
    RecoveredStops(c.book, d.book);
    QueueSurvives(cfg, c, now);
    SweepKeepsTrade(cfg, c, now);
    ForgetKeys(swept, d);
    ExpiriesStamp(cfg, c, now);
    StampsKeepTimely(c, swept, now);
    BootConserves(cfg, c, d, now);
    BootLives(cfg, c, d, now);
    BootFollows(cfg, c, d, now);
  }

  lemma BootConserves(cfg: Settings, c: Core, d: Core, now: int)
    requires Conserved(cfg, c) && SameMoney(c.book, d.book) && d.log == ExpireStale(cfg, c, now).log
    ensures Conserved(cfg, d)
  {
    var swept := ExpireStale(cfg, c, now);
    QuietConserves(cfg, c, swept, Expiries(Stale(cfg, c.pending, now), now));
    IdentityIgnoresPrices(cfg, c.book, d.book, Residual(d.log));
  }

  lemma BootLives(cfg: Settings, c: Core, d: Core, now: int)
    requires LifeInv(cfg, c) && d.submitted == {}
    requires d.log == ExpireStale(cfg, c, now).log && d.pending == ExpireStale(cfg, c, now).pending
    ensures LifeInv(cfg, d)
  {
    SweepLives(cfg, c, now);
  }

  lemma BootFollows(cfg: Settings, c: Core, d: Core, now: int)
    requires SameButMarks(Replay(cfg, c.log), d.book) && MarksFresh(c.log, d.book)
    requires d.log == ExpireStale(cfg, c, now).log
    ensures BookFollowsLog(cfg, d)
  {
    var booted := c.(book := d.book);
    QuietFollows(cfg, booted, d, Expiries(Stale(cfg, c.pending, now), now));
  }

  // A price that is lost leaves its position watched, with nothing to compare the stop to.
  lemma RecoveredStops(live: Book, rebuilt: Book)
    requires StopInv(live) && SameMoney(live, rebuilt) && PricesWithin(rebuilt.prices, live.prices)
    ensures StopInv(rebuilt)
  {
    hide OnSafeSide;
    assert forall i :: i in live.positions ==> SafeAt(live, i);
  }

  lemma CloseOrDeferKeepsGood(cfg: Settings, c: Core, instrument: string, now: int)
    requires Good(cfg, c) && NotBefore(c.log, now)
    ensures Good(cfg, CloseOrDefer(cfg, c, instrument, now)) && NotBefore(CloseOrDefer(cfg, c, instrument, now).log, now)
  {
    var d := CloseOrDefer(cfg, c, instrument, now);
    CloseStamps(cfg, c, instrument, now);
    StampsKeepTimely(c, d, now);
    CloseSucceeds(c, OpenedIds(c.log), instrument);
    CloseOrDeferKeepsDeferred(cfg, c, instrument, now);
    CloseOrDeferKeeps(cfg, c, instrument, now, OpenedIds(c.log));
    OpenedGrows(c.log, d.log);
    CarriedGrows(d, OpenedIds(c.log), OpenedIds(d.log));
    CloseLives(cfg, c, instrument, now);
    if CanClose(c, instrument) {
      ClosedConserves(cfg, c, instrument, now);
      ClosedFollows(cfg, c, instrument, now);
    }
    CloseKeepsStops(cfg, c, instrument, now);
  }

  lemma {:induction false} ReconcileKeepsGood(cfg: Settings, c: Core, instruments: seq<string>, now: int)
    requires Good(cfg, c) && NotBefore(c.log, now)
    ensures Good(cfg, ReconcileOrphans(cfg, c, instruments, now))
    decreases |instruments|
  {
    if instruments != [] {
      CloseOrDeferKeepsGood(cfg, c, instruments[0], now);
      var d := if instruments[0] in c.book.positions then CloseOrDefer(cfg, c, instruments[0], now) else c;
      ReconcileKeepsGood(cfg, d, instruments[1..], now);
    }
  }

  lemma RestartKeepsGood(cfg: Settings, c: Core, m: Move)
    requires Good(cfg, c) && m.Reboot? && Legal(c, m)
    ensures Good(cfg, Advance(cfg, c, m))
  {
    var down := if m.stopped.Some? then ExpirePending(c, m.stopped.value) else c;
    if m.stopped.Some? { StopKeepsGood(cfg, c, m.stopped.value); }
    BootKeepsGood(cfg, down, m.now);
    var booted := Boot(cfg, down.log, m.now);
    ReconcileKeepsGood(cfg, booted, Orphans(booted.book, m.held, m.theses, m.now), m.now);
  }

  // ---------- the pruner ----------

  lemma PruneKeepsGood(cfg: Settings, c: Core, before: int)
    requires Good(cfg, c)
    ensures Good(cfg, Prune(c, before))
  {
    PruneKeepsOpened(c.log, before);
    PruneKeepsTrade(c, before, OpenedIds(c.log));
    PruneConserves(cfg, c, before);
    PruneLives(cfg, c, before);
    PruneFollows(cfg, c, before);
    PrunedTimely(c.log, before);
  }

  lemma PruneKeepsOpened(log: seq<Event>, before: int)
    ensures OpenedIds(Pruned(log, before)) == OpenedIds(log)
  {
    PrunedElements(log, before);
    hide Pruned;
    forall e | e in log && IsOpenFill(e)
      ensures e in Pruned(log, before)
    {
    }
  }

  /** One step, restart or pass of the pruner keeps every invariant. */
  lemma AdvanceKeepsGood(cfg: Settings, c: Core, m: Move)
    requires Good(cfg, c) && SafeSettings(cfg) && Legal(c, m)
    ensures Good(cfg, Advance(cfg, c, m))
  {
    match m {
      case Act(s) => ActKeepsGood(cfg, c, s);
      case Reboot(_, _, _, _) => RestartKeepsGood(cfg, c, m);
      case PruneTicks(before) => PruneKeepsGood(cfg, c, before);
    }
  }

  lemma FlatIsGood(cfg: Settings)
    ensures Good(cfg, Flat(cfg))
  {
  }

  /** The invariants hold after every legal history. */
  lemma {:induction false} HistoryIsGood(cfg: Settings, moves: seq<Move>)
    requires SafeSettings(cfg) && LegalFrom(cfg, Flat(cfg), moves)
    ensures Good(cfg, Continue(cfg, Flat(cfg), moves))
  {
    if moves == [] {
      FlatIsGood(cfg);
    } else {
      HistoryIsGood(cfg, moves[..|moves| - 1]);
      AdvanceKeepsGood(cfg, Continue(cfg, Flat(cfg), moves[..|moves| - 1]), moves[|moves| - 1]);
    }
  }

  // ---------- histories from an empty store ----------

  /** The state after a history that starts with an empty store. */
  ghost function After(cfg: Settings, moves: seq<Move>): Core {
    Continue(cfg, Flat(cfg), moves)
  }

  ghost predicate LegalHistory(cfg: Settings, moves: seq<Move>) {
    SafeSettings(cfg) && LegalFrom(cfg, Flat(cfg), moves)
  }
}
