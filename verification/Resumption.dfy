/** gateway/app.py: a new process catches the resolver up from the stream without publishing anything twice. */
module Resumption {
  import opened Events
  import opened Resolver

  /** The decisions that the stream already has an outcome for. */
  function Resolved(outcomes: seq<Outcome>): set<string> {
    set o | o in outcomes :: o.id
  }

  function OutcomesWithout(outcomes: seq<Outcome>, ids: set<string>): seq<Outcome> {
    if outcomes == [] then []
    else
      var o := outcomes[|outcomes| - 1];
      OutcomesWithout(outcomes[..|outcomes| - 1], ids) + if o.id in ids then [] else [o]
  }

  /** The same resolver with these decisions never heard of. */
  function Less(s: State, ids: set<string>): State {
    State(WithoutAll(s.pending, ids), s.prices, OutcomesWithout(s.outcomes, ids))
  }

  /** Among these proposals, those without an outcome. */
  function OpenProposals(events: seq<Signal>, resolved: set<string>): seq<Signal> {
    if events == [] then []
    else
      (if events[0].Proposed? && events[0].proposal.id !in resolved then [events[0]] else [])
      + OpenProposals(events[1..], resolved)
  }

  const FRESH := State([], map[], [])

  /** The mode is not persisted with a proposal: a shadow decision is known by its rejection, any other counts as PAPER. */
  function SeedMode(mode: Mode): Mode {
    if mode == Observe then Observe else Paper
  }

  function SeededSignal(e: Signal): Signal {
    if e.Proposed? then Proposed(e.proposal.(mode := SeedMode(e.proposal.mode))) else e
  }

  function Seeded(events: seq<Signal>): seq<Signal> {
    seq(|events|, k requires 0 <= k < |events| => SeededSignal(events[k]))
  }

  /** A new resolver over a stream: open proposals seeded, ticks and invalidations replayed. */
  function Resume(h: Horizons, events: seq<Signal>, resolved: set<string>): State {
    HandleAll(h, HandleAll(h, FRESH, OpenProposals(Seeded(events), resolved)), TicksAndInvalidations(events))
  }

  // ---------- every event treats each decision on its own ----------

  lemma OutcomesWithoutOne(outcomes: seq<Outcome>, o: Outcome, ids: set<string>)
    ensures OutcomesWithout(outcomes + [o], ids) == OutcomesWithout(outcomes, ids) + if o.id in ids then [] else [o]
    ensures outcomes + [] == outcomes
  {
    assert (outcomes + [o])[..|outcomes|] == outcomes;
  }

  lemma {:induction false} OutcomesWithoutConcat(a: seq<Outcome>, b: seq<Outcome>, ids: set<string>)
    ensures OutcomesWithout(a + b, ids) == OutcomesWithout(a, ids) + OutcomesWithout(b, ids)
  {
    if b == [] {
      assert a + b == a && OutcomesWithout(a, ids) + [] == OutcomesWithout(a, ids);
    } else {
      var rest, o := b[..|b| - 1], b[|b| - 1];
      assert a + b == a + rest + [o] && b == rest + [o];
      OutcomesWithoutConcat(a, rest, ids);
      OutcomesWithoutOne(a + rest, o, ids);
      OutcomesWithoutOne(rest, o, ids);
      hide OutcomesWithout;
      assert OutcomesWithout(rest, ids) + [] == OutcomesWithout(rest, ids);
    }
  }

  lemma {:induction false} RemainingWithout(q: seq<Tracked>, f: Tracked -> Fate, ids: set<string>)
    requires KeepsIds(f)
    ensures Remaining(WithoutAll(q, ids), f) == WithoutAll(Remaining(q, f), ids)
  {
    if q != [] {
      var rest, x := q[..|q| - 1], q[|q| - 1];
      assert q == rest + [x];
      RemainingWithout(rest, f, ids);
      assert f(x).Stays? ==> f(x).entry.id == x.id;
      hide Remaining, WithoutAll, KeepsIds;
      RemainingWithoutOne(rest, x, f, ids);
    }
  }

  lemma RemainingWithoutOne(rest: seq<Tracked>, x: Tracked, f: Tracked -> Fate, ids: set<string>)
    requires f(x).Stays? ==> f(x).entry.id == x.id
    requires Remaining(WithoutAll(rest, ids), f) == WithoutAll(Remaining(rest, f), ids)
    ensures Remaining(WithoutAll(rest + [x], ids), f) == WithoutAll(Remaining(rest + [x], f), ids)
  {
    hide Remaining, WithoutAll;
    VisitOne(rest, x, f);
    VisitOne(WithoutAll(rest, ids), x, f);
    WithoutAppend(rest, x, ids);
    if f(x).Stays? { WithoutAppend(Remaining(rest, f), f(x).entry, ids); }
    assert Remaining(rest, f) + [] == Remaining(rest, f) && WithoutAll(rest, ids) + [] == WithoutAll(rest, ids);
    assert WithoutAll(Remaining(rest, f), ids) + [] == WithoutAll(Remaining(rest, f), ids);
  }

  lemma OutcomeWithout(published: seq<Outcome>, fate: Fate, id: string, ids: set<string>)
    requires fate.Leaves? && fate.outcome.Some? ==> fate.outcome.value.id == id
    ensures OutcomesWithout(published + OutcomeOf(fate), ids)
            == OutcomesWithout(published, ids) + if id in ids then [] else OutcomeOf(fate)
  {
    if fate.Leaves? && fate.outcome.Some? {
      OutcomesWithoutOne(published, fate.outcome.value, ids);
    }
    hide OutcomesWithout;
    assert published + [] == published && OutcomesWithout(published, ids) + [] == OutcomesWithout(published, ids);
  }

  lemma {:induction false} PublishedWithout(q: seq<Tracked>, f: Tracked -> Fate, ids: set<string>)
    requires PublishesOwn(f)
    ensures Outcomes(WithoutAll(q, ids), f) == OutcomesWithout(Outcomes(q, f), ids)
  {
    if q != [] {
      var rest, x := q[..|q| - 1], q[|q| - 1];
      assert q == rest + [x];
      PublishedWithout(rest, f, ids);
      VisitOne(rest, x, f);
      VisitOne(WithoutAll(rest, ids), x, f);
      WithoutAppend(rest, x, ids);
      OutcomeWithout(Outcomes(rest, f), f(x), x.id, ids);
      hide Outcomes, WithoutAll, OutcomesWithout, OutcomeOf;
      assert WithoutAll(rest, ids) + [] == WithoutAll(rest, ids);
      assert OutcomesWithout(Outcomes(rest, f), ids) + [] == OutcomesWithout(Outcomes(rest, f), ids);
    }
  }

  lemma VisitLess(s: State, f: Tracked -> Fate, ids: set<string>)
    requires PublishesOwn(f)
    ensures Visit(Less(s, ids), f) == Less(Visit(s, f), ids)
  {
    RemainingWithout(s.pending, f, ids);
    PublishedWithout(s.pending, f, ids);
    OutcomesWithoutConcat(s.outcomes, Outcomes(s.pending, f), ids);
  }

  lemma {:induction false} WithoutFirst(x: Tracked, q: seq<Tracked>, ids: set<string>)
    ensures WithoutAll([x] + q, ids) == (if x.id in ids then [] else [x]) + WithoutAll(q, ids)
  {
    if q == [] {
      assert [x] + q == [] + [x];
      WithoutAppend([], x, ids);
    } else {
      var rest, last := q[..|q| - 1], q[|q| - 1];
      assert [x] + q == [x] + rest + [last] && q == rest + [last];
      WithoutFirst(x, rest, ids);
      WithoutAppend([x] + rest, last, ids);
      WithoutAppend(rest, last, ids);
    }
  }

  lemma {:induction false} PutWithout(q: seq<Tracked>, x: Tracked, ids: set<string>)
    ensures WithoutAll(Put(q, x), ids) == if x.id in ids then WithoutAll(q, ids) else Put(WithoutAll(q, ids), x)
  {
    if q == [] {
      WithoutFirst(x, [], ids);
      assert [x] + [] == [x];
    } else {
      var first, rest := q[0], q[1..];
      assert q == [first] + rest;
      PutWithout(rest, x, ids);
      WithoutFirst(first, rest, ids);
      hide WithoutAll;
      if first.id == x.id {
        WithoutFirst(x, rest, ids);
      } else {
        WithoutFirst(first, Put(rest, x), ids);
      }
      assert [] + WithoutAll(rest, ids) == WithoutAll(rest, ids);
      assert ([first] + WithoutAll(rest, ids))[1..] == WithoutAll(rest, ids);
    }
  }

  /** Not having heard of some decisions changes nothing for the others. */
  lemma HandleLess(h: Horizons, s: State, e: Signal, ids: set<string>)
    requires !e.Cleared?
    ensures Less(Handle(h, s, e), ids)
            == if e.Proposed? && e.proposal.id in ids then Less(s, ids) else Handle(h, Less(s, ids), e)
  {
    hide Put, WithoutAll, OutcomesWithout, Visit, OnTick, OnInvalidation;
    match e {
      case Proposed(p) =>
        if Track(h, p).Some? { PutWithout(s.pending, Track(h, p).value, ids); }
      case Priced(instrument, price, now) =>
        if instrument != "" && price.Some? {
          FatesPublishOwn("", s.prices, instrument, price.value, now);
          VisitLess(s.(prices := s.prices[instrument := price.value]), TickFate(instrument, price.value, now), ids);
        }
      case Invalidated(thesis, now) =>
        if thesis != "" {
          FatesPublishOwn(thesis, s.prices, "", 0.0, now);
          VisitLess(s, InvalidationFate(thesis, s.prices, now), ids);
        }
    }
  }

  // ---------- seeding and replaying ----------

  lemma {:induction false} SeedLess(h: Horizons, s: State, events: seq<Signal>, ids: set<string>)
    ensures HandleAll(h, Less(s, ids), OpenProposals(events, ids)) == Less(HandleAll(h, s, Proposals(events)), ids)
    decreases |events|
  {
    if events != [] {
      var e, rest := events[0], events[1..];
      hide Handle, Less;
      assert ([e] + Proposals(rest))[1..] == Proposals(rest) && [] + Proposals(rest) == Proposals(rest);
      assert ([e] + OpenProposals(rest, ids))[1..] == OpenProposals(rest, ids);
      assert [] + OpenProposals(rest, ids) == OpenProposals(rest, ids);
      if e.Proposed? {
        HandleLess(h, s, e, ids);
        SeedLess(h, Handle(h, s, e), rest, ids);
      } else {
        SeedLess(h, s, rest, ids);
      }
    }
  }

  lemma {:induction false} ReplayLess(h: Horizons, s: State, events: seq<Signal>, ids: set<string>)
    ensures HandleAll(h, Less(s, ids), TicksAndInvalidations(events))
            == Less(HandleAll(h, s, TicksAndInvalidations(events)), ids)
    decreases |events|
  {
    if events != [] {
      var e, rest := events[0], events[1..];
      hide Handle, Less;
      assert ([e] + TicksAndInvalidations(rest))[1..] == TicksAndInvalidations(rest);
      assert [] + TicksAndInvalidations(rest) == TicksAndInvalidations(rest);
      if e.Priced? || e.Invalidated? {
        HandleLess(h, s, e, ids);
        ReplayLess(h, Handle(h, s, e), rest, ids);
      } else {
        ReplayLess(h, s, rest, ids);
      }
    }
  }

  lemma {:induction false} SeededTicks(events: seq<Signal>)
    ensures TicksAndInvalidations(Seeded(events)) == TicksAndInvalidations(events)
  {
    if events != [] {
      SeededTicks(events[1..]);
      assert Seeded(events)[1..] == Seeded(events[1..]) && Seeded(events)[0] == SeededSignal(events[0]);
    }
  }

  lemma ResumeIsLess(h: Horizons, events: seq<Signal>, ids: set<string>)
    ensures Resume(h, events, ids) == Less(CatchUp(h, FRESH, Seeded(events)), ids)
  {
    assert Less(FRESH, ids) == FRESH;
    SeededTicks(events);
    hide Less, HandleAll, Seeded;
    SeedLess(h, FRESH, Seeded(events), ids);
    ReplayLess(h, HandleAll(h, FRESH, Proposals(Seeded(events))), Seeded(events), ids);
  }

  lemma {:induction false} NothingResolved(q: seq<Tracked>, ids: set<string>)
    requires forall x :: x in q ==> x.id !in ids
    ensures WithoutAll(q, ids) == q
  {
    if q != [] {
      var n := |q| - 1;
      NothingResolved(q[..n], ids);
      assert q == q[..n] + [q[n]] && q[n] in q;
    }
  }

  lemma {:induction false} AllResolved(outcomes: seq<Outcome>, ids: set<string>)
    requires forall o :: o in outcomes ==> o.id in ids
    ensures OutcomesWithout(outcomes, ids) == []
  {
    if outcomes != [] {
      var n := |outcomes| - 1;
      AllResolved(outcomes[..n], ids);
      assert outcomes[n] in outcomes;
    }
  }

  lemma ResolvedIsPublished(outcomes: seq<Outcome>, id: string)
    ensures id in Resolved(outcomes) <==> Published(outcomes, id)
  {
    if o :| o in outcomes && o.id == id {
      var k :| 0 <= k < |outcomes| && outcomes[k] == o;
      assert Published(outcomes, id);
    }
    if Published(outcomes, id) {
      var k :| 0 <= k < |outcomes| && outcomes[k].id == id;
      assert outcomes[k] in outcomes;
    }
  }

  lemma LessResolved(s: State)
    requires OnceEach(s)
    ensures Less(s, Resolved(s.outcomes)) == s.(outcomes := [])
  {
    var ids := Resolved(s.outcomes);
    forall x | x in s.pending
      ensures x.id !in ids
    {
      ResolvedIsPublished(s.outcomes, x.id);
    }
    NothingResolved(s.pending, ids);
    AllResolved(s.outcomes, ids);
  }

  // ---------- the mode plays no part in scoring ----------

  function SeededEntry(x: Tracked): Tracked {
    x.(mode := SeedMode(x.mode))
  }

  function SeededOutcome(o: Outcome): Outcome {
    o.(mode := SeedMode(o.mode))
  }

  function SeededEntries(q: seq<Tracked>): seq<Tracked> {
    if q == [] then [] else SeededEntries(q[..|q| - 1]) + [SeededEntry(q[|q| - 1])]
  }

  function SeededOutcomes(outcomes: seq<Outcome>): seq<Outcome> {
    if outcomes == [] then [] else SeededOutcomes(outcomes[..|outcomes| - 1]) + [SeededOutcome(outcomes[|outcomes| - 1])]
  }

  /** The same state with every mode as a restart would have it. */
  function SeededState(s: State): State {
    State(SeededEntries(s.pending), s.prices, SeededOutcomes(s.outcomes))
  }

  function SeededFate(fate: Fate): Fate {
    match fate
    case Stays(x) => Stays(SeededEntry(x))
    case Leaves(Some(o)) => Leaves(Some(SeededOutcome(o)))
    case Leaves(None) => Leaves(None)
  }

  ghost predicate ModeBlind(f: Tracked -> Fate) {
    forall x :: f(SeededEntry(x)) == SeededFate(f(x))
  }

  lemma ResolveModeBlind(x: Tracked, price: real, now: int, reason: Reason)
    ensures Resolve(SeededEntry(x), price, now, reason) == SeededFate(Resolve(x, price, now, reason))
  {
  }

  lemma TickModeBlind(x: Tracked, instrument: string, price: real, now: int)
    ensures OnTick(SeededEntry(x), instrument, price, now) == SeededFate(OnTick(x, instrument, price, now))
  {
    ResolveModeBlind(x, price, now, HorizonElapsed);
    ResolveModeBlind(x, price, now, StopBreached);
    hide Resolve;
  }

  lemma InvalidationModeBlind(x: Tracked, thesis: string, prices: map<string, real>, now: int)
    ensures OnInvalidation(SeededEntry(x), thesis, prices, now) == SeededFate(OnInvalidation(x, thesis, prices, now))
  {
    if x.instrument in prices { ResolveModeBlind(x, prices[x.instrument], now, ThesisDied); }
    hide Resolve;
  }

  lemma FatesModeBlind(thesis: string, prices: map<string, real>, instrument: string, price: real, now: int)
    ensures ModeBlind(TickFate(instrument, price, now)) && ModeBlind(InvalidationFate(thesis, prices, now))
  {
    hide OnTick, OnInvalidation, SeededEntry, SeededFate;
    forall x: Tracked
      ensures OnTick(SeededEntry(x), instrument, price, now) == SeededFate(OnTick(x, instrument, price, now))
      ensures OnInvalidation(SeededEntry(x), thesis, prices, now) == SeededFate(OnInvalidation(x, thesis, prices, now))
    {
      TickModeBlind(x, instrument, price, now);
      InvalidationModeBlind(x, thesis, prices, now);
    }
  }

  lemma SeededOne(q: seq<Tracked>, x: Tracked)
    ensures SeededEntries(q + [x]) == SeededEntries(q) + [SeededEntry(x)]
    ensures q + [] == q
  {
    assert (q + [x])[..|q|] == q;
  }

  lemma SeededOutcomeOne(outcomes: seq<Outcome>, fate: Fate)
    ensures SeededOutcomes(outcomes + OutcomeOf(fate)) == SeededOutcomes(outcomes) + OutcomeOf(SeededFate(fate))
  {
    match fate {
      case Leaves(Some(o)) => assert (outcomes + [o])[..|outcomes|] == outcomes;
      case _ =>
        assert outcomes + [] == outcomes;
        assert SeededOutcomes(outcomes) + [] == SeededOutcomes(outcomes);
    }
  }

  lemma {:induction false} SeededRemaining(q: seq<Tracked>, f: Tracked -> Fate)
    requires ModeBlind(f)
    ensures Remaining(SeededEntries(q), f) == SeededEntries(Remaining(q, f))
  {
    if q != [] {
      var rest, x := q[..|q| - 1], q[|q| - 1];
      assert q == rest + [x];
      SeededRemaining(rest, f);
      SeededOne(rest, x);
      VisitOne(rest, x, f);
      VisitOne(SeededEntries(rest), SeededEntry(x), f);
      hide Remaining, SeededEntries;
      if f(x).Stays? { SeededOne(Remaining(rest, f), f(x).entry); }
      assert Remaining(rest, f) + [] == Remaining(rest, f);
      assert Remaining(SeededEntries(rest), f) + [] == Remaining(SeededEntries(rest), f);
    }
  }

  lemma {:induction false} SeededPublished(q: seq<Tracked>, f: Tracked -> Fate)
    requires ModeBlind(f)
    ensures Outcomes(SeededEntries(q), f) == SeededOutcomes(Outcomes(q, f))
  {
    if q != [] {
      var rest, x := q[..|q| - 1], q[|q| - 1];
      assert q == rest + [x];
      SeededPublished(rest, f);
      SeededOne(rest, x);
      VisitOne(rest, x, f);
      VisitOne(SeededEntries(rest), SeededEntry(x), f);
      hide Outcomes, SeededEntries;
      SeededOutcomeOne(Outcomes(rest, f), f(x));
    }
  }

  lemma {:induction false} SeededConcat(a: seq<Outcome>, b: seq<Outcome>)
    ensures SeededOutcomes(a + b) == SeededOutcomes(a) + SeededOutcomes(b)
  {
    if b == [] {
      assert a + b == a;
    } else {
      assert (a + b)[..|a + b| - 1] == a + b[..|b| - 1];
      SeededConcat(a, b[..|b| - 1]);
    }
  }

  lemma SeededVisit(s: State, f: Tracked -> Fate)
    requires ModeBlind(f)
    ensures Visit(SeededState(s), f) == SeededState(Visit(s, f))
  {
    SeededRemaining(s.pending, f);
    SeededPublished(s.pending, f);
    SeededConcat(s.outcomes, Outcomes(s.pending, f));
  }

  lemma {:induction false} SeededAt(q: seq<Tracked>)
    ensures |SeededEntries(q)| == |q| && forall k :: 0 <= k < |q| ==> SeededEntries(q)[k] == SeededEntry(q[k])
  {
    if q != [] {
      SeededAt(q[..|q| - 1]);
    }
  }

  lemma SeededFirst(x: Tracked, q: seq<Tracked>)
    ensures SeededEntries([x] + q) == [SeededEntry(x)] + SeededEntries(q)
  {
    SeededAt([x] + q);
    SeededAt(q);
    hide SeededEntry;
  }

  lemma {:induction false} SeededPut(q: seq<Tracked>, x: Tracked)
    ensures Put(SeededEntries(q), SeededEntry(x)) == SeededEntries(Put(q, x))
  {
    if q == [] {
      SeededOne([], x);
      assert [] + [x] == [x] && [] + [SeededEntry(x)] == [SeededEntry(x)];
    } else {
      var first, rest := q[0], q[1..];
      assert q == [first] + rest;
      SeededPut(rest, x);
      SeededFirst(first, rest);
      SeededFirst(x, rest);
      SeededFirst(first, Put(rest, x));
      hide SeededEntries;
      assert ([SeededEntry(first)] + SeededEntries(rest))[1..] == SeededEntries(rest);
    }
  }

  lemma SeededStop(q: seq<Tracked>, id: string, stop: real)
    ensures WithStop(SeededEntries(q), id, stop) == SeededEntries(WithStop(q, id, stop))
  {
    SeededAt(q);
    SeededAt(WithStop(q, id, stop));
  }

  lemma HandleModeBlind(h: Horizons, s: State, e: Signal)
    ensures Handle(h, SeededState(s), SeededSignal(e)) == SeededState(Handle(h, s, e))
  {
    hide Put, Remaining, Outcomes, SeededEntries, SeededOutcomes, Visit, WithStop, OnTick, OnInvalidation;
    match e {
      case Proposed(p) => if Track(h, p).Some? { SeededPut(s.pending, Track(h, p).value); }
      case Cleared(id, stop) => if stop.Some? { SeededStop(s.pending, id, stop.value); }
      case Priced(instrument, price, now) =>
        if instrument != "" && price.Some? {
          FatesModeBlind("", s.prices, instrument, price.value, now);
          SeededVisit(s.(prices := s.prices[instrument := price.value]), TickFate(instrument, price.value, now));
        }
      case Invalidated(thesis, now) =>
        FatesModeBlind(thesis, s.prices, "", 0.0, now);
        SeededVisit(s, InvalidationFate(thesis, s.prices, now));
    }
  }

  /** Scoring never looks at the mode. */
  lemma {:induction false} HandleAllModeBlind(h: Horizons, s: State, events: seq<Signal>)
    ensures HandleAll(h, SeededState(s), Seeded(events)) == SeededState(HandleAll(h, s, events))
    decreases |events|
  {
    if events != [] {
      hide Handle, SeededState, SeededSignal;
      assert Seeded(events)[1..] == Seeded(events[1..]) && Seeded(events)[0] == SeededSignal(events[0]);
      HandleModeBlind(h, s, events[0]);
      HandleAllModeBlind(h, Handle(h, s, events[0]), events[1..]);
    }
  }

  lemma SeededOrderly(h: Horizons, events: seq<Signal>)
    requires Orderly(h, events) && AllNew(FRESH, events)
    ensures Orderly(h, Seeded(events)) && AllNew(FRESH, Seeded(events))
  {
    forall j, k | 0 <= j < k < |events| && events[k].Proposed?
      ensures Inert(h, SeededSignal(events[j]), SeededSignal(events[k]).proposal)
    {
      assert Inert(h, events[j], events[k].proposal);
    }
    forall k | 0 <= k < |events|
      ensures !SeededSignal(events[k]).Cleared? && NewId(FRESH, SeededSignal(events[k]))
    {
      assert !events[k].Cleared? && NewId(FRESH, events[k]);
    }
  }

  lemma {:induction false} SeededResolved(outcomes: seq<Outcome>)
    ensures Resolved(SeededOutcomes(outcomes)) == Resolved(outcomes)
  {
    if outcomes != [] {
      var rest, o := outcomes[..|outcomes| - 1], outcomes[|outcomes| - 1];
      assert outcomes == rest + [o];
      SeededResolved(rest);
      ResolvedOne(rest, o);
      ResolvedOne(SeededOutcomes(rest), SeededOutcome(o));
    }
  }

  lemma ResolvedOne(outcomes: seq<Outcome>, o: Outcome)
    ensures Resolved(outcomes + [o]) == Resolved(outcomes) + {o.id}
  {
    forall x | x in outcomes ensures x in outcomes + [o] { }
    assert o in outcomes + [o];
  }

  // ---------- a restart ----------

  /** A new process seeded with the proposals that have no outcome, and caught up on the rest, tracks exactly what
      the old one tracked, up to the mode, and publishes nothing: no decision is scored twice, none is forgotten. */
  lemma ResumeIsLive(h: Horizons, events: seq<Signal>)
    requires Orderly(h, events) && AllNew(FRESH, events)
    ensures var live := HandleAll(h, FRESH, events);
      Resume(h, events, Resolved(live.outcomes)) == SeededState(live).(outcomes := [])
  {
    var live := HandleAll(h, FRESH, events);
    SeededOrderly(h, events);
    assert SeededState(FRESH) == FRESH;
    HandleAllModeBlind(h, FRESH, events);
    CatchUpIsLive(h, FRESH, Seeded(events));
    ScoredAtMostOnce(h, FRESH, Seeded(events));
    ResumeIsLess(h, events, Resolved(live.outcomes));
    SeededResolved(live.outcomes);
    LessResolved(SeededState(live));
  }

  // Seeding changes nothing exactly where every mode is one that a restart can tell.
  lemma {:induction false} SeededSame(q: seq<Tracked>)
    ensures SeededEntries(q) == q <==> forall x :: x in q ==> x.mode == Observe || x.mode == Paper
  {
    if q != [] {
      var rest, last := q[..|q| - 1], q[|q| - 1];
      assert q == rest + [last];
      SeededSame(rest);
      assert SeededEntries(q) == SeededEntries(rest) + [SeededEntry(last)];
      if SeededEntries(q) == q {
        SeededCount(rest);
        assert SeededEntry(last) == q[|q| - 1] && SeededEntries(rest) == q[..|q| - 1];
      }
      hide SeededEntries;
    }
  }

  lemma {:induction false} SeededCount(q: seq<Tracked>)
    ensures |SeededEntries(q)| == |q|
  {
    if q != [] { SeededCount(q[..|q| - 1]); }
  }

  /** The resumed resolver tracks the very same entries, modes included, if and only if each was proposed in OBSERVE or
      PAPER; one proposed in ASSISTED comes back as PAPER. */
  lemma ResumeIsExactIff(h: Horizons, events: seq<Signal>)
    requires Orderly(h, events) && AllNew(FRESH, events)
    ensures var live := HandleAll(h, FRESH, events);
      Resume(h, events, Resolved(live.outcomes)) == live.(outcomes := [])
      <==> forall x :: x in live.pending ==> x.mode == Observe || x.mode == Paper
  {
    ResumeIsLive(h, events);
    SeededSame(HandleAll(h, FRESH, events).pending);
    hide Resume, HandleAll, SeededEntries, SeededOutcomes, Orderly, AllNew, Resolved;
  }

  // ---------- and after the restart ----------

  lemma HandleAppends(h: Horizons, s: State, past: seq<Outcome>, e: Signal)
    ensures Handle(h, s.(outcomes := past + s.outcomes), e)
            == Handle(h, s, e).(outcomes := past + Handle(h, s, e).outcomes)
  {
    hide Put, Remaining, Outcomes, WithStop, OnTick, OnInvalidation;
    match e {
      case Priced(instrument, price, now) =>
        if instrument != "" && price.Some? {
          var f := TickFate(instrument, price.value, now);
          assert past + s.outcomes + Outcomes(s.pending, f) == past + (s.outcomes + Outcomes(s.pending, f));
        }
      case Invalidated(thesis, now) =>
        var f := InvalidationFate(thesis, s.prices, now);
        assert past + s.outcomes + Outcomes(s.pending, f) == past + (s.outcomes + Outcomes(s.pending, f));
      case _ =>
    }
  }

  lemma {:induction false} HandleAllAppends(h: Horizons, s: State, past: seq<Outcome>, events: seq<Signal>)
    ensures HandleAll(h, s.(outcomes := past + s.outcomes), events)
            == HandleAll(h, s, events).(outcomes := past + HandleAll(h, s, events).outcomes)
    decreases |events|
  {
    if events != [] {
      hide Handle;
      HandleAppends(h, s, past, events[0]);
      HandleAllAppends(h, Handle(h, s, events[0]), past, events[1..]);
    }
  }

  lemma SeedingTwice(s: State)
    ensures SeededState(SeededState(s)) == SeededState(s)
  {
    SeededEntriesTwice(s.pending);
    SeededOutcomesTwice(s.outcomes);
  }

  lemma {:induction false} SeededEntriesTwice(q: seq<Tracked>)
    ensures SeededEntries(SeededEntries(q)) == SeededEntries(q)
  {
    SeededAt(q);
    SeededAt(SeededEntries(q));
  }

  lemma {:induction false} SeededOutcomesTwice(outcomes: seq<Outcome>)
    ensures SeededOutcomes(SeededOutcomes(outcomes)) == SeededOutcomes(outcomes)
  {
    if outcomes != [] {
      SeededOutcomesTwice(outcomes[..|outcomes| - 1]);
      assert SeededOutcomes(outcomes)[..|SeededOutcomes(outcomes)| - 1] == SeededOutcomes(outcomes[..|outcomes| - 1]);
    }
  }

  /** A restart is invisible to scoring but for the mode: whatever comes next, approvals included, the old and the
      new process together publish what one process would have published, in the same order. */
  lemma RestartInvisible(h: Horizons, events: seq<Signal>, more: seq<Signal>)
    requires Orderly(h, events) && AllNew(FRESH, events)
    ensures var live := HandleAll(h, FRESH, events);
      var resumed := HandleAll(h, Resume(h, events, Resolved(live.outcomes)), more);
      SeededState(HandleAll(h, live, more)) == SeededState(resumed.(outcomes := live.outcomes + resumed.outcomes))
  {
    var live := HandleAll(h, FRESH, events);
    var before, after := live.(outcomes := []), SeededState(live).(outcomes := []);
    ResumeIsLive(h, events);
    assert after == SeededState(before);
    SeedingTwice(before);
    HandleAllModeBlind(h, before, more);
    HandleAllModeBlind(h, after, more);
    HandleAllAppends(h, before, live.outcomes, more);
    assert live.outcomes + [] == live.outcomes;
    hide HandleAll, SeededEntries, SeededOutcomes;
    SeededConcat(live.outcomes, HandleAll(h, before, more).outcomes);
    SeededConcat(live.outcomes, HandleAll(h, after, more).outcomes);
  }
}
