/** calibration/resolver.py: scoring proposals against later prices, live or caught up after a restart. */
module Resolver {
  import opened Events

  datatype Horizons = Horizons(scalp: nat, intraday: nat, swing: nat, position: nat)

  /** A `decision.proposed` payload. `mode` is the autonomy mode the decision is tracked under. */
  datatype Proposal = Proposal(
    id: string, instrument: string, side: string, horizon: string, confidence: real, mode: Mode,
    thesis: Option<string>, time: int)

  datatype Tracked = Tracked(
    id: string, instrument: string, side: Side, confidence: real, mode: Mode, proposedAt: int, deadline: int,
    thesis: Option<string>, entry: Option<real>, stop: Option<real>)

  datatype Signal =
    | Proposed(proposal: Proposal)
    | Cleared(id: string, stop: Option<real>)
    | Priced(instrument: string, price: Option<real>, time: int)
    | Invalidated(thesis: string, time: int)

  datatype Reason = HorizonElapsed | StopBreached | ThesisDied

  datatype Outcome = Outcome(
    id: string, instrument: string, side: Side, confidence: real, mode: Mode, entry: real, price: real,
    returnPct: real, hit: bool, reason: Reason, proposedAt: int, resolvedAt: int)

  /** The tracked decisions in insertion order, the last price of each instrument, and everything published. */
  datatype State = State(pending: seq<Tracked>, prices: map<string, real>, outcomes: seq<Outcome>)

  function Duration(h: Horizons, horizon: string): nat {
    if horizon == "scalp" then h.scalp
    else if horizon == "swing" then h.swing
    else if horizon == "position" then h.position
    else h.intraday
  }

  /** The entry a proposal adds; malformed ones are ignored. */
  function Track(h: Horizons, p: Proposal): Option<Tracked> {
    if p.id == "" || p.instrument == "" then None
    else
      match ReadSide(p.side)
      case None => None
      case Some(side) =>
        Some(Tracked(p.id, p.instrument, side, p.confidence, p.mode, p.time, p.time + Duration(h, p.horizon),
                     if p.thesis == Some("") then None else p.thesis, None, None))
  }

  function Put(q: seq<Tracked>, x: Tracked): seq<Tracked> {
    if q == [] then [x]
    else if q[0].id == x.id then [x] + q[1..]
    else [q[0]] + Put(q[1..], x)
  }

  /** What becomes of one tracked decision: it stays, or it leaves with or without a published outcome. */
  datatype Fate = Stays(entry: Tracked) | Leaves(outcome: Option<Outcome>)

  /** `_resolve`: an entry price of zero is dropped without an outcome. */
  function Resolve(x: Tracked, price: real, now: int, reason: Reason): Fate {
    if x.entry.None? || x.entry.value == 0.0 then Leaves(None)
    else
      var entry := x.entry.value;
      var pct := (price - entry) / entry * (if x.side == Long then 1.0 else -1.0) * 100.0;
      Leaves(Some(Outcome(x.id, x.instrument, x.side, x.confidence, x.mode, entry, price, pct, pct > 0.0, reason,
                          x.proposedAt, now)))
  }

  /** What a tick means for a tracked decision. */
  datatype Judgement = Pass | Enter | Unscoreable | Due(reason: Reason)

  function Judge(x: Tracked, instrument: string, price: real, now: int): Judgement {
    if x.instrument != instrument then Pass
    else if x.entry.None? then
      if now >= x.deadline then Unscoreable else if now >= x.proposedAt then Enter else Pass
    else if now >= x.deadline then Due(HorizonElapsed)
    else if x.stop.Some? && (if x.side == Long then price <= x.stop.value else price >= x.stop.value) then Due(StopBreached)
    else Pass
  }

  function OnTick(x: Tracked, instrument: string, price: real, now: int): Fate {
    match Judge(x, instrument, price, now)
    case Pass => Stays(x)
    case Enter => Stays(x.(entry := Some(price)))
    case Unscoreable => Leaves(None)
    case Due(reason) => Resolve(x, price, now, reason)
  }

  function OnInvalidation(x: Tracked, thesis: string, prices: map<string, real>, now: int): Fate {
    if x.thesis != Some(thesis) then Stays(x)
    else if x.entry.None? || x.instrument !in prices then Leaves(None)
    else Resolve(x, prices[x.instrument], now, ThesisDied)
  }

  function Remaining(q: seq<Tracked>, f: Tracked -> Fate): seq<Tracked> {
    if q == [] then []
    else Remaining(q[..|q| - 1], f) + match f(q[|q| - 1]) case Stays(x) => [x] case Leaves(_) => []
  }

  /** What a fate publishes. */
  function OutcomeOf(fate: Fate): seq<Outcome> {
    match fate case Leaves(Some(o)) => [o] case _ => []
  }

  function Outcomes(q: seq<Tracked>, f: Tracked -> Fate): seq<Outcome> {
    if q == [] then [] else Outcomes(q[..|q| - 1], f) + OutcomeOf(f(q[|q| - 1]))
  }

  function Visit(s: State, f: Tracked -> Fate): State {
    s.(pending := Remaining(s.pending, f), outcomes := s.outcomes + Outcomes(s.pending, f))
  }

  function TickFate(instrument: string, price: real, now: int): Tracked -> Fate {
    (x: Tracked) => OnTick(x, instrument, price, now)
  }

  function InvalidationFate(thesis: string, prices: map<string, real>, now: int): Tracked -> Fate {
    (x: Tracked) => OnInvalidation(x, thesis, prices, now)
  }

  function WithStop(q: seq<Tracked>, id: string, stop: real): seq<Tracked> {
    seq(|q|, k requires 0 <= k < |q| => if q[k].id == id then q[k].(stop := Some(stop)) else q[k])
  }

  function Handle(h: Horizons, s: State, e: Signal): State {
    match e
    case Proposed(p) =>
      (match Track(h, p)
       case None => s
       case Some(x) => s.(pending := Put(s.pending, x)))
    case Cleared(id, stop) => if stop.Some? then s.(pending := WithStop(s.pending, id, stop.value)) else s
    case Priced(instrument, price, now) =>
      if instrument == "" || price.None? then s
      else Visit(s.(prices := s.prices[instrument := price.value]), TickFate(instrument, price.value, now))
    case Invalidated(thesis, now) =>
      if thesis == "" then s else Visit(s, InvalidationFate(thesis, s.prices, now))
  }

  /** Live handling, in order. */
  function HandleAll(h: Horizons, s: State, events: seq<Signal>): State
    decreases |events|
  {
    if events == [] then s else HandleAll(h, Handle(h, s, events[0]), events[1..])
  }

  function Proposals(events: seq<Signal>): seq<Signal> {
    if events == [] then []
    else (if events[0].Proposed? then [events[0]] else []) + Proposals(events[1..])
  }

  /** What `replay` reacts to. */
  function TicksAndInvalidations(events: seq<Signal>): seq<Signal> {
    if events == [] then []
    else (if events[0].Priced? || events[0].Invalidated? then [events[0]] else []) + TicksAndInvalidations(events[1..])
  }

  /** Startup: seed every proposal, then replay ticks and invalidations. */
  function CatchUp(h: Horizons, s: State, events: seq<Signal>): State {
    HandleAll(h, HandleAll(h, s, Proposals(events)), TicksAndInvalidations(events))
  }

  predicate Has(q: seq<Tracked>, id: string) {
    exists k :: 0 <= k < |q| && q[k].id == id
  }

  /** `p`, not yet proposed when `e` came, would have ignored it. */
  predicate Inert(h: Horizons, e: Signal, p: Proposal) {
    match Track(h, p)
    case None => true
    case Some(x) =>
      match e
      case Proposed(other) => other.id != p.id
      case Cleared(id, stop) => stop.Some? ==> id != p.id
      case Priced(instrument, price, time) => price.Some? && instrument == p.instrument ==> time < p.time
      case Invalidated(thesis, _) => x.thesis != Some(thesis)
  }

  /** Distinct ids, and every proposal before the ticks and invalidations that concern it. */
  ghost predicate Orderly(h: Horizons, events: seq<Signal>) {
    && (forall k :: 0 <= k < |events| ==> !events[k].Cleared?)
    && (forall j, k :: 0 <= j < k < |events| && events[k].Proposed? ==> Inert(h, events[j], events[k].proposal))
  }

  /** No proposal of the stream is tracked already. */
  ghost predicate Unseen(h: Horizons, q: seq<Tracked>, events: seq<Signal>) {
    forall e :: e in events && e.Proposed? && Track(h, e.proposal).Some? ==> !Has(q, e.proposal.id)
  }

  // ---------- proofs ----------

  lemma {:induction false} PutFresh(q: seq<Tracked>, x: Tracked)
    requires !Has(q, x.id)
    ensures Put(q, x) == q + [x]
  {
    if q != [] {
      assert q[0].id != x.id;
      forall k | 0 <= k < |q[1..]| ensures q[1..][k].id != x.id {
        assert q[1..][k] == q[k + 1];
      }
      PutFresh(q[1..], x);
    }
  }

  lemma VisitOne(q: seq<Tracked>, x: Tracked, f: Tracked -> Fate)
    ensures Remaining(q + [x], f) == Remaining(q, f) + match f(x) case Stays(y) => [y] case Leaves(_) => []
    ensures Outcomes(q + [x], f) == Outcomes(q, f) + OutcomeOf(f(x))
  {
    assert (q + [x])[..|q|] == q;
  }

  ghost predicate KeepsIds(f: Tracked -> Fate) {
    forall x :: f(x).Stays? ==> f(x).entry.id == x.id
  }

  lemma {:induction false} RemainingIds(q: seq<Tracked>, f: Tracked -> Fate, id: string)
    requires KeepsIds(f) && !Has(q, id)
    ensures !Has(Remaining(q, f), id)
  {
    if q != [] {
      var n := |q| - 1;
      forall k | 0 <= k < n ensures q[..n][k].id != id { assert q[..n][k] == q[k]; }
      RemainingIds(q[..n], f, id);
      assert f(q[n]).Stays? ==> f(q[n]).entry.id == q[n].id;
    }
  }

  // A decision may as well be tracked after an event exactly if the event leaves it alone.
  lemma VisitCommutesIff(s: State, x: Tracked, f: Tracked -> Fate)
    requires KeepsIds(f) && !Has(s.pending, x.id)
    ensures Visit(s.(pending := Put(s.pending, x)), f) == Visit(s, f).(pending := Put(Visit(s, f).pending, x))
            <==> f(x) == Stays(x)
  {
    var rest := Remaining(s.pending, f);
    PutFresh(s.pending, x);
    VisitOne(s.pending, x, f);
    RemainingIds(s.pending, f, x.id);
    PutFresh(rest, x);
    assert Outcomes(s.pending, f) + [] == Outcomes(s.pending, f);
    match f(x) {
      case Stays(y) => assert (rest + [y])[|rest|] == y && (rest + [x])[|rest|] == x;
      case Leaves(_) => assert |rest + []| < |rest + [x]|;
    }
  }

  lemma FatesKeepIds(thesis: string, prices: map<string, real>, instrument: string, price: real, now: int)
    ensures KeepsIds(TickFate(instrument, price, now)) && KeepsIds(InvalidationFate(thesis, prices, now))
  {
    hide Resolve;
    forall x: Tracked
      ensures TickFate(instrument, price, now)(x).Stays? ==> TickFate(instrument, price, now)(x).entry.id == x.id
      ensures InvalidationFate(thesis, prices, now)(x).Stays? ==> InvalidationFate(thesis, prices, now)(x).entry.id == x.id
    {
      ResolveLeaves(x, price, now, HorizonElapsed);
      ResolveLeaves(x, price, now, StopBreached);
      if x.instrument in prices { ResolveLeaves(x, prices[x.instrument], now, ThesisDied); }
    }
  }

  lemma ResolveLeaves(x: Tracked, price: real, now: int, reason: Reason)
    ensures Resolve(x, price, now, reason).Leaves?
  {
  }

  // A fresh entry ignores exactly the inert events.
  lemma FreshFate(h: Horizons, p: Proposal, instrument: string, price: real, thesis: string, prices: map<string, real>, now: int)
    requires Track(h, p).Some?
    ensures TickFate(instrument, price, now)(Track(h, p).value) == Stays(Track(h, p).value)
            <==> (instrument == p.instrument ==> now < p.time)
    ensures InvalidationFate(thesis, prices, now)(Track(h, p).value) == Stays(Track(h, p).value)
            <==> Track(h, p).value.thesis != Some(thesis)
  {
    hide Resolve;
  }

  lemma StopCommutesIff(s: State, x: Tracked, id: string, stop: real)
    requires !Has(s.pending, x.id) && x.stop.None?
    ensures WithStop(Put(s.pending, x), id, stop) == Put(WithStop(s.pending, id, stop), x) <==> id != x.id
  {
    var stopped := WithStop(s.pending, id, stop);
    PutFresh(s.pending, x);
    assert !Has(stopped, x.id);
    PutFresh(stopped, x);
    var n := |s.pending|;
    assert WithStop(s.pending + [x], id, stop)[n] == if x.id == id then x.(stop := Some(stop)) else x;
    assert WithStop(s.pending + [x], id, stop)[..n] == stopped;
  }

  /** An event other than a proposal may come before or after the proposal alike if and only if it is inert for it. */
  lemma ProposalCommutesIff(h: Horizons, s: State, e: Signal, p: Proposal)
    requires !e.Proposed? && Track(h, p).Some? && !Has(s.pending, p.id)
    ensures Handle(h, Handle(h, s, Proposed(p)), e) == Handle(h, Handle(h, s, e), Proposed(p)) <==> Inert(h, e, p)
  {
    hide Put, Remaining, Outcomes, WithStop, OnTick, OnInvalidation;
    var x := Track(h, p).value;
    match e {
      case Cleared(id, stop) =>
        if stop.Some? { StopCommutesIff(s, x, id, stop.value); }
      case Priced(instrument, price, now) =>
        if instrument != "" && price.Some? {
          FreshFate(h, p, instrument, price.value, "", s.prices, now);
          FatesKeepIds("", s.prices, instrument, price.value, now);
          VisitCommutesIff(s.(prices := s.prices[instrument := price.value]), x, TickFate(instrument, price.value, now));
        }
      case Invalidated(thesis, now) =>
        if thesis != "" {
          FreshFate(h, p, "", 0.0, thesis, s.prices, now);
          FatesKeepIds(thesis, s.prices, "", 0.0, now);
          VisitCommutesIff(s, x, InvalidationFate(thesis, s.prices, now));
        }
    }
  }

  lemma HandleKeepsIds(h: Horizons, s: State, e: Signal, id: string)
    requires !Has(s.pending, id) && (e.Proposed? ==> e.proposal.id != id)
    ensures !Has(Handle(h, s, e).pending, id)
  {
    match e {
      case Cleared(_, _) =>
      case Proposed(p) =>
        var tracked := Track(h, p);
        if tracked.Some? { PutIds(s.pending, tracked.value, id); }
      case Priced(instrument, price, now) =>
        if instrument != "" && price.Some? {
          FatesKeepIds("", s.prices, instrument, price.value, now);
          RemainingIds(s.pending, TickFate(instrument, price.value, now), id);
        }
      case Invalidated(thesis, now) =>
        FatesKeepIds(thesis, s.prices, "", 0.0, now);
        RemainingIds(s.pending, InvalidationFate(thesis, s.prices, now), id);
    }
  }

  lemma {:induction false} PutIds(q: seq<Tracked>, x: Tracked, id: string)
    requires !Has(q, id) && x.id != id
    ensures !Has(Put(q, x), id)
  {
    if q != [] {
      forall k | 0 <= k < |q[1..]| ensures q[1..][k].id != id { assert q[1..][k] == q[k + 1]; }
      PutIds(q[1..], x, id);
      assert q[0].id != id;
    }
  }

  lemma UnseenNext(h: Horizons, s: State, events: seq<Signal>)
    requires events != [] && Orderly(h, events) && Unseen(h, s.pending, events)
    ensures Orderly(h, events[1..]) && Unseen(h, Handle(h, s, events[0]).pending, events[1..])
  {
    forall k | 0 <= k < |events[1..]| && events[1..][k].Proposed? && Track(h, events[1..][k].proposal).Some?
      ensures !Has(Handle(h, s, events[0]).pending, events[1..][k].proposal.id)
    {
      assert events[1..][k] == events[k + 1] && events[k + 1] in events;
      assert Inert(h, events[0], events[k + 1].proposal);
      HandleKeepsIds(h, s, events[0], events[k + 1].proposal.id);
    }
  }

  ghost predicate AllProposed(events: seq<Signal>) {
    forall k :: 0 <= k < |events| ==> events[k].Proposed?
  }

  lemma OrderlySuffix(h: Horizons, e: Signal, rest: seq<Signal>)
    requires Orderly(h, [e] + rest)
    ensures Orderly(h, rest)
  {
    hide Inert;
    assert forall k :: 0 <= k < |rest| ==> rest[k] == ([e] + rest)[k + 1];
  }

  lemma OrderlyTail(h: Horizons, e: Signal, p: Signal, rest: seq<Signal>)
    requires Orderly(h, [e] + ([p] + rest))
    ensures Orderly(h, [e] + rest) && (p.Proposed? ==> Inert(h, e, p.proposal))
  {
    hide Inert;
    var all := [e] + ([p] + rest);
    assert all[0] == e && all[1] == p;
    forall j, k | 0 <= j < k < |[e] + rest| && ([e] + rest)[k].Proposed?
      ensures Inert(h, ([e] + rest)[j], ([e] + rest)[k].proposal)
    {
      assert ([e] + rest)[k] == all[k + 1] && ([e] + rest)[j] == all[if j == 0 then 0 else j + 1];
    }
    forall k | 0 <= k < |[e] + rest| ensures !([e] + rest)[k].Cleared? {
      assert ([e] + rest)[k] == all[if k == 0 then 0 else k + 1];
    }
  }

  // Seeding a whole list of later proposals first makes no difference to one event.
  lemma {:induction false} SeedCommutes(h: Horizons, s: State, e: Signal, proposals: seq<Signal>)
    requires !e.Proposed? && Orderly(h, [e] + proposals) && AllProposed(proposals) && Unseen(h, s.pending, proposals)
    ensures Handle(h, HandleAll(h, s, proposals), e) == HandleAll(h, Handle(h, s, e), proposals)
    decreases |proposals|
  {
    if proposals != [] {
      var p, rest := proposals[0], proposals[1..];
      assert proposals == [p] + rest && p in proposals;
      OrderlyTail(h, e, p, rest);
      OrderlySuffix(h, e, proposals);
      UnseenNext(h, s, proposals);
      assert ([e] + proposals)[0] == e;
      hide Handle;
      SeedCommutes(h, Handle(h, s, p), e, rest);
      OneCommutes(h, s, e, p);
    }
  }

  lemma OneCommutes(h: Horizons, s: State, e: Signal, p: Signal)
    requires p.Proposed? && !e.Proposed? && Inert(h, e, p.proposal) && Unseen(h, s.pending, [p])
    ensures Handle(h, Handle(h, s, p), e) == Handle(h, Handle(h, s, e), p)
  {
    assert p in [p];
    if Track(h, p.proposal).Some? { ProposalCommutesIff(h, s, e, p.proposal); }
  }

  lemma {:induction false} ProposalsOf(h: Horizons, events: seq<Signal>)
    requires Orderly(h, events)
    ensures AllProposed(Proposals(events)) && Orderly(h, Proposals(events))
    ensures forall e :: e in Proposals(events) ==> e in events
  {
    if events != [] {
      var rest := events[1..];
      assert forall k :: 0 <= k < |rest| ==> rest[k] == events[k + 1];
      ProposalsOf(h, rest);
      forall k | 0 <= k < |Proposals(rest)|
        ensures Inert(h, events[0], Proposals(rest)[k].proposal)
      {
        assert Proposals(rest)[k] in rest;
        var j :| 0 <= j < |rest| && rest[j] == Proposals(rest)[k];
        assert events[j + 1].Proposed?;
      }
    }
  }

  lemma AheadOfProposals(h: Horizons, e: Signal, rest: seq<Signal>)
    requires Orderly(h, [e] + rest)
    ensures Orderly(h, [e] + Proposals(rest)) && AllProposed(Proposals(rest))
  {
    var all := [e] + rest;
    assert all[1..] == rest && all[0] == e;
    assert Orderly(h, rest) by {
      assert forall k :: 0 <= k < |rest| ==> rest[k] == all[k + 1];
    }
    ProposalsOf(h, rest);
    forall k | 0 <= k < |Proposals(rest)|
      ensures Inert(h, e, Proposals(rest)[k].proposal)
    {
      assert Proposals(rest)[k] in rest;
      var j :| 0 <= j < |rest| && rest[j] == Proposals(rest)[k];
      assert all[j + 1].Proposed?;
    }
  }

  /** Seeding every proposal and replaying the rest publishes the same outcomes in the same order, and leaves
      the same decisions tracked, as handling the stream as it came. */
  lemma {:induction false} CatchUpIsLive(h: Horizons, s: State, events: seq<Signal>)
    requires Orderly(h, events) && Unseen(h, s.pending, events)
    ensures CatchUp(h, s, events) == HandleAll(h, s, events)
    decreases |events|
  {
    if events != [] {
      var e, rest := events[0], events[1..];
      assert events == [e] + rest && !events[0].Cleared?;
      UnseenNext(h, s, events);
      hide Handle;
      CatchUpIsLive(h, Handle(h, s, e), rest);
      if e.Proposed? {
        assert ([e] + Proposals(rest))[1..] == Proposals(rest);
        assert [] + TicksAndInvalidations(rest) == TicksAndInvalidations(rest);
      } else {
        assert [] + Proposals(rest) == Proposals(rest);
        AheadOfProposals(h, e, rest);
        UnseenProposals(h, s.pending, events);
        SeedCommutes(h, s, e, Proposals(rest));
        assert ([e] + TicksAndInvalidations(rest))[1..] == TicksAndInvalidations(rest);
      }
    }
  }

  lemma UnseenProposals(h: Horizons, q: seq<Tracked>, events: seq<Signal>)
    requires events != [] && Orderly(h, events) && Unseen(h, q, events)
    ensures Unseen(h, q, Proposals(events[1..]))
  {
    assert Orderly(h, events[1..]) by {
      assert forall k :: 0 <= k < |events[1..]| ==> events[1..][k] == events[k + 1];
    }
    ProposalsOf(h, events[1..]);
    forall e | e in events[1..] ensures e in events { }
  }

  predicate CatchesUpOtherwise(h: Horizons, events: seq<Signal>) {
    CatchUp(h, State([], map[], []), events) != HandleAll(h, State([], map[], []), events)
  }

  /** The order matters: a proposal that arrives after a later tick of its instrument is entered by that tick
      when it is seeded, and not when it is handled live. */
  lemma LateProposalDiffers(h: Horizons)
    requires 0 < h.intraday
    ensures exists p: Proposal, tick: Signal :: tick.Priced? && CatchesUpOtherwise(h, [tick, Proposed(p)])
  {
    var p := Proposal("d", "A", "long", "intraday", 0.5, Paper, None, 0);
    var tick := Priced("A", Some(1.0), 0);
    var events := [tick, Proposed(p)];
    var s0 := State([], map[], []);
    var x := Track(h, p).value;
    assert events[1..] == [Proposed(p)] && [Proposed(p)][1..] == [] && [tick][1..] == [];
    assert Proposals(events[1..]) == [Proposed(p)] + Proposals([]) && TicksAndInvalidations(events[1..]) == [];
    assert Proposals(events) == [] + [Proposed(p)] == [Proposed(p)] && TicksAndInvalidations(events) == [tick];
    assert Handle(h, s0, tick).pending == [];
    assert HandleAll(h, s0, events) == HandleAll(h, Handle(h, s0, tick), [Proposed(p)]);
    assert HandleAll(h, Handle(h, s0, tick), [Proposed(p)]) == HandleAll(h, Handle(h, Handle(h, s0, tick), Proposed(p)), []);
    assert HandleAll(h, s0, events).pending == [x];
    assert HandleAll(h, s0, [Proposed(p)]) == State([x], map[], []);
    VisitOne([], x, TickFate("A", 1.0, 0));
    assert [] + [x] == [x];
    assert HandleAll(h, State([x], map[], []), [tick]).pending == [x.(entry := Some(1.0))];
    assert CatchesUpOtherwise(h, [tick, Proposed(p)]);
  }

  // ---------- what an outcome says ----------

  ghost predicate Distinct(q: seq<Tracked>) {
    forall j, k :: 0 <= j < k < |q| ==> q[j].id != q[k].id
  }

  lemma {:induction false} RemainingDistinct(q: seq<Tracked>, f: Tracked -> Fate)
    requires KeepsIds(f) && Distinct(q)
    ensures Distinct(Remaining(q, f))
  {
    if q != [] {
      var n := |q| - 1;
      RemainingDistinct(q[..n], f);
      forall k | 0 <= k < n ensures q[..n][k].id != q[n].id { assert q[..n][k] == q[k]; }
      RemainingIds(q[..n], f, q[n].id);
      assert f(q[n]).Stays? ==> f(q[n]).entry.id == q[n].id;
    }
  }

  lemma {:induction false} PutDistinct(q: seq<Tracked>, x: Tracked)
    requires Distinct(q)
    ensures Distinct(Put(q, x))
  {
    if q != [] && q[0].id != x.id {
      var rest := q[1..];
      PutDistinct(rest, x);
      forall k | 0 <= k < |rest| ensures rest[k].id != q[0].id { assert rest[k] == q[k + 1]; }
      PutIds(rest, x, q[0].id);
    }
  }

  // ---------- each decision is scored at most once ----------

  predicate Published(outcomes: seq<Outcome>, id: string) {
    exists k :: 0 <= k < |outcomes| && outcomes[k].id == id
  }

  ghost predicate DistinctOutcomes(outcomes: seq<Outcome>) {
    forall j, k :: 0 <= j < k < |outcomes| ==> outcomes[j].id != outcomes[k].id
  }

  /** Every id is tracked once or published once, and never both. */
  ghost predicate OnceEach(s: State) {
    Distinct(s.pending) && DistinctOutcomes(s.outcomes) && forall x :: x in s.pending ==> !Published(s.outcomes, x.id)
  }

  ghost predicate PublishesOwn(f: Tracked -> Fate) {
    KeepsIds(f) && forall x :: f(x).Leaves? && f(x).outcome.Some? ==> f(x).outcome.value.id == x.id
  }

  lemma FatesPublishOwn(thesis: string, prices: map<string, real>, instrument: string, price: real, now: int)
    ensures PublishesOwn(TickFate(instrument, price, now)) && PublishesOwn(InvalidationFate(thesis, prices, now))
  {
    FatesKeepIds(thesis, prices, instrument, price, now);
    forall x: Tracked, p: real, r: Reason
      ensures Resolve(x, p, now, r).Leaves? && Resolve(x, p, now, r).outcome.Some? ==> Resolve(x, p, now, r).outcome.value.id == x.id
    {
    }
    hide Resolve;
  }

  lemma PublishedOne(outcomes: seq<Outcome>, o: Outcome, id: string)
    ensures Published(outcomes + [o], id) <==> Published(outcomes, id) || o.id == id
    ensures outcomes + [] == outcomes
  {
    if Published(outcomes, id) {
      var k :| 0 <= k < |outcomes| && outcomes[k].id == id;
      assert (outcomes + [o])[k].id == id;
    }
    assert (outcomes + [o])[|outcomes|] == o;
    if Published(outcomes + [o], id) && o.id != id {
      var k :| 0 <= k < |outcomes + [o]| && (outcomes + [o])[k].id == id;
      assert outcomes[k].id == id;
    }
  }

  // What leaves was there, and no longer is.
  lemma {:induction false} OutcomesComeFrom(q: seq<Tracked>, f: Tracked -> Fate, id: string)
    requires PublishesOwn(f) && Distinct(q)
    ensures Published(Outcomes(q, f), id) ==> Has(q, id) && !Has(Remaining(q, f), id)
    ensures DistinctOutcomes(Outcomes(q, f))
  {
    if q != [] {
      var rest, x := q[..|q| - 1], q[|q| - 1];
      assert q == rest + [x];
      OutcomesComeFrom(rest, f, id);
      OutcomesComeFrom(rest, f, x.id);
      assert !Has(rest, x.id);
      RemainingIds(rest, f, x.id);
      HasOne(rest, x, id);
      VisitOne(rest, x, f);
      match f(x) {
        case Stays(y) =>
          HasOne(Remaining(rest, f), y, id);
          if Published(Outcomes(rest, f), id) && y.id == id { assert false; }
        case Leaves(None) =>
        case Leaves(Some(o)) => PublishedOne(Outcomes(rest, f), o, id);
      }
      assert Remaining(rest, f) + [] == Remaining(rest, f) && Outcomes(rest, f) + [] == Outcomes(rest, f);
    }
  }

  lemma HasOne(q: seq<Tracked>, x: Tracked, id: string)
    ensures Has(q + [x], id) <==> Has(q, id) || x.id == id
  {
    if Has(q, id) {
      var k :| 0 <= k < |q| && q[k].id == id;
      assert (q + [x])[k].id == id;
    }
    assert (q + [x])[|q|] == x;
    if Has(q + [x], id) && x.id != id {
      var k :| 0 <= k < |q + [x]| && (q + [x])[k].id == id;
      assert q[k].id == id;
    }
  }

  lemma HasElement(q: seq<Tracked>, x: Tracked)
    requires x in q
    ensures Has(q, x.id)
  {
  }

  lemma PublishedSplit(a: seq<Outcome>, b: seq<Outcome>, id: string)
    ensures Published(a + b, id) <==> Published(a, id) || Published(b, id)
  {
    if Published(a, id) {
      var k :| 0 <= k < |a| && a[k].id == id;
      assert (a + b)[k].id == id;
    }
    if Published(b, id) {
      var k :| 0 <= k < |b| && b[k].id == id;
      assert (a + b)[|a| + k].id == id;
    }
  }

  lemma VisitKeepsOnce(s: State, f: Tracked -> Fate)
    requires OnceEach(s) && PublishesOwn(f)
    ensures OnceEach(Visit(s, f))
    ensures forall id :: Published(Visit(s, f).outcomes, id) ==> Published(s.outcomes, id) || Has(s.pending, id)
  {
    RemainingDistinct(s.pending, f);
    var newly := Outcomes(s.pending, f);
    var d := Visit(s, f);
    forall id
      ensures Published(d.outcomes, id) <==> Published(s.outcomes, id) || Published(newly, id)
      ensures Published(newly, id) ==> Has(s.pending, id) && !Has(d.pending, id)
      ensures Has(s.pending, id) ==> !Published(s.outcomes, id)
      ensures DistinctOutcomes(newly)
      ensures Has(d.pending, id) ==> Has(s.pending, id)
    {
      PublishedSplit(s.outcomes, newly, id);
      OutcomesComeFrom(s.pending, f, id);
      if !Has(s.pending, id) { RemainingIds(s.pending, f, id); }
    }
    forall x | x in d.pending ensures !Published(d.outcomes, x.id) {
      HasElement(d.pending, x);
    }
    forall j, k | 0 <= j < k < |d.outcomes|
      ensures d.outcomes[j].id != d.outcomes[k].id
    {
      if j < |s.outcomes| <= k {
        assert Published(s.outcomes, d.outcomes[j].id);
        assert newly[k - |s.outcomes|] == d.outcomes[k];
        assert Published(newly, d.outcomes[k].id);
      } else if |s.outcomes| <= j {
        assert newly[j - |s.outcomes|] == d.outcomes[j] && newly[k - |s.outcomes|] == d.outcomes[k];
      }
    }
  }

  /** The id of the proposal has not been seen. */
  ghost predicate NewId(s: State, e: Signal) {
    e.Proposed? ==> !Has(s.pending, e.proposal.id) && !Published(s.outcomes, e.proposal.id)
  }

  lemma StopKeepsOnce(s: State, id: string, stop: real)
    requires OnceEach(s)
    ensures OnceEach(s.(pending := WithStop(s.pending, id, stop)))
  {
    var q := WithStop(s.pending, id, stop);
    forall x | x in q
      ensures !Published(s.outcomes, x.id)
    {
      var k :| 0 <= k < |q| && q[k] == x;
      assert s.pending[k] in s.pending && s.pending[k].id == x.id;
    }
  }

  lemma HandleKeepsOnce(h: Horizons, s: State, e: Signal)
    requires OnceEach(s) && NewId(s, e)
    ensures OnceEach(Handle(h, s, e))
    ensures forall id :: Published(Handle(h, s, e).outcomes, id) ==> Published(s.outcomes, id) || Has(s.pending, id)
  {
    match e {
      case Cleared(id, stop) => if stop.Some? { StopKeepsOnce(s, id, stop.value); }
      case Proposed(p) =>
        var tracked := Track(h, p);
        if tracked.Some? {
          PutDistinct(s.pending, tracked.value);
          PutFresh(s.pending, tracked.value);
        }
      case Priced(instrument, price, now) =>
        if instrument != "" && price.Some? {
          FatesPublishOwn("", s.prices, instrument, price.value, now);
          hide Visit, PublishesOwn;
          VisitKeepsOnce(s.(prices := s.prices[instrument := price.value]), TickFate(instrument, price.value, now));
        }
      case Invalidated(thesis, now) =>
        FatesPublishOwn(thesis, s.prices, "", 0.0, now);
        hide Visit, PublishesOwn;
        VisitKeepsOnce(s, InvalidationFate(thesis, s.prices, now));
    }
  }

  /** Ids of later proposals are new. */
  ghost predicate AllNew(s: State, events: seq<Signal>) {
    && (forall k :: 0 <= k < |events| ==> NewId(s, events[k]))
    && (forall j, k :: 0 <= j < k < |events| && events[j].Proposed? && events[k].Proposed? ==>
          events[j].proposal.id != events[k].proposal.id)
  }

  lemma AllNewNext(h: Horizons, s: State, events: seq<Signal>)
    requires events != [] && OnceEach(s) && AllNew(s, events)
    ensures AllNew(Handle(h, s, events[0]), events[1..])
  {
    HandleKeepsOnce(h, s, events[0]);
    var rest := events[1..];
    assert forall k :: 0 <= k < |rest| ==> rest[k] == events[k + 1];
    forall k | 0 <= k < |rest|
      ensures NewId(Handle(h, s, events[0]), rest[k])
    {
      assert NewId(s, events[k + 1]);
      if rest[k].Proposed? { HandleKeepsIds(h, s, events[0], rest[k].proposal.id); }
    }
  }

  /** A decision proposed once is published at most once, and no longer tracked when it is. */
  lemma {:induction false} ScoredAtMostOnce(h: Horizons, s: State, events: seq<Signal>)
    requires OnceEach(s) && AllNew(s, events)
    ensures OnceEach(HandleAll(h, s, events))
    decreases |events|
  {
    if events != [] {
      assert NewId(s, events[0]);
      HandleKeepsOnce(h, s, events[0]);
      AllNewNext(h, s, events);
      hide Handle, OnceEach, AllNew;
      ScoredAtMostOnce(h, Handle(h, s, events[0]), events[1..]);
    }
  }

  /** A hit is a move in the predicted direction, whatever its size. */
  lemma HitMeansProfit(x: Tracked, price: real, now: int, reason: Reason)
    requires x.entry.Some? && 0.0 < x.entry.value
    ensures var fate := Resolve(x, price, now, reason);
      fate.Leaves? && fate.outcome.Some?
      && (fate.outcome.value.hit <==> if x.side == Long then x.entry.value < price else price < x.entry.value)
  {
    QuotientSign(price - x.entry.value, x.entry.value);
  }

  lemma QuotientSign(a: real, b: real)
    requires 0.0 < b
    ensures (0.0 < a <==> 0.0 < a / b) && (a < 0.0 <==> a / b < 0.0)
  {
    var q := a / b;
    assert q * b == a;
    if 0.0 < q { assert 0.0 < q * b; }
    if q < 0.0 { assert q * b < 0.0; }
  }

  /** After a priced tick nothing of that instrument is past its deadline, and what was proposed by then has an entry price. */
  lemma {:induction false} DeadlinesClear(q: seq<Tracked>, instrument: string, price: real, now: int)
    ensures forall x :: x in Remaining(q, TickFate(instrument, price, now)) && x.instrument == instrument ==>
              now < x.deadline && (x.proposedAt <= now ==> x.entry.Some?)
  {
    if q != [] {
      var rest, last := q[..|q| - 1], q[|q| - 1];
      DeadlinesClear(rest, instrument, price, now);
      hide Resolve;
      ResolveLeaves(last, price, now, HorizonElapsed);
      ResolveLeaves(last, price, now, StopBreached);
    }
  }

  // ---------- the resolver as an object ----------

  function Selected(q: seq<Tracked>, p: Tracked -> bool): seq<Tracked> {
    if q == [] then []
    else Selected(q[..|q| - 1], p) + if p(q[|q| - 1]) then [q[|q| - 1]] else []
  }

  function Without(q: seq<Tracked>, id: string): seq<Tracked> {
    if q == [] then []
    else Without(q[..|q| - 1], id) + if q[|q| - 1].id == id then [] else [q[|q| - 1]]
  }

  function WithoutAll(q: seq<Tracked>, ids: set<string>): seq<Tracked> {
    if q == [] then []
    else WithoutAll(q[..|q| - 1], ids) + if q[|q| - 1].id in ids then [] else [q[|q| - 1]]
  }

  function Ids(q: seq<Tracked>): set<string> {
    set x | x in q :: x.id
  }

  /** Entries that stay are rewritten; the others are as they were. */
  function Rewritten(q: seq<Tracked>, f: Tracked -> Fate): seq<Tracked> {
    seq(|q|, k requires 0 <= k < |q| => match f(q[k]) case Stays(x) => x case Leaves(_) => q[k])
  }

  lemma WithoutAppend(q: seq<Tracked>, x: Tracked, ids: set<string>)
    ensures WithoutAll(q + [x], ids) == WithoutAll(q, ids) + if x.id in ids then [] else [x]
    ensures q + [] == q
  {
    assert (q + [x])[..|q|] == q;
  }

  lemma {:induction false} WithoutIsAll(q: seq<Tracked>, id: string)
    ensures Without(q, id) == WithoutAll(q, {id})
  {
    if q != [] { WithoutIsAll(q[..|q| - 1], id); }
  }

  lemma {:induction false} WithoutMore(q: seq<Tracked>, a: set<string>, b: set<string>)
    ensures WithoutAll(WithoutAll(q, a), b) == WithoutAll(q, a + b)
  {
    if q != [] {
      var rest, x := q[..|q| - 1], q[|q| - 1];
      assert q == rest + [x];
      WithoutMore(rest, a, b);
      WithoutAppend(rest, x, a);
      WithoutAppend(rest, x, a + b);
      WithoutAppend(WithoutAll(rest, a), x, b);
      hide WithoutAll;
      assert WithoutAll(rest, a) + [] == WithoutAll(rest, a);
      assert WithoutAll(rest, a + b) + [] == WithoutAll(rest, a + b);
    }
  }

  lemma {:induction false} WithoutNone(q: seq<Tracked>)
    ensures WithoutAll(q, {}) == q
  {
    if q != [] {
      WithoutNone(q[..|q| - 1]);
      assert q == q[..|q| - 1] + [q[|q| - 1]];
    }
  }

  // Removing the leaving ids from the rewritten list leaves what remains.
  lemma {:induction false} LeaversRemoved(q: seq<Tracked>, f: Tracked -> Fate, ids: set<string>)
    requires KeepsIds(f) && forall x :: x in q ==> (x.id in ids <==> f(x).Leaves?)
    ensures WithoutAll(Rewritten(q, f), ids) == Remaining(q, f)
  {
    if q != [] {
      var n := |q| - 1;
      LeaversRemoved(q[..n], f, ids);
      assert q == q[..n] + [q[n]] && q[n] in q;
      assert Rewritten(q, f)[..n] == Rewritten(q[..n], f);
      assert f(q[n]).Stays? ==> f(q[n]).entry.id == q[n].id;
    }
  }

  lemma {:induction false} SelectedElements(q: seq<Tracked>, p: Tracked -> bool)
    ensures forall x :: x in Selected(q, p) <==> x in q && p(x)
  {
    if q != [] {
      SelectedElements(q[..|q| - 1], p);
      assert q == q[..|q| - 1] + [q[|q| - 1]];
    }
  }

  // Only the selected entries publish anything.
  lemma {:induction false} SelectedPublish(q: seq<Tracked>, p: Tracked -> bool, f: Tracked -> Fate)
    requires forall x :: f(x).Leaves? && f(x).outcome.Some? ==> p(x)
    ensures Outcomes(Selected(q, p), f) == Outcomes(q, f)
  {
    if q != [] {
      var n := |q| - 1;
      SelectedPublish(q[..n], p, f);
      VisitOne(Selected(q[..n], p), q[n], f);
      assert Selected(q[..n], p) + [] == Selected(q[..n], p);
      assert Outcomes(q[..n], f) + [] == Outcomes(q[..n], f);
    }
  }

  lemma IdsDecide(q: seq<Tracked>, p: Tracked -> bool, r: Tracked -> bool)
    requires Distinct(q)
    ensures forall x :: x in q ==> (x.id in Ids(Selected(q, p)) + Ids(Selected(q, r)) <==> p(x) || r(x))
  {
    SelectedElements(q, p);
    SelectedElements(q, r);
  }

  lemma SelectedOne(q: seq<Tracked>, x: Tracked, p: Tracked -> bool)
    ensures Selected(q + [x], p) == Selected(q, p) + if p(x) then [x] else []
  {
    assert (q + [x])[..|q|] == q;
  }

  function IsDue(instrument: string, price: real, now: int): Tracked -> bool {
    (x: Tracked) => Judge(x, instrument, price, now).Due?
  }

  function IsUnscoreable(instrument: string, price: real, now: int): Tracked -> bool {
    (x: Tracked) => Judge(x, instrument, price, now).Unscoreable?
  }

  function Governed(thesis: string): Tracked -> bool {
    (x: Tracked) => x.thesis == Some(thesis)
  }

  class OutcomeResolver {
    const horizons: Horizons
    var pending: seq<Tracked>
    var prices: map<string, real>
    var outcomes: seq<Outcome>

    /** A dictionary has one entry per id. */
    ghost predicate Valid()
      reads this
    {
      Distinct(pending)
    }

    ghost function Snapshot(): State
      reads this
    {
      State(pending, prices, outcomes)
    }

    constructor (horizons: Horizons)
      ensures Valid() && this.horizons == horizons && Snapshot() == State([], map[], [])
    {
      this.horizons := horizons;
      pending := [];
      prices := map[];
      outcomes := [];
    }

    method HandleProposed(p: Proposal)
      requires Valid()
      modifies this
      ensures Valid() && Snapshot() == Handle(horizons, old(Snapshot()), Proposed(p))
    {
      var x := Track(horizons, p);
      if x.Some? {
        PutDistinct(pending, x.value);
        pending := Put(pending, x.value);
      }
    }

    /** The risk engine's stop; an approval of an unknown decision is ignored. */
    method HandleApproved(id: string, stop: Option<real>)
      requires Valid()
      modifies this
      ensures Valid() && Snapshot() == Handle(horizons, old(Snapshot()), Cleared(id, stop))
    {
      if stop.Some? {
        pending := WithStop(pending, id, stop.value);
      }
    }

    /** Remove the entry and publish its outcome, unless it has no usable entry price. */
    method Settle(x: Tracked, price: real, now: int, reason: Reason)
      modifies this
      ensures pending == Without(old(pending), x.id) && prices == old(prices)
      ensures outcomes == old(outcomes) + OutcomeOf(Resolve(x, price, now, reason))
    {
      pending := Without(pending, x.id);
      var fate := Resolve(x, price, now, reason);
      ResolveLeaves(x, price, now, reason);
      assert outcomes + [] == outcomes;
      if fate.outcome.Some? {
        outcomes := outcomes + [fate.outcome.value];
      }
    }

    /** Walk the tracked decisions: enter prices, and collect what is to be dropped and what is due. */
    method Scan(instrument: string, price: real, now: int) returns (drop: seq<Tracked>, due: seq<Tracked>)
      modifies this`pending
      ensures pending == Rewritten(old(pending), TickFate(instrument, price, now))
      ensures drop == Selected(old(pending), IsUnscoreable(instrument, price, now))
      ensures due == Selected(old(pending), IsDue(instrument, price, now))
    {
      ghost var before := pending;
      ghost var f := TickFate(instrument, price, now);
      drop, due := [], [];
      ScanBounds(before, instrument, price, now);
      hide RewrittenTo, Rewritten, Selected, TickFate, Judge, IsUnscoreable, IsDue;
      for i := 0 to |pending|
        invariant |pending| == |before| && pending == RewrittenTo(before, i, f)
        invariant drop == Selected(before[..i], IsUnscoreable(instrument, price, now))
        invariant due == Selected(before[..i], IsDue(instrument, price, now))
      {
        var x := pending[i];
        ScanMore(before, i, instrument, price, now);
        match Judge(x, instrument, price, now) {
          case Pass =>
          case Enter => pending := pending[i := x.(entry := Some(price))];
          case Unscoreable => drop := drop + [x];
          case Due(_) => due := due + [x];
        }
      }
    }

    /** Drop these entries without an outcome. */
    method Discard(drop: seq<Tracked>)
      modifies this`pending
      ensures pending == WithoutAll(old(pending), Ids(drop))
    {
      ghost var before := pending;
      NoneWithout(before, drop);
      hide WithoutAll, Without, Ids;
      for i := 0 to |drop|
        invariant pending == WithoutAll(before, Ids(drop[..i]))
      {
        OneMoreWithout(before, drop, i);
        pending := Without(pending, drop[i].id);
      }
      assert drop[..|drop|] == drop;
    }

    /** Resolve these entries one after the other at the tick's price. */
    method SettleAll(due: seq<Tracked>, instrument: string, price: real, now: int)
      requires forall x :: x in due ==> Judge(x, instrument, price, now).Due?
      modifies this
      ensures pending == WithoutAll(old(pending), Ids(due)) && prices == old(prices)
      ensures outcomes == old(outcomes) + Outcomes(due, TickFate(instrument, price, now))
    {
      ghost var before, published := pending, outcomes;
      ghost var f := TickFate(instrument, price, now);
      NoneWithout(before, due);
      NoneOutcomes(published, due, f);
      hide WithoutAll, Without, Ids, Judge, Resolve, TickFate, Outcomes;
      for i := 0 to |due|
        invariant pending == WithoutAll(before, Ids(due[..i])) && prices == old(prices)
        invariant outcomes == published + Outcomes(due[..i], f)
      {
        assert due[i] in due;
        OneMoreWithout(before, due, i);
        OneMoreOutcome(published, due, i, f);
        DueResolves(due[i], instrument, price, now);
        Settle(due[i], price, now, ReasonDue(due[i], instrument, price, now));
      }
      assert due[..|due|] == due;
    }

    method HandleTick(instrument: string, price: Option<real>, now: int)
      requires Valid()
      modifies this
      ensures Valid() && Snapshot() == Handle(horizons, old(Snapshot()), Priced(instrument, price, now))
    {
      if instrument == "" || price.None? {
        return;
      }
      TickSettled(horizons, Snapshot(), instrument, price.value, now);
      ghost var before := pending;
      hide Rewritten, Selected, Handle, Outcomes, Judge, WithoutAll, Distinct, TickFate;
      prices := prices[instrument := price.value];
      var drop, due := Scan(instrument, price.value, now);
      forall x | x in due ensures Judge(x, instrument, price.value, now).Due? {
        DueFate(before, x, instrument, price.value, now);
      }
      Discard(drop);
      SettleAll(due, instrument, price.value, now);
    }

    /** Resolve this entry at the last price of its instrument; without a price or an entry it is dropped. */
    method SettleAtLast(x: Tracked, thesis: string, now: int)
      requires x.thesis == Some(thesis)
      modifies this
      ensures pending == Without(old(pending), x.id) && prices == old(prices)
      ensures outcomes == old(outcomes) + OutcomeOf(InvalidationFate(thesis, old(prices), now)(x))
    {
      DeadFate(x, thesis, prices, now);
      hide Without, Resolve, InvalidationFate;
      if x.entry.None? || x.instrument !in prices {
        pending := Without(pending, x.id);
        assert outcomes + [] == outcomes;
      } else {
        Settle(x, prices[x.instrument], now, ThesisDied);
      }
    }

    /** Settle these entries one after the other. */
    method SettleDead(matching: seq<Tracked>, thesis: string, now: int)
      requires forall x :: x in matching ==> x.thesis == Some(thesis)
      modifies this
      ensures pending == WithoutAll(old(pending), Ids(matching)) && prices == old(prices)
      ensures outcomes == old(outcomes) + Outcomes(matching, InvalidationFate(thesis, old(prices), now))
    {
      ghost var before, published := pending, outcomes;
      ghost var f := InvalidationFate(thesis, prices, now);
      NoneWithout(before, matching);
      NoneOutcomes(published, matching, f);
      hide WithoutAll, Without, Ids, Resolve, Outcomes, OnInvalidation, InvalidationFate;
      for i := 0 to |matching|
        invariant pending == WithoutAll(before, Ids(matching[..i])) && prices == old(prices)
        invariant outcomes == published + Outcomes(matching[..i], f)
      {
        assert matching[i] in matching;
        OneMoreWithout(before, matching, i);
        OneMoreOutcome(published, matching, i, f);
        SettleAtLast(matching[i], thesis, now);
      }
      assert matching[..|matching|] == matching;
    }

    method HandleInvalidated(thesis: string, now: int)
      requires Valid()
      modifies this
      ensures Valid() && Snapshot() == Handle(horizons, old(Snapshot()), Invalidated(thesis, now))
    {
      if thesis == "" {
        return;
      }
      ghost var before := pending;
      var matching := Selected(pending, Governed(thesis));
      SelectedElements(pending, Governed(thesis));
      forall x | x in matching ensures x.thesis == Some(thesis) { assert Governed(thesis)(x); }
      hide Selected, Remaining, Outcomes, WithoutAll, Distinct, InvalidationFate;
      SettleDead(matching, thesis, now);
      InvalidationSettles(before, thesis, prices, now);
    }

    /** Track unresolved proposals again. */
    method Seed(proposals: seq<Proposal>)
      requires Valid()
      modifies this
      ensures Valid() && Snapshot() == HandleAll(horizons, old(Snapshot()), Announced(proposals))
    {
      ghost var all := Announced(proposals);
      for i := 0 to |proposals|
        invariant Valid()
        invariant HandleAll(horizons, old(Snapshot()), all) == HandleAll(horizons, Snapshot(), all[i..])
      {
        assert all[i..][0] == Proposed(proposals[i]) && all[i..][1..] == all[i + 1..];
        HandleProposed(proposals[i]);
      }
    }

    /** Catch up on ticks and invalidations; other events are passed over. */
    method Replay(events: seq<Signal>)
      requires Valid()
      modifies this
      ensures Valid() && Snapshot() == HandleAll(horizons, old(Snapshot()), TicksAndInvalidations(events))
    {
      for i := 0 to |events|
        invariant Valid()
        invariant HandleAll(horizons, old(Snapshot()), TicksAndInvalidations(events))
                  == HandleAll(horizons, Snapshot(), TicksAndInvalidations(events[i..]))
      {
        ghost var rest := TicksAndInvalidations(events[i + 1..]);
        assert events[i..][0] == events[i] && events[i..][1..] == events[i + 1..];
        assert ([events[i]] + rest)[1..] == rest && [] + rest == rest;
        match events[i] {
          case Priced(instrument, price, now) => HandleTick(instrument, price, now);
          case Invalidated(thesis, now) => HandleInvalidated(thesis, now);
          case _ =>
        }
      }
    }
  }

  /** The proposals as events of the stream. */
  function Announced(proposals: seq<Proposal>): seq<Signal> {
    seq(|proposals|, k requires 0 <= k < |proposals| => Proposed(proposals[k]))
  }

  function ReasonDue(x: Tracked, instrument: string, price: real, now: int): Reason
    requires Judge(x, instrument, price, now).Due?
  {
    Judge(x, instrument, price, now).reason
  }

  lemma NoneWithout(q: seq<Tracked>, gone: seq<Tracked>)
    ensures WithoutAll(q, Ids(gone[..0])) == q
  {
    assert Ids(gone[..0]) == {};
    WithoutNone(q);
  }

  // The loop has removed one entry more.
  lemma OneMoreWithout(q: seq<Tracked>, gone: seq<Tracked>, i: int)
    requires 0 <= i < |gone|
    ensures Without(WithoutAll(q, Ids(gone[..i])), gone[i].id) == WithoutAll(q, Ids(gone[..i + 1]))
  {
    hide WithoutAll, Without, Ids;
    IdsOne(gone, i);
    WithoutIsAll(WithoutAll(q, Ids(gone[..i])), gone[i].id);
    WithoutMore(q, Ids(gone[..i]), {gone[i].id});
  }

  lemma NoneOutcomes(published: seq<Outcome>, q: seq<Tracked>, f: Tracked -> Fate)
    ensures published + Outcomes(q[..0], f) == published
  {
  }

  lemma OneMoreOutcome(published: seq<Outcome>, q: seq<Tracked>, i: int, f: Tracked -> Fate)
    requires 0 <= i < |q|
    ensures published + Outcomes(q[..i + 1], f) == published + Outcomes(q[..i], f) + OutcomeOf(f(q[i]))
  {
    VisitOne(q[..i], q[i], f);
    assert q[..i + 1] == q[..i] + [q[i]];
  }

  lemma DeadFate(x: Tracked, thesis: string, prices: map<string, real>, now: int)
    requires x.thesis == Some(thesis)
    ensures InvalidationFate(thesis, prices, now)(x)
            == if x.entry.None? || x.instrument !in prices then Leaves(None)
               else Resolve(x, prices[x.instrument], now, ThesisDied)
  {
    hide Resolve;
  }

  lemma IdsOne(q: seq<Tracked>, i: int)
    requires 0 <= i < |q|
    ensures Ids(q[..i + 1]) == Ids(q[..i]) + {q[i].id}
  {
    assert q[..i + 1] == q[..i] + [q[i]];
  }

  lemma JudgedFate(x: Tracked, instrument: string, price: real, now: int)
    ensures TickFate(instrument, price, now)(x).Stays? ==>
              TickFate(instrument, price, now)(x).entry
              == if Judge(x, instrument, price, now).Enter? then x.(entry := Some(price)) else x
    ensures TickFate(instrument, price, now)(x).Leaves? <==>
              Judge(x, instrument, price, now).Unscoreable? || Judge(x, instrument, price, now).Due?
    ensures IsUnscoreable(instrument, price, now)(x) <==> Judge(x, instrument, price, now).Unscoreable?
    ensures IsDue(instrument, price, now)(x) <==> Judge(x, instrument, price, now).Due?
  {
  }

  /** The list during the walk: rewritten up to here, as it was from here on. */
  function RewrittenTo(q: seq<Tracked>, i: nat, f: Tracked -> Fate): seq<Tracked>
    requires i <= |q|
  {
    Rewritten(q[..i], f) + q[i..]
  }

  lemma ScanBounds(q: seq<Tracked>, instrument: string, price: real, now: int)
    ensures var f := TickFate(instrument, price, now);
      && RewrittenTo(q, 0, f) == q && RewrittenTo(q, |q|, f) == Rewritten(q, f)
      && q[..0] == [] && q[..|q|] == q
    ensures Selected([], IsUnscoreable(instrument, price, now)) == [] == Selected([], IsDue(instrument, price, now))
  {
    hide Judge, Resolve, OnTick;
    assert q[..|q|] == q && q[|q|..] == [] && q[..0] == [] && q[0..] == q;
  }

  // The walk has rewritten one entry more.
  lemma RewrittenMore(q: seq<Tracked>, i: int, f: Tracked -> Fate)
    requires 0 <= i < |q|
    ensures |RewrittenTo(q, i, f)| == |q| && RewrittenTo(q, i, f)[i] == q[i]
    ensures RewrittenTo(q, i + 1, f) == RewrittenTo(q, i, f)[i := match f(q[i]) case Stays(y) => y case Leaves(_) => q[i]]
  {
    assert Rewritten(q[..i + 1], f) == Rewritten(q[..i], f) + [match f(q[i]) case Stays(y) => y case Leaves(_) => q[i]];
  }

  // What one more entry adds to the three lists.
  lemma ScanMore(q: seq<Tracked>, i: int, instrument: string, price: real, now: int)
    requires 0 <= i < |q|
    ensures var f, j, x := TickFate(instrument, price, now), Judge(q[i], instrument, price, now), q[i];
      && |RewrittenTo(q, i, f)| == |q| && RewrittenTo(q, i, f)[i] == x
      && RewrittenTo(q, i + 1, f)
         == (if j.Enter? then RewrittenTo(q, i, f)[i := x.(entry := Some(price))] else RewrittenTo(q, i, f))
      && Selected(q[..i + 1], IsUnscoreable(instrument, price, now))
         == (if j.Unscoreable? then Selected(q[..i], IsUnscoreable(instrument, price, now)) + [x]
             else Selected(q[..i], IsUnscoreable(instrument, price, now)))
      && Selected(q[..i + 1], IsDue(instrument, price, now))
         == (if j.Due? then Selected(q[..i], IsDue(instrument, price, now)) + [x]
             else Selected(q[..i], IsDue(instrument, price, now)))
  {
    var f := TickFate(instrument, price, now);
    RewrittenMore(q, i, f);
    SelectedMore(q, i, IsUnscoreable(instrument, price, now));
    SelectedMore(q, i, IsDue(instrument, price, now));
    JudgedFate(q[i], instrument, price, now);
    hide RewrittenTo, Selected, TickFate, Judge, IsUnscoreable, IsDue;
    assert RewrittenTo(q, i, f)[i := q[i]] == RewrittenTo(q, i, f);
    assert Selected(q[..i], IsUnscoreable(instrument, price, now)) + [] == Selected(q[..i], IsUnscoreable(instrument, price, now));
    assert Selected(q[..i], IsDue(instrument, price, now)) + [] == Selected(q[..i], IsDue(instrument, price, now));
  }

  lemma SelectedMore(q: seq<Tracked>, i: int, p: Tracked -> bool)
    requires 0 <= i < |q|
    ensures Selected(q[..i + 1], p) == Selected(q[..i], p) + if p(q[i]) then [q[i]] else []
  {
    assert q[..i + 1] == q[..i] + [q[i]];
    SelectedOne(q[..i], q[i], p);
  }

  lemma DueResolves(x: Tracked, instrument: string, price: real, now: int)
    requires Judge(x, instrument, price, now).Due?
    ensures TickFate(instrument, price, now)(x) == Resolve(x, price, now, ReasonDue(x, instrument, price, now))
  {
    hide Resolve;
  }

  lemma DueFate(q: seq<Tracked>, x: Tracked, instrument: string, price: real, now: int)
    requires x in Selected(q, IsDue(instrument, price, now))
    ensures Judge(x, instrument, price, now).Due?
    ensures TickFate(instrument, price, now)(x) == Resolve(x, price, now, ReasonDue(x, instrument, price, now))
  {
    SelectedElements(q, IsDue(instrument, price, now));
  }

  lemma TickSettles(q: seq<Tracked>, instrument: string, price: real, now: int)
    requires Distinct(q)
    ensures var f := TickFate(instrument, price, now);
      var drop, due := Selected(q, IsUnscoreable(instrument, price, now)), Selected(q, IsDue(instrument, price, now));
      && WithoutAll(Rewritten(q, f), Ids(drop) + Ids(due)) == Remaining(q, f)
      && Outcomes(due, f) == Outcomes(q, f) && Distinct(Remaining(q, f))
  {
    var f := TickFate(instrument, price, now);
    FatesKeepIds("", map[], instrument, price, now);
    JudgedLeave(instrument, price, now);
    IdsDecide(q, IsUnscoreable(instrument, price, now), IsDue(instrument, price, now));
    var ids := Ids(Selected(q, IsUnscoreable(instrument, price, now))) + Ids(Selected(q, IsDue(instrument, price, now)));
    LeaversRemoved(q, f, ids);
    SelectedPublish(q, IsDue(instrument, price, now), f);
    RemainingDistinct(q, f);
  }

  lemma TickVisits(h: Horizons, s: State, instrument: string, price: real, now: int)
    requires instrument != ""
    ensures var f := TickFate(instrument, price, now);
      Handle(h, s, Priced(instrument, Some(price), now))
      == State(Remaining(s.pending, f), s.prices[instrument := price], s.outcomes + Outcomes(s.pending, f))
  {
    hide Remaining, Outcomes, TickFate;
  }

  /** Scanning, discarding and settling one after the other is handling the tick. */
  lemma TickSettled(h: Horizons, s: State, instrument: string, price: real, now: int)
    requires Distinct(s.pending) && instrument != ""
    ensures var f := TickFate(instrument, price, now);
      var drop := Selected(s.pending, IsUnscoreable(instrument, price, now));
      var due := Selected(s.pending, IsDue(instrument, price, now));
      var rest := WithoutAll(WithoutAll(Rewritten(s.pending, f), Ids(drop)), Ids(due));
      && Handle(h, s, Priced(instrument, Some(price), now))
         == State(rest, s.prices[instrument := price], s.outcomes + Outcomes(due, f))
      && Distinct(rest)
  {
    var f := TickFate(instrument, price, now);
    TickVisits(h, s, instrument, price, now);
    TickSettles(s.pending, instrument, price, now);
    hide Handle, Judge;
    WithoutMore(Rewritten(s.pending, f), Ids(Selected(s.pending, IsUnscoreable(instrument, price, now))),
                Ids(Selected(s.pending, IsDue(instrument, price, now))));
    hide Rewritten, Selected, Remaining, Outcomes, WithoutAll, Distinct, TickFate, Ids;
  }

  lemma JudgedLeave(instrument: string, price: real, now: int)
    ensures var f := TickFate(instrument, price, now);
      && (forall x :: f(x).Leaves? <==> IsUnscoreable(instrument, price, now)(x) || IsDue(instrument, price, now)(x))
      && (forall x :: f(x).Leaves? && f(x).outcome.Some? ==> IsDue(instrument, price, now)(x))
  {
  }

  lemma InvalidationSettles(q: seq<Tracked>, thesis: string, prices: map<string, real>, now: int)
    requires Distinct(q)
    ensures var f, matching := InvalidationFate(thesis, prices, now), Selected(q, Governed(thesis));
      && WithoutAll(q, Ids(matching)) == Remaining(q, f)
      && Outcomes(matching, f) == Outcomes(q, f) && Distinct(Remaining(q, f))
  {
    var f := InvalidationFate(thesis, prices, now);
    FatesKeepIds(thesis, prices, "", 0.0, now);
    GovernedLeave(thesis, prices, now);
    IdsDecide(q, Governed(thesis), Governed(thesis));
    LeaversRemoved(q, f, Ids(Selected(q, Governed(thesis))));
    assert Rewritten(q, f) == q;
    SelectedPublish(q, Governed(thesis), f);
    RemainingDistinct(q, f);
  }

  lemma GovernedLeave(thesis: string, prices: map<string, real>, now: int)
    ensures var f := InvalidationFate(thesis, prices, now);
      forall x :: if Governed(thesis)(x) then f(x).Leaves? else f(x) == Stays(x)
  {
  }
}
