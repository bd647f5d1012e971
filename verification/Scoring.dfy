/** calibration/resolver.py: when a tracked decision is entered, dropped or resolved, and what is then published. */
module Scoring {
  import opened Events
  import opened Resolver

  // ---------- what is published ----------

  /** The price moved from entry by this percentage in the predicted direction. */
  predicate MovedBy(side: Side, entry: real, price: real, pct: real) {
    match side
    case Long => 100.0 * price == entry * (100.0 + pct)
    case Short => 100.0 * price == entry * (100.0 - pct)
  }

  /** The outcome of this decision at this price, for this reason. */
  predicate OutcomeFor(o: Outcome, x: Tracked, price: real, now: int, reason: Reason) {
    && o.id == x.id && o.instrument == x.instrument && o.side == x.side && o.confidence == x.confidence && o.mode == x.mode
    && x.entry == Some(o.entry) && o.price == price && o.reason == reason && o.proposedAt == x.proposedAt && o.resolvedAt == now
    && MovedBy(x.side, o.entry, price, o.returnPct) && (o.hit <==> 0.0 < o.returnPct)
  }

  lemma ShareMoves(entry: real, price: real, sign: real)
    requires entry != 0.0 && (sign == 1.0 || sign == -1.0)
    ensures var pct := (price - entry) / entry * sign * 100.0;
      100.0 * price == entry * (100.0 + sign * pct)
  {
    var share := (price - entry) / entry;
    assert share * entry == price - entry;
    assert sign * (share * sign * 100.0) == share * 100.0;
    assert entry * (100.0 + share * 100.0) == 100.0 * entry + 100.0 * (share * entry);
  }

  /** A decision with an entry price other than zero is published with its return; any other is dropped silently. */
  lemma ResolveMeans(x: Tracked, price: real, now: int, reason: Reason)
    ensures var fate := Resolve(x, price, now, reason);
      && fate.Leaves? && (fate.outcome.Some? <==> x.entry.Some? && x.entry.value != 0.0)
      && (fate.outcome.Some? ==> OutcomeFor(fate.outcome.value, x, price, now, reason))
  {
    if x.entry.Some? && x.entry.value != 0.0 {
      ShareMoves(x.entry.value, price, if x.side == Long then 1.0 else -1.0);
    }
  }

  // ---------- when ----------

  /** The price has reached the stop, from whichever side it protects. */
  predicate StopHit(x: Tracked, price: real) {
    x.stop.Some? && match x.side case Long => price <= x.stop.value case Short => x.stop.value <= price
  }

  /** What a tick of its instrument must do to a tracked decision. */
  ghost predicate TickEffect(x: Tracked, fate: Fate, price: real, now: int) {
    if x.entry.None? then
      if now >= x.deadline then fate == Leaves(None)
      else if now >= x.proposedAt then fate == Stays(x.(entry := Some(price)))
      else fate == Stays(x)
    else if now < x.deadline && !StopHit(x, price) then fate == Stays(x)
    else
      && fate.Leaves? && (fate.outcome.Some? <==> x.entry.value != 0.0)
      && (fate.outcome.Some? ==>
            OutcomeFor(fate.outcome.value, x, price, now, if now >= x.deadline then HorizonElapsed else StopBreached))
  }

  /** Before its deadline an entered decision is tracked on exactly while the price is strictly on the safe side of its
      stop; at the deadline it is resolved whatever the price; without an entry it is entered or dropped. */
  lemma TickFateMeans(x: Tracked, instrument: string, price: real, now: int)
    ensures x.instrument == instrument ==> TickEffect(x, TickFate(instrument, price, now)(x), price, now)
    ensures x.instrument != instrument ==> TickFate(instrument, price, now)(x) == Stays(x)
  {
    ResolveMeans(x, price, now, HorizonElapsed);
    ResolveMeans(x, price, now, StopBreached);
    hide Resolve, OutcomeFor;
  }

  /** What an invalidated thesis must do to a decision it governs. */
  ghost predicate EndEffect(x: Tracked, fate: Fate, prices: map<string, real>, now: int) {
    && fate.Leaves?
    && (fate.outcome.Some? <==> x.entry.Some? && x.entry.value != 0.0 && x.instrument in prices)
    && (fate.outcome.Some? ==> OutcomeFor(fate.outcome.value, x, prices[x.instrument], now, ThesisDied))
  }

  lemma EndFateMeans(x: Tracked, thesis: string, prices: map<string, real>, now: int)
    ensures x.thesis == Some(thesis) ==> EndEffect(x, InvalidationFate(thesis, prices, now)(x), prices, now)
    ensures x.thesis != Some(thesis) ==> InvalidationFate(thesis, prices, now)(x) == Stays(x)
  {
    if x.instrument in prices { ResolveMeans(x, prices[x.instrument], now, ThesisDied); }
    hide Resolve, OutcomeFor;
  }

  // ---------- over the whole map of tracked decisions ----------

  /** After the visit the decision is as its fate says: still tracked, or gone with its outcome published. */
  ghost predicate Fated(x: Tracked, fate: Fate, q: seq<Tracked>, published: seq<Outcome>) {
    match fate
    case Stays(y) => y in q
    case Leaves(o) => !Has(q, x.id) && (o.Some? ==> o.value in published)
  }

  lemma {:induction false} VisitFated(q: seq<Tracked>, f: Tracked -> Fate, x: Tracked)
    requires KeepsIds(f) && Distinct(q) && x in q
    ensures Fated(x, f(x), Remaining(q, f), Outcomes(q, f))
  {
    var rest, last := q[..|q| - 1], q[|q| - 1];
    assert q == rest + [last];
    VisitOne(rest, last, f);
    if x == last {
      LastIsOnly(rest, last);
      RemainingIds(rest, f, x.id);
    } else {
      assert x in rest;
      VisitFated(rest, f, x);
      HasElement(q, x);
      var k :| 0 <= k < |rest| && rest[k] == x;
      assert last.id != x.id by { assert q[k].id != q[|q| - 1].id; }
      assert f(last).Stays? ==> f(last).entry.id == last.id;
      if f(last).Stays? { HasOne(Remaining(rest, f), f(last).entry, x.id); }
      hide Remaining, Outcomes;
      assert Remaining(rest, f) + [] == Remaining(rest, f);
    }
  }

  lemma LastIsOnly(rest: seq<Tracked>, last: Tracked)
    requires Distinct(rest + [last])
    ensures !Has(rest, last.id)
  {
    forall k | 0 <= k < |rest|
      ensures rest[k].id != last.id
    {
      assert (rest + [last])[k] == rest[k] && (rest + [last])[|rest|] == last;
    }
  }

  /** A tick of an instrument decides about each decision tracked on it: it is entered, dropped, resolved for its
      deadline or its stop, or left alone; decisions on other instruments are left alone. */
  lemma TickResolves(h: Horizons, s: State, x: Tracked, instrument: string, price: real, now: int)
    requires Distinct(s.pending) && x in s.pending && instrument != ""
    ensures var d := Handle(h, s, Priced(instrument, Some(price), now));
      if x.instrument != instrument then x in d.pending
      else exists fate :: TickEffect(x, fate, price, now) && Fated(x, fate, d.pending, d.outcomes)
  {
    var f := TickFate(instrument, price, now);
    TickVisits(h, s, instrument, price, now);
    FatesKeepIds("", s.prices, instrument, price, now);
    VisitFated(s.pending, f, x);
    TickFateMeans(x, instrument, price, now);
    hide Handle, TickFate, TickEffect, Remaining, Outcomes;
    if x.instrument == instrument {
      PublishedLater(x, f(x), Remaining(s.pending, f), s.outcomes, Outcomes(s.pending, f));
    }
  }

  lemma PublishedLater(x: Tracked, fate: Fate, q: seq<Tracked>, before: seq<Outcome>, newly: seq<Outcome>)
    requires Fated(x, fate, q, newly)
    ensures Fated(x, fate, q, before + newly)
  {
  }

  /** An invalidation settles every decision of the thesis at its last price, and no other. */
  lemma InvalidationResolves(h: Horizons, s: State, x: Tracked, thesis: string, now: int)
    requires Distinct(s.pending) && x in s.pending && thesis != ""
    ensures var d := Handle(h, s, Invalidated(thesis, now));
      if x.thesis != Some(thesis) then x in d.pending
      else exists fate :: EndEffect(x, fate, s.prices, now) && Fated(x, fate, d.pending, d.outcomes)
  {
    var f := InvalidationFate(thesis, s.prices, now);
    FatesKeepIds(thesis, s.prices, "", 0.0, now);
    VisitFated(s.pending, f, x);
    EndFateMeans(x, thesis, s.prices, now);
    hide InvalidationFate, EndEffect, Remaining, Outcomes;
    if x.thesis == Some(thesis) {
      PublishedLater(x, f(x), Remaining(s.pending, f), s.outcomes, Outcomes(s.pending, f));
    }
  }

  /** An approval gives its stop to the decision it names and changes nothing else of any decision. */
  lemma ApprovalAttaches(h: Horizons, s: State, x: Tracked, id: string, stop: real)
    requires x in s.pending
    ensures var d := Handle(h, s, Cleared(id, Some(stop)));
      && (if x.id == id then x.(stop := Some(stop)) else x) in d.pending
      && |d.pending| == |s.pending| && d.prices == s.prices && d.outcomes == s.outcomes
  {
    var k :| 0 <= k < |s.pending| && s.pending[k] == x;
    assert WithStop(s.pending, id, stop)[k] == if x.id == id then x.(stop := Some(stop)) else x;
  }

  /** A proposal is tracked if and only if it names a decision, an instrument and a side, from its own time until the
      horizon it names has passed; an unknown horizon counts as intraday. */
  lemma TrackedUntil(h: Horizons, p: Proposal)
    ensures Track(h, p).Some? <==> p.id != "" && p.instrument != "" && (p.side == "long" || p.side == "short")
    ensures Track(h, p).Some? ==>
              var x := Track(h, p).value;
              && x.id == p.id && x.instrument == p.instrument && SideText(x.side) == p.side
              && x.confidence == p.confidence && x.mode == p.mode && x.proposedAt == p.time
              && x.entry.None? && x.stop.None? && (x.thesis.Some? ==> x.thesis.value != "")
              && (forall t :: t != "" ==> (x.thesis == Some(t) <==> p.thesis == Some(t)))
              && (p.horizon == "scalp" ==> x.deadline - p.time == h.scalp)
              && (p.horizon == "swing" ==> x.deadline - p.time == h.swing)
              && (p.horizon == "position" ==> x.deadline - p.time == h.position)
              && (p.horizon !in {"scalp", "swing", "position"} ==> x.deadline - p.time == h.intraday)
  {
  }
}
