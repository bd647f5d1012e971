/** core/bus/store.py: the in-memory event store and its queries. */
module Store {
  import opened Events

  datatype Kind =
    | MarketTick | DecisionApproved | DecisionRejected | DecisionExpired | OrderSubmitted | OrderFilled
    | RiskLimitBreached | ThesisEnded | SystemModeChanged | RiskHalt

  function KindOf(e: Event): Kind {
    match e
    case Ticked(_, _, _) => MarketTick
    case Approved(_, _) => DecisionApproved
    case RiskRejected(_, _) => DecisionRejected
    case OperatorRejected(_, _) => DecisionRejected
    case Expired(_, _) => DecisionExpired
    case Submitted(_, _, _, _) => OrderSubmitted
    case Filled(_, _) => OrderFilled
    case LimitBreached(_, _) => RiskLimitBreached
    case ThesisInvalidated(_, _) => ThesisEnded
    case ModeChanged(_, _) => SystemModeChanged
    case Halted(_) => RiskHalt
  }

  /** `payload.get("instrument")` of a tick. Other payloads have this key too; the query is only ever asked for ticks. */
  function TickKey(e: Event): Option<string> {
    if e.Ticked? then Some(e.instrument) else None
  }

  function OfKinds(events: seq<Event>, kinds: set<Kind>): seq<Event> {
    if events == [] then []
    else
      var e := events[|events| - 1];
      OfKinds(events[..|events| - 1], kinds) + if KindOf(e) in kinds then [e] else []
  }

  predicate InWindow(e: Event, start: Option<int>, end: Option<int>) {
    (start.Some? ==> start.value <= e.time) && (end.Some? ==> e.time <= end.value)
  }

  function Within(events: seq<Event>, start: Option<int>, end: Option<int>): seq<Event> {
    if events == [] then []
    else
      var e := events[|events| - 1];
      Within(events[..|events| - 1], start, end) + if InWindow(e, start, end) then [e] else []
  }

  ghost predicate SortedByTime(events: seq<Event>) {
    forall j, k :: 0 <= j < k < |events| ==> events[j].time <= events[k].time
  }

  /** Put `e` behind everything that is not later than it. */
  function InsertByTime(events: seq<Event>, e: Event): seq<Event> {
    if events == [] || events[|events| - 1].time <= e.time then events + [e]
    else InsertByTime(events[..|events| - 1], e) + [events[|events| - 1]]
  }

  /** `sorted(events, key=event_time)`. */
  function SortByTime(events: seq<Event>): seq<Event> {
    if events == [] then [] else InsertByTime(SortByTime(events[..|events| - 1]), events[|events| - 1])
  }

  function Range(events: seq<Event>, kinds: set<Kind>, start: Option<int> := None, end: Option<int> := None): seq<Event> {
    SortByTime(Within(OfKinds(events, kinds), start, end))
  }

  function AtTime(events: seq<Event>, time: int): seq<Event> {
    Within(events, Some(time), Some(time))
  }

  lemma {:induction false} InsertPermutes(events: seq<Event>, e: Event)
    ensures multiset(InsertByTime(events, e)) == multiset(events) + multiset{e}
  {
    if events != [] && e.time < events[|events| - 1].time {
      var rest, last := events[..|events| - 1], events[|events| - 1];
      assert events == rest + [last] && InsertByTime(events, e) == InsertByTime(rest, e) + [last];
      InsertPermutes(rest, e);
      hide InsertByTime;
    }
  }

  lemma InsertElements(events: seq<Event>, e: Event)
    ensures forall x :: x in InsertByTime(events, e) ==> x in events || x == e
  {
    InsertPermutes(events, e);
    forall x | x in InsertByTime(events, e)
      ensures x in events || x == e
    {
      assert x in multiset(InsertByTime(events, e));
    }
  }

  lemma SortedAppend(events: seq<Event>, e: Event)
    requires SortedByTime(events) && forall x :: x in events ==> x.time <= e.time
    ensures SortedByTime(events + [e])
  {
  }

  lemma SortedLast(events: seq<Event>)
    requires SortedByTime(events) && events != []
    ensures SortedByTime(events[..|events| - 1])
    ensures forall x :: x in events ==> x.time <= events[|events| - 1].time
  {
  }

  lemma {:induction false} InsertSorted(events: seq<Event>, e: Event)
    requires SortedByTime(events)
    ensures SortedByTime(InsertByTime(events, e))
  {
    if events != [] {
      SortedLast(events);
    }
    if events != [] && e.time < events[|events| - 1].time {
      var n := |events| - 1;
      InsertSorted(events[..n], e);
      InsertElements(events[..n], e);
      SortedAppend(InsertByTime(events[..n], e), events[n]);
    } else {
      SortedAppend(events, e);
    }
  }

  lemma WithinOne(events: seq<Event>, e: Event, start: Option<int>, end: Option<int>)
    ensures Within(events + [e], start, end) == Within(events, start, end) + if InWindow(e, start, end) then [e] else []
  {
    assert (events + [e])[..|events|] == events;
  }

  lemma WithinTwo(events: seq<Event>, e: Event, f: Event, time: int)
    requires e.time != f.time
    ensures AtTime(events + [e] + [f], time) == AtTime(events + [f] + [e], time)
  {
    var at := Some(time);
    WithinOne(events, e, at, at);
    WithinOne(events, f, at, at);
    WithinOne(events + [e], f, at, at);
    WithinOne(events + [f], e, at, at);
  }

  lemma {:induction false} InsertStable(events: seq<Event>, e: Event, time: int)
    ensures AtTime(InsertByTime(events, e), time) == AtTime(events + [e], time)
  {
    if events != [] && e.time < events[|events| - 1].time {
      var early, last := events[..|events| - 1], events[|events| - 1];
      InsertStable(early, e, time);
      AtTimeAppend(InsertByTime(early, e), early + [e], last, time);
      WithinTwo(early, e, last, time);
      assert events == early + [last];
    }
  }

  lemma AtTimeAppend(a: seq<Event>, b: seq<Event>, e: Event, time: int)
    requires AtTime(a, time) == AtTime(b, time)
    ensures AtTime(a + [e], time) == AtTime(b + [e], time)
  {
    WithinOne(a, e, Some(time), Some(time));
    WithinOne(b, e, Some(time), Some(time));
  }

  lemma {:induction false} SortKeepsTimes(events: seq<Event>, time: int)
    ensures AtTime(SortByTime(events), time) == AtTime(events, time)
  {
    if events != [] {
      var n := |events| - 1;
      SortKeepsTimes(events[..n], time);
      InsertStable(SortByTime(events[..n]), events[n], time);
      WithinOne(SortByTime(events[..n]), events[n], Some(time), Some(time));
      WithinOne(events[..n], events[n], Some(time), Some(time));
      assert events == events[..n] + [events[n]];
    }
  }

  lemma {:induction false} SortOrders(events: seq<Event>)
    ensures SortedByTime(SortByTime(events))
  {
    if events != [] {
      var n := |events| - 1;
      SortOrders(events[..n]);
      hide InsertByTime, SortedByTime;
      InsertSorted(SortByTime(events[..n]), events[n]);
    }
  }

  lemma {:induction false} SortPermutes(events: seq<Event>)
    ensures multiset(SortByTime(events)) == multiset(events)
  {
    if events != [] {
      var rest, last := events[..|events| - 1], events[|events| - 1];
      assert events == rest + [last];
      SortPermutes(rest);
      hide InsertByTime;
      InsertPermutes(SortByTime(rest), last);
    }
  }

  /** The result is in time order, holds the same events, and events of one time keep their arrival order. */
  lemma SortIsStable(events: seq<Event>)
    ensures SortedByTime(SortByTime(events))
    ensures multiset(SortByTime(events)) == multiset(events)
    ensures forall time :: AtTime(SortByTime(events), time) == AtTime(events, time)
  {
    SortOrders(events);
    SortPermutes(events);
    forall time ensures AtTime(SortByTime(events), time) == AtTime(events, time) {
      SortKeepsTimes(events, time);
    }
  }

  lemma {:induction false} SortOfSorted(events: seq<Event>)
    requires SortedByTime(events)
    ensures SortByTime(events) == events
  {
    if events != [] {
      var n := |events| - 1;
      SortOfSorted(events[..n]);
      assert events == events[..n] + [events[n]];
    }
  }

  lemma {:induction false} WithinAll(events: seq<Event>)
    ensures Within(events, None, None) == events
  {
    if events != [] {
      var n := |events| - 1;
      WithinAll(events[..n]);
      assert InWindow(events[n], None, None) && events == events[..n] + [events[n]];
    }
  }

  lemma {:induction false} OfKindsElements(events: seq<Event>, kinds: set<Kind>)
    ensures forall e :: e in OfKinds(events, kinds) <==> e in events && KindOf(e) in kinds
    ensures SortedByTime(events) ==> SortedByTime(OfKinds(events, kinds))
  {
    if events != [] {
      var n := |events| - 1;
      OfKindsElements(events[..n], kinds);
      assert events == events[..n] + [events[n]];
      if SortedByTime(events) {
        var r := OfKinds(events[..n], kinds);
        forall k | 0 <= k < |r| ensures r[k].time <= events[n].time {
          assert r[k] in events[..n];
        }
      }
    }
  }

  predicate Matches(e: Event, kinds: set<Kind>, start: Option<int>, end: Option<int>) {
    KindOf(e) in kinds && (start == None || start.value <= e.time) && (end == None || e.time <= end.value)
  }

  lemma {:induction false} MatchesCounted(events: seq<Event>, kinds: set<Kind>, start: Option<int>, end: Option<int>, e: Event)
    ensures multiset(Asked(events, kinds, start, end))[e]
            == if Matches(e, kinds, start, end) then multiset(events)[e] else 0
  {
    if events == [] {
      assert Asked(events, kinds, start, end) == [];
    } else {
      var rest, last := events[..|events| - 1], events[|events| - 1];
      assert events == rest + [last];
      hide Asked;
      MatchesCounted(rest, kinds, start, end, e);
      AskedOne(rest, last, kinds, start, end);
    }
  }

  /** A range query returns exactly the matching events within its bounds, each as often as it is stored, in time order. */
  lemma RangeHolds(events: seq<Event>, kinds: set<Kind>, start: Option<int>, end: Option<int>)
    ensures forall e :: multiset(Range(events, kinds, start, end))[e]
                        == if Matches(e, kinds, start, end) then multiset(events)[e] else 0
    ensures forall e :: e in Range(events, kinds, start, end) <==> e in events && Matches(e, kinds, start, end)
    ensures SortedByTime(Range(events, kinds, start, end))
  {
    var matching := Asked(events, kinds, start, end);
    SortIsStable(matching);
    hide Within, OfKinds, SortByTime, SortedByTime, Matches;
    forall e
      ensures multiset(SortByTime(matching))[e] == if Matches(e, kinds, start, end) then multiset(events)[e] else 0
      ensures e in SortByTime(matching) <==> e in events && Matches(e, kinds, start, end)
    {
      MatchesCounted(events, kinds, start, end, e);
      assert e in SortByTime(matching) <==> e in multiset(SortByTime(matching));
      assert e in events <==> e in multiset(events);
    }
  }

  /** On a stream in time order the query is just the filter. */
  lemma RangeOfSorted(events: seq<Event>, kinds: set<Kind>)
    requires SortedByTime(events)
    ensures Range(events, kinds) == OfKinds(events, kinds)
  {
    OfKindsElements(events, kinds);
    WithinAll(OfKinds(events, kinds));
    SortOfSorted(OfKinds(events, kinds));
  }

  // ---------- latest per key ----------

  /** Walk the events and let each overwrite its key. */
  function LastWrite(events: seq<Event>): map<string, Event> {
    if events == [] then map[]
    else
      var e := events[|events| - 1];
      WriteKey(LastWrite(events[..|events| - 1]), e)
  }

  lemma {:induction false} LastWriteElements(events: seq<Event>)
    ensures forall k :: k in LastWrite(events) ==> LastWrite(events)[k] in events && TickKey(LastWrite(events)[k]) == Some(k)
  {
    if events != [] {
      var n := |events| - 1;
      LastWriteElements(events[..n]);
      assert events == events[..n] + [events[n]];
    }
  }

  /** What the scan does with one more event: it wins its key unless a strictly later one holds it. */
  function Overwrite(m: map<string, Event>, e: Event): map<string, Event> {
    match TickKey(e)
    case None => m
    case Some(k) => if k !in m || m[k].time <= e.time then m[k := e] else m
  }

  lemma {:induction false} LastWriteIsLast(events: seq<Event>)
    requires SortedByTime(events)
    ensures forall e :: e in events && TickKey(e).Some? ==>
              TickKey(e).value in LastWrite(events) && e.time <= LastWrite(events)[TickKey(e).value].time
  {
    if events != [] {
      var n := |events| - 1;
      LastWriteIsLast(events[..n]);
      SortedLast(events);
      assert events == events[..n] + [events[n]];
    }
  }

  /** The event kept for a key is one of that key, and none of that key is later. */
  lemma LatestIsLatest(events: seq<Event>, kinds: set<Kind>)
    ensures forall k :: k in LatestOf(events, kinds) ==>
              LatestOf(events, kinds)[k] in events && TickKey(LatestOf(events, kinds)[k]) == Some(k)
    ensures forall e :: e in events && KindOf(e) in kinds && TickKey(e).Some? ==>
              TickKey(e).value in LatestOf(events, kinds) && e.time <= LatestOf(events, kinds)[TickKey(e).value].time
  {
    RangeHolds(events, kinds, None, None);
    hide Range;
    LastWriteElements(Range(events, kinds));
    LastWriteIsLast(Range(events, kinds));
  }

  lemma LastWriteOne(events: seq<Event>, e: Event)
    ensures LastWrite(events + [e]) == WriteKey(LastWrite(events), e)
  {
    assert (events + [e])[..|events|] == events;
  }

  lemma LatestNotAfter(events: seq<Event>, e: Event)
    requires SortedByTime(events) && events != [] && events[|events| - 1].time <= e.time
    ensures forall k :: k in LastWrite(events) ==> LastWrite(events)[k].time <= e.time
  {
    SortedLast(events);
    LastWriteElements(events);
  }

  lemma OverwriteThenLater(m: map<string, Event>, e: Event, f: Event)
    requires e.time < f.time
    ensures Overwrite(WriteKey(m, f), e) == WriteKey(Overwrite(m, e), f)
  {
  }

  function WriteKey(m: map<string, Event>, e: Event): map<string, Event> {
    if TickKey(e).Some? then m[TickKey(e).value := e] else m
  }

  lemma {:induction false} InsertOverwrites(events: seq<Event>, e: Event)
    requires SortedByTime(events)
    ensures LastWrite(InsertByTime(events, e)) == Overwrite(LastWrite(events), e)
  {
    if events == [] {
      LastWriteOne(events, e);
    } else if events[|events| - 1].time <= e.time {
      LastWriteOne(events, e);
      LatestNotAfter(events, e);
    } else {
      var n := |events| - 1;
      InsertOverwrites(events[..n], e);
      LastWriteOne(InsertByTime(events[..n], e), events[n]);
      OverwriteThenLater(LastWrite(events[..n]), e, events[n]);
    }
  }

  /** The scan over an unsorted stream is last-write-wins over its stable sort. */
  lemma ScanStep(events: seq<Event>, e: Event)
    ensures LastWrite(SortByTime(events + [e])) == Overwrite(LastWrite(SortByTime(events)), e)
  {
    assert (events + [e])[..|events|] == events;
    SortIsStable(events);
    InsertOverwrites(SortByTime(events), e);
  }

  lemma OfKindsOne(events: seq<Event>, e: Event, kinds: set<Kind>)
    ensures OfKinds(events + [e], kinds) == OfKinds(events, kinds) + if KindOf(e) in kinds then [e] else []
  {
    assert (events + [e])[..|events|] == events;
  }

  /** Last write wins over the events of these kinds, in stable time order. */
  function LatestOf(events: seq<Event>, kinds: set<Kind>): map<string, Event> {
    LastWrite(Range(events, kinds))
  }

  lemma LatestOfOne(events: seq<Event>, e: Event, kinds: set<Kind>)
    ensures LatestOf(events + [e], kinds)
            == if KindOf(e) in kinds then Overwrite(LatestOf(events, kinds), e) else LatestOf(events, kinds)
  {
    var matching := OfKinds(events, kinds);
    OfKindsOne(events, e, kinds);
    WithinAll(matching);
    if KindOf(e) in kinds {
      WithinAll(matching + [e]);
      ScanStep(matching, e);
    } else {
      assert matching + [] == matching;
    }
  }

  class EventStore {
    var events: seq<Event>

    constructor ()
      ensures events == []
    {
      events := [];
    }

    method Append(e: Event)
      modifies this
      ensures events == old(events) + [e]
    {
      events := events + [e];
    }

    /** Matching events in arrival order. */
    method Recent(kinds: set<Kind>) returns (matching: seq<Event>)
      ensures matching == OfKinds(events, kinds)
    {
      matching := [];
      for i := 0 to |events|
        invariant matching == OfKinds(events[..i], kinds)
      {
        OfKindsOne(events[..i], events[i], kinds);
        assert events[..i + 1] == events[..i] + [events[i]];
        assert matching + [] == matching;
        if KindOf(events[i]) in kinds {
          matching := matching + [events[i]];
        }
      }
      assert events[..|events|] == events;
    }

    /** Matching events within the bounds, in time order; the sort keeps the order of ties. */
    method InRange(kinds: set<Kind>, start: Option<int>, end: Option<int>) returns (result: seq<Event>)
      ensures result == Range(events, kinds, start, end)
    {
      var matching: seq<Event> := [];
      assert events[..0] == [];
      for i := 0 to |events|
        invariant matching == Asked(events[..i], kinds, start, end)
      {
        AskedOne(events[..i], events[i], kinds, start, end);
        assert events[..i + 1] == events[..i] + [events[i]];
        assert matching + [] == matching;
        if KindOf(events[i]) in kinds && InWindow(events[i], start, end) {
          matching := matching + [events[i]];
        }
      }
      assert events[..|events|] == events;
      result := SortByTime(matching);
    }

    /** The most recent event per instrument, ties going to the later arrival. */
    method LatestPerKey(kinds: set<Kind>) returns (result: map<string, Event>)
      ensures result == LatestOf(events, kinds)
    {
      result := map[];
      for i := 0 to |events|
        invariant result == LatestOf(events[..i], kinds)
      {
        var e := events[i];
        LatestOfOne(events[..i], e, kinds);
        assert events[..i + 1] == events[..i] + [e];
        if KindOf(e) in kinds {
          var key := TickKey(e);
          if key.Some? && (key.value !in result || e.time >= result[key.value].time) {
            result := result[key.value := e];
          }
        }
      }
      assert events[..|events|] == events;
    }

    /** Delete events of the given kinds older than `before`; everything else keeps its order. */
    method Prune(kinds: set<Kind>, before: int) returns (deleted: nat)
      modifies this
      ensures events == Kept(old(events), kinds, before)
      ensures deleted == |old(events)| - |events|
    {
      var all := events;
      KeptIsShorter(all, kinds, before);
      var kept: seq<Event> := [];
      for i := 0 to |all|
        invariant kept == Kept(all[..i], kinds, before) && events == all
      {
        assert all[..i + 1][..i] == all[..i];
        if !(KindOf(all[i]) in kinds && all[i].time < before) {
          kept := kept + [all[i]];
        }
      }
      assert all[..|all|] == all;
      events := kept;
      deleted := |all| - |kept|;
    }
  }

  function Kept(events: seq<Event>, kinds: set<Kind>, before: int): seq<Event> {
    if events == [] then []
    else
      var e := events[|events| - 1];
      Kept(events[..|events| - 1], kinds, before) + if KindOf(e) in kinds && e.time < before then [] else [e]
  }

  lemma {:induction false} KeptIsShorter(events: seq<Event>, kinds: set<Kind>, before: int)
    ensures |Kept(events, kinds, before)| <= |events|
  {
    if events != [] { KeptIsShorter(events[..|events| - 1], kinds, before); }
  }

  /** Exactly the events of the given kinds before the cutoff are gone. */
  lemma {:induction false} KeptExactly(events: seq<Event>, kinds: set<Kind>, before: int)
    ensures forall e :: e in Kept(events, kinds, before) <==> e in events && !(KindOf(e) in kinds && e.time < before)
  {
    if events != [] {
      var n := |events| - 1;
      KeptExactly(events[..n], kinds, before);
      assert events == events[..n] + [events[n]];
    }
  }

  /** What `range` sorts. */
  function Asked(events: seq<Event>, asked: set<Kind>, start: Option<int>, end: Option<int>): seq<Event> {
    Within(OfKinds(events, asked), start, end)
  }

  lemma AskedOne(events: seq<Event>, e: Event, asked: set<Kind>, start: Option<int>, end: Option<int>)
    ensures Asked(events + [e], asked, start, end)
            == Asked(events, asked, start, end) + if KindOf(e) in asked && InWindow(e, start, end) then [e] else []
  {
    OfKindsOne(events, e, asked);
    WithinOne(OfKinds(events, asked), e, start, end);
    assert OfKinds(events, asked) + [] == OfKinds(events, asked);
  }

  lemma KeptOne(events: seq<Event>, e: Event, kinds: set<Kind>, before: int)
    ensures Kept(events + [e], kinds, before)
            == Kept(events, kinds, before) + if KindOf(e) in kinds && e.time < before then [] else [e]
  {
    assert (events + [e])[..|events|] == events;
  }

  /** `after` holds the entries of `all` that are not older than `before`. */
  ghost predicate Restricted(after: map<string, Event>, all: map<string, Event>, before: int) {
    && (forall k :: k in after <==> k in all && before <= all[k].time)
    && (forall k :: k in after ==> after[k] == all[k])
  }

  lemma OverwriteRestricted(after: map<string, Event>, all: map<string, Event>, e: Event, before: int)
    requires Restricted(after, all, before)
    ensures Restricted(if e.time < before then after else Overwrite(after, e), Overwrite(all, e), before)
  {
  }

  /** Pruning drops a key's latest event exactly when that event is older than the cutoff, and changes no other. */
  lemma {:induction false} LatestAfterPrune(events: seq<Event>, kinds: set<Kind>, before: int)
    ensures Restricted(LatestOf(Kept(events, kinds, before), kinds), LatestOf(events, kinds), before)
  {
    if events == [] {
      assert Kept([], kinds, before) == [] && LatestOf([], kinds) == map[];
    } else {
      var rest, e := events[..|events| - 1], events[|events| - 1];
      assert events == rest + [e];
      hide LatestOf, Kept, Restricted, Overwrite;
      LatestAfterPrune(rest, kinds, before);
      LatestOfOne(rest, e, kinds);
      LatestOfOne(Kept(rest, kinds, before), e, kinds);
      KeptOne(rest, e, kinds, before);
      assert Kept(rest, kinds, before) + [] == Kept(rest, kinds, before);
      OverwriteRestricted(LatestOf(Kept(rest, kinds, before), kinds), LatestOf(rest, kinds), e, before);
    }
  }

  /** Pruning never changes what a query over other kinds, or over the kept period, returns. */
  lemma {:induction false} PruneInvisible(events: seq<Event>, kinds: set<Kind>, before: int, asked: set<Kind>,
                                          start: Option<int>, end: Option<int>)
    requires asked !! kinds || (start.Some? && before <= start.value)
    ensures Range(Kept(events, kinds, before), asked, start, end) == Range(events, asked, start, end)
  {
    PruneUnasked(events, kinds, before, asked, start, end);
  }

  lemma {:induction false} PruneUnasked(events: seq<Event>, kinds: set<Kind>, before: int, asked: set<Kind>,
                                        start: Option<int>, end: Option<int>)
    requires asked !! kinds || (start.Some? && before <= start.value)
    ensures Asked(Kept(events, kinds, before), asked, start, end) == Asked(events, asked, start, end)
  {
    if events != [] {
      var rest, e := events[..|events| - 1], events[|events| - 1];
      PruneUnasked(rest, kinds, before, asked, start, end);
      assert events == rest + [e];
      KeptOne(rest, e, kinds, before);
      AskedOne(rest, e, asked, start, end);
      AskedOne(Kept(rest, kinds, before), e, asked, start, end);
      assert Kept(rest, kinds, before) + [] == Kept(rest, kinds, before);
    }
  }
}
