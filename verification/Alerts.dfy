/** ingestion/alerts/generator.py: price alerts over a rolling window, against the whole tick history. */
module Alerts {
  import opened Numbers
  import opened Events
  import opened Windows

  datatype AlertSettings = AlertSettings(window: nat, threshold: real, cooldown: nat)

  /** The share of the window a move must span. */
  const MIN_WINDOW_FILL: real := 0.8

  /** `watched` tells whether the instrument was active when the tick came. */
  datatype Tick = Tick(instrument: string, price: Option<real>, high: Option<real>, low: Option<real>, watched: bool, time: int)

  datatype Kind = HighCross | LowCross | PctMove

  datatype Key = Key(instrument: string, kind: Kind)

  type Alert = Emission<Key>

  predicate Accepted(t: Tick) {
    t.instrument != "" && t.price.Some? && t.watched
  }

  // ---------- what a tick gives rise to ----------

  predicate CrossesHigh(prev: Option<real>, t: Tick)
    requires t.price.Some?
  {
    t.high.Some? && prev.Some? && prev.value < t.high.value <= t.price.value
  }

  predicate CrossesLow(prev: Option<real>, t: Tick)
    requires t.price.Some?
  {
    t.low.Some? && prev.Some? && prev.value > t.low.value >= t.price.value
  }

  /** The move since the oldest price in the window. */
  predicate Moves(cfg: AlertSettings, window: seq<Timed<real>>, t: Tick)
    requires t.price.Some?
  {
    |window| >= 2
    && (t.time - window[0].time) as real >= cfg.window as real * MIN_WINDOW_FILL
    && window[0].value > 0.0
    && Abs((t.price.value - window[0].value) / window[0].value * 100.0) >= cfg.threshold
  }

  function Candidates(cfg: AlertSettings, prev: Option<real>, window: seq<Timed<real>>, t: Tick): seq<Kind>
    requires t.price.Some?
  {
    (if CrossesHigh(prev, t) then [HighCross] else [])
    + (if CrossesLow(prev, t) then [LowCross] else [])
    + (if Moves(cfg, window, t) then [PctMove] else [])
  }

  /** Emit the candidates whose key has cooled down, in order. */
  function Emit(cfg: AlertSettings, alerts: seq<Alert>, instrument: string, kinds: seq<Kind>, now: int): seq<Alert>
    decreases |kinds|
  {
    if kinds == [] then alerts
    else
      var key := Key(instrument, kinds[0]);
      Emit(cfg, if Cooled(alerts, key, now, cfg.cooldown) then alerts + [Emission(key, now)] else alerts,
           instrument, kinds[1..], now)
  }

  // ---------- the plain form: everything from the tick history ----------

  /** The accepted prices of one instrument. */
  function Prices(ticks: seq<Tick>, instrument: string): seq<Timed<real>> {
    if ticks == [] then []
    else
      var t := ticks[|ticks| - 1];
      Prices(ticks[..|ticks| - 1], instrument)
      + if Accepted(t) && t.instrument == instrument then [Timed(t.time, t.price.value)] else []
  }

  function Previous(prices: seq<Timed<real>>): Option<real> {
    if prices == [] then None else Some(Last(prices).value)
  }

  /** All alerts, each tick looked at with the whole history at hand. */
  function PlainAlerts(cfg: AlertSettings, ticks: seq<Tick>): seq<Alert> {
    if ticks == [] then []
    else
      var before, t := ticks[..|ticks| - 1], ticks[|ticks| - 1];
      var alerts := PlainAlerts(cfg, before);
      if !Accepted(t) then alerts
      else
        var prices := Prices(before, t.instrument);
        var window := Recent(prices + [Timed(t.time, t.price.value)], t.time - cfg.window);
        Emit(cfg, alerts, t.instrument, Candidates(cfg, Previous(prices), window, t), t.time)
  }

  ghost predicate TicksInOrder(ticks: seq<Tick>) {
    forall j, k :: 0 <= j < k < |ticks| ==> ticks[j].time <= ticks[k].time
  }

  lemma PricesOne(ticks: seq<Tick>, t: Tick, i: string)
    ensures Prices(ticks + [t], i)
            == Prices(ticks, i) + if Accepted(t) && t.instrument == i then [Timed(t.time, t.price.value)] else []
  {
    assert (ticks + [t])[..|ticks|] == ticks;
  }

  lemma {:induction false} PricesInOrder(ticks: seq<Tick>, i: string, now: int)
    requires TicksInOrder(ticks) && forall k :: 0 <= k < |ticks| ==> ticks[k].time <= now
    ensures InOrder(Prices(ticks, i)) && forall k :: 0 <= k < |Prices(ticks, i)| ==> Prices(ticks, i)[k].time <= now
  {
    if ticks != [] {
      var n := |ticks| - 1;
      PricesInOrder(ticks[..n], i, ticks[n].time);
    }
  }

  // ---------- spacing ----------

  lemma {:induction false} EmitSpaced(cfg: AlertSettings, alerts: seq<Alert>, instrument: string, kinds: seq<Kind>, now: int)
    requires Spaced(alerts, cfg.cooldown)
    ensures Spaced(Emit(cfg, alerts, instrument, kinds, now), cfg.cooldown)
    decreases |kinds|
  {
    if kinds != [] {
      var e := Emission(Key(instrument, kinds[0]), now);
      if Cooled(alerts, e.key, now, cfg.cooldown) {
        EmitKeepsSpaced(alerts, e, cfg.cooldown);
        EmitSpaced(cfg, alerts + [e], instrument, kinds[1..], now);
      } else {
        EmitSpaced(cfg, alerts, instrument, kinds[1..], now);
      }
    }
  }

  /** Alerts of one instrument and kind are at least a cooldown apart. */
  lemma {:induction false} AlertsAreSpaced(cfg: AlertSettings, ticks: seq<Tick>)
    ensures Spaced(PlainAlerts(cfg, ticks), cfg.cooldown)
  {
    if ticks != [] {
      hide Candidates, Emit, Recent;
      var before, t := ticks[..|ticks| - 1], ticks[|ticks| - 1];
      AlertsAreSpaced(cfg, before);
      if Accepted(t) {
        var prices := Prices(before, t.instrument);
        EmitSpaced(cfg, PlainAlerts(cfg, before), t.instrument,
                   Candidates(cfg, Previous(prices), Recent(prices + [Timed(t.time, t.price.value)], t.time - cfg.window), t), t.time);
      }
    }
  }

  // ---------- when an alert comes ----------

  lemma PlainNext(cfg: AlertSettings, ticks: seq<Tick>, t: Tick)
    ensures PlainAlerts(cfg, ticks + [t])
            == if !Accepted(t) then PlainAlerts(cfg, ticks)
               else Emit(cfg, PlainAlerts(cfg, ticks), t.instrument,
                         Candidates(cfg, Previous(Prices(ticks, t.instrument)),
                                    WindowOf(Prices(ticks, t.instrument) + [Timed(t.time, t.price.value)], cfg.window), t), t.time)
  {
    hide Candidates, Emit, Recent, Prices;
    assert (ticks + [t])[..|ticks|] == ticks;
  }

  /** The price moved by at least this percentage of the old price. */
  predicate MovedAtLeast(earlier: real, price: real, pct: real) {
    100.0 * Abs(price - earlier) >= pct * earlier
  }

  lemma PercentIff(earlier: real, price: real, pct: real)
    requires 0.0 < earlier
    ensures Abs((price - earlier) / earlier * 100.0) >= pct <==> MovedAtLeast(earlier, price, pct)
  {
    var share := (price - earlier) / earlier;
    assert share * earlier == price - earlier;
    ScaledIff(Abs(share * 100.0), pct, earlier);
    assert share * 100.0 * earlier == 100.0 * (price - earlier);
  }

  lemma ScaledIff(a: real, b: real, k: real)
    requires 0.0 < k
    ensures a >= b <==> a * k >= b * k
  {
    if a >= b { assert (a - b) * k >= 0.0; } else { assert (b - a) * k > 0.0; }
  }

  /** What a tick gives rise to: a crossing of the day's high from below, one of its low from above, and a move of at
      least the threshold since the oldest price of a window that is four fifths full. */
  lemma CandidatesMean(cfg: AlertSettings, prev: Option<real>, window: seq<Timed<real>>, t: Tick)
    requires t.price.Some?
    ensures var kinds, price := Candidates(cfg, prev, window, t), t.price.value;
      && (HighCross in kinds <==> prev.Some? && t.high.Some? && prev.value < t.high.value && t.high.value <= price)
      && (LowCross in kinds <==> prev.Some? && t.low.Some? && price <= t.low.value && t.low.value < prev.value)
      && (PctMove in kinds <==>
            |window| >= 2 && 5 * (t.time - window[0].time) >= 4 * cfg.window
            && 0.0 < window[0].value && MovedAtLeast(window[0].value, price, cfg.threshold))
  {
    if |window| >= 2 && 0.0 < window[0].value { PercentIff(window[0].value, t.price.value, cfg.threshold); }
    hide MovedAtLeast;
  }

  lemma OtherKeyCooled(alerts: seq<Alert>, e: Alert, key: Key, now: int, cooldown: int)
    requires e.key != key
    ensures Cooled(alerts + [e], key, now, cooldown) <==> Cooled(alerts, key, now, cooldown)
  {
    assert (alerts + [e])[..|alerts|] == alerts;
  }

  /** An alert of this kind came out of the tick. */
  ghost predicate Came(before: seq<Alert>, after: seq<Alert>, instrument: string, kind: Kind, now: int) {
    exists k :: |before| <= k < |after| && after[k] == Emission(Key(instrument, kind), now)
  }

  lemma {:induction false} EmitDecides(cfg: AlertSettings, alerts: seq<Alert>, instrument: string, kinds: seq<Kind>, now: int)
    requires forall j, k :: 0 <= j < k < |kinds| ==> kinds[j] != kinds[k]
    ensures var after := Emit(cfg, alerts, instrument, kinds, now);
      && alerts <= after
      && forall kind :: Came(alerts, after, instrument, kind, now)
           <==> kind in kinds && Cooled(alerts, Key(instrument, kind), now, cfg.cooldown)
    decreases |kinds|
  {
    if kinds != [] {
      var first, rest := kinds[0], kinds[1..];
      assert kinds == [first] + rest;
      var e := Emission(Key(instrument, first), now);
      var cooled := Cooled(alerts, e.key, now, cfg.cooldown);
      var next := if cooled then alerts + [e] else alerts;
      EmitDecides(cfg, next, instrument, rest, now);
      var after := Emit(cfg, next, instrument, rest, now);
      forall kind
        ensures Came(alerts, after, instrument, kind, now)
                <==> kind in kinds && Cooled(alerts, Key(instrument, kind), now, cfg.cooldown)
      {
        if kind != first { OtherKeyCooled(alerts, e, Key(instrument, kind), now, cfg.cooldown); }
        OneMoreCame(alerts, e, cooled, after, instrument, kind, now);
      }
    }
  }

  lemma OneMoreCame(alerts: seq<Alert>, e: Alert, cooled: bool, after: seq<Alert>, instrument: string, kind: Kind, now: int)
    requires (if cooled then alerts + [e] else alerts) <= after
    ensures Came(alerts, after, instrument, kind, now)
            <==> Came(if cooled then alerts + [e] else alerts, after, instrument, kind, now)
                 || (cooled && e == Emission(Key(instrument, kind), now))
  {
    if cooled { assert after[|alerts|] == e; }
  }

  /** A tick of a watched instrument brings an alert of a kind exactly when it gives rise to one and every earlier
      alert of that instrument and kind is at least a cooldown old. */
  lemma AlertIff(cfg: AlertSettings, ticks: seq<Tick>, t: Tick, kind: Kind)
    ensures var before, after := PlainAlerts(cfg, ticks), PlainAlerts(cfg, ticks + [t]);
      && before <= after
      && (Came(before, after, t.instrument, kind, t.time) <==>
            && Accepted(t)
            && (var prices := Prices(ticks, t.instrument);
                kind in Candidates(cfg, Previous(prices), Recent(prices + [Timed(t.time, t.price.value)], t.time - cfg.window), t))
            && AllAged(before, Key(t.instrument, kind), t.time, cfg.cooldown))
  {
    hide PlainAlerts, Candidates, Emit, Recent, WindowOf, Prices, Previous, Spaced, Cooled, AllAged;
    PlainNext(cfg, ticks, t);
    AlertsAreSpaced(cfg, ticks);
    CooledIff(PlainAlerts(cfg, ticks), Key(t.instrument, kind), t.time, cfg.cooldown);
    if Accepted(t) {
      var prices := Prices(ticks, t.instrument);
      var window := Recent(prices + [Timed(t.time, t.price.value)], t.time - cfg.window);
      WindowAtPush(prices, Timed(t.time, t.price.value), cfg.window);
      CandidatesDiffer(cfg, Previous(prices), window, t);
      EmitDecides(cfg, PlainAlerts(cfg, ticks), t.instrument, Candidates(cfg, Previous(prices), window, t), t.time);
    }
  }

  lemma CandidatesDiffer(cfg: AlertSettings, prev: Option<real>, window: seq<Timed<real>>, t: Tick)
    requires t.price.Some?
    ensures var kinds := Candidates(cfg, prev, window, t); forall j, k :: 0 <= j < k < |kinds| ==> kinds[j] != kinds[k]
  {
    hide CrossesHigh, CrossesLow, Moves;
  }

  // ---------- the generator as an object ----------

  /** What the generator keeps for one instrument is what its price history says. */
  ghost predicate TracksOne(cfg: AlertSettings, lastPrice: map<string, real>, windows: map<string, seq<Timed<real>>>,
                            prices: seq<Timed<real>>, i: string) {
    && (i in lastPrice <==> prices != []) && (i in windows <==> prices != [])
    && (prices != [] ==> lastPrice[i] == Last(prices).value && windows[i] == WindowOf(prices, cfg.window))
  }

  ghost predicate Tracks(cfg: AlertSettings, lastPrice: map<string, real>, windows: map<string, seq<Timed<real>>>,
                         ticks: seq<Tick>)
  {
    forall i :: TracksOne(cfg, lastPrice, windows, Prices(ticks, i), i)
  }

  lemma TracksSkips(cfg: AlertSettings, lastPrice: map<string, real>, windows: map<string, seq<Timed<real>>>,
                    ticks: seq<Tick>, t: Tick)
    requires Tracks(cfg, lastPrice, windows, ticks) && !Accepted(t)
    ensures Tracks(cfg, lastPrice, windows, ticks + [t])
  {
    forall i
      ensures TracksOne(cfg, lastPrice, windows, Prices(ticks + [t], i), i)
    {
      PricesOne(ticks, t, i);
      assert Prices(ticks, i) + [] == Prices(ticks, i);
    }
  }

  lemma TracksNext(cfg: AlertSettings, lastPrice: map<string, real>, windows: map<string, seq<Timed<real>>>,
                   ticks: seq<Tick>, t: Tick)
    requires Tracks(cfg, lastPrice, windows, ticks) && Accepted(t)
    ensures var prices := Prices(ticks, t.instrument) + [Timed(t.time, t.price.value)];
      Tracks(cfg, lastPrice[t.instrument := t.price.value], windows[t.instrument := WindowOf(prices, cfg.window)], ticks + [t])
  {
    hide WindowOf;
    var x := Timed(t.time, t.price.value);
    var prices := Prices(ticks, t.instrument) + [x];
    forall i
      ensures TracksOne(cfg, lastPrice[t.instrument := t.price.value], windows[t.instrument := WindowOf(prices, cfg.window)],
                        Prices(ticks + [t], i), i)
    {
      PricesOne(ticks, t, i);
      assert TracksOne(cfg, lastPrice, windows, Prices(ticks, i), i);
      assert Prices(ticks, i) + [] == Prices(ticks, i);
    }
  }

  lemma LaterInOrder(ticks: seq<Tick>, t: Tick)
    requires TicksInOrder(ticks) && forall k :: 0 <= k < |ticks| ==> ticks[k].time <= t.time
    ensures TicksInOrder(ticks + [t])
    ensures Accepted(t) ==> InOrder(Prices(ticks, t.instrument) + [Timed(t.time, t.price.value)])
  {
    PricesInOrder(ticks, t.instrument, t.time);
  }

  class PriceAlertGenerator {
    const cfg: AlertSettings
    var lastPrice: map<string, real>
    var windows: map<string, seq<Timed<real>>>
    var cooldowns: map<Key, int>
    var alerts: seq<Alert>

    /** The state the generator keeps, and what it has published, is what the tick history says. */
    ghost predicate Follows(ticks: seq<Tick>)
      reads this
    {
      && TicksInOrder(ticks) && alerts == PlainAlerts(cfg, ticks) && Remembers(cooldowns, alerts)
      && Tracks(cfg, lastPrice, windows, ticks)
    }

    constructor (cfg: AlertSettings)
      ensures this.cfg == cfg && Follows([])
    {
      this.cfg := cfg;
      lastPrice, windows, cooldowns, alerts := map[], map[], map[], [];
    }

    method CooldownOk(key: Key, now: int) returns (ok: bool)
      requires Remembers(cooldowns, alerts)
      modifies this`cooldowns
      ensures ok <==> Cooled(alerts, key, now, cfg.cooldown)
      ensures cooldowns == if ok then old(cooldowns)[key := now] else old(cooldowns)
    {
      assert LastOf(alerts, key) == if key in cooldowns then [cooldowns[key]] else [];
      ok := key !in cooldowns || now - cooldowns[key] >= cfg.cooldown;
      if ok {
        cooldowns := cooldowns[key := now];
      }
    }

    method EmitAll(instrument: string, kinds: seq<Kind>, now: int)
      requires Remembers(cooldowns, alerts)
      modifies this`cooldowns, this`alerts
      ensures alerts == Emit(cfg, old(alerts), instrument, kinds, now) && Remembers(cooldowns, alerts)
    {
      for k := 0 to |kinds|
        invariant Remembers(cooldowns, alerts)
        invariant Emit(cfg, old(alerts), instrument, kinds, now) == Emit(cfg, alerts, instrument, kinds[k..], now)
      {
        hide Remembers;
        var key := Key(instrument, kinds[k]);
        RememberOne(cooldowns, alerts, Emission(key, now));
        var ok := CooldownOk(key, now);
        if ok {
          alerts := alerts + [Emission(key, now)];
        }
        assert kinds[k..][1..] == kinds[k + 1..];
      }
    }

    /** Append to the instrument's window and drop what has left it. */
    method Accumulate(instrument: string, x: Timed<real>, ghost prices: seq<Timed<real>>) returns (window: seq<Timed<real>>)
      requires TracksOne(cfg, lastPrice, windows, prices, instrument) && InOrder(prices + [x])
      modifies this`windows
      ensures window == WindowOf(prices + [x], cfg.window) && windows == old(windows)[instrument := window]
    {
      WindowFollows(prices, x, cfg.window);
      NoWindow<real>(cfg.window);
      hide WindowOf, InOrder, Recent;
      window := if instrument in windows then windows[instrument] else [];
      window := PushAndTrim(window, x, x.time - cfg.window);
      windows := windows[instrument := window];
    }

    /** Whatever the history, the deque holds exactly the prices within the window, and the same alerts come out
        as from looking at the whole history. */
    method HandleTick(t: Tick, ghost ticks: seq<Tick>)
      requires Follows(ticks) && forall k :: 0 <= k < |ticks| ==> ticks[k].time <= t.time
      modifies this
      ensures Follows(ticks + [t])
    {
      LaterInOrder(ticks, t);
      PlainNext(cfg, ticks, t);
      assert TracksOne(cfg, lastPrice, windows, Prices(ticks, t.instrument), t.instrument);
      assert Previous(Prices(ticks, t.instrument))
          == if t.instrument in lastPrice then Some(lastPrice[t.instrument]) else None;
      hide Tracks, TracksOne, Remembers, Candidates, Emit, TicksInOrder, Prices, PlainAlerts, WindowOf, InOrder;
      if t.instrument == "" || t.price.None? || !t.watched {
        TracksSkips(cfg, lastPrice, windows, ticks, t);
        return;
      }
      TracksNext(cfg, lastPrice, windows, ticks, t);
      var prev := if t.instrument in lastPrice then Some(lastPrice[t.instrument]) else None;
      var window := Accumulate(t.instrument, Timed(t.time, t.price.value), Prices(ticks, t.instrument));
      lastPrice := lastPrice[t.instrument := t.price.value];
      EmitAll(t.instrument, Candidates(cfg, prev, window, t), t.time);
    }
  }

  lemma NoWindow<T>(width: int)
    ensures WindowOf<T>([], width) == []
  {
  }
}
