/** reasoning/thesis/generator.py: when accumulated signals call for a thesis, against the whole signal history. */
module Theses {
  import opened Windows

  datatype ThesisSettings = ThesisSettings(window: nat, minSignals: nat, cooldown: nat, maxPerPrompt: nat)

  /** One instrument of a `signal.created`. `seed` marks the material types that suffice alone. */
  datatype Arrival = Arrival(instrument: string, payload: string, seed: bool, watched: bool, time: int)

  /** What the generator asks for: the emissions, and the signals put into each prompt. */
  datatype Requests = Requests(emitted: seq<Emission<string>>, prompts: seq<seq<Timed<string>>>)

  /** `buffered[-n:]`, where zero means everything. */
  function LastFew(buffered: seq<Timed<string>>, n: nat): seq<Timed<string>> {
    if n == 0 || |buffered| <= n then buffered else buffered[|buffered| - n..]
  }

  function Request(cfg: ThesisSettings, r: Requests, buffered: seq<Timed<string>>, a: Arrival): Requests {
    if (|buffered| >= cfg.minSignals || a.seed) && Cooled(r.emitted, a.instrument, a.time, cfg.cooldown) then
      Requests(r.emitted + [Emission(a.instrument, a.time)], r.prompts + [LastFew(buffered, cfg.maxPerPrompt)])
    else r
  }

  // ---------- the plain form ----------

  /** The watched signals of one instrument. */
  function Heard(arrivals: seq<Arrival>, instrument: string): seq<Timed<string>> {
    if arrivals == [] then []
    else
      var a := arrivals[|arrivals| - 1];
      Heard(arrivals[..|arrivals| - 1], instrument)
      + if a.watched && a.instrument == instrument then [Timed(a.time, a.payload)] else []
  }

  /** Each arrival looked at with the whole history at hand. */
  function Plain(cfg: ThesisSettings, arrivals: seq<Arrival>): Requests {
    if arrivals == [] then Requests([], [])
    else
      var before, a := arrivals[..|arrivals| - 1], arrivals[|arrivals| - 1];
      var r := Plain(cfg, before);
      if !a.watched then r
      else Request(cfg, r, Recent(Heard(before, a.instrument) + [Timed(a.time, a.payload)], a.time - cfg.window), a)
  }

  ghost predicate ArrivalsInOrder(arrivals: seq<Arrival>) {
    forall j, k :: 0 <= j < k < |arrivals| ==> arrivals[j].time <= arrivals[k].time
  }

  ghost predicate NoneAfter(arrivals: seq<Arrival>, now: int) {
    forall k :: 0 <= k < |arrivals| ==> arrivals[k].time <= now
  }

  lemma HeardOne(arrivals: seq<Arrival>, a: Arrival, i: string)
    ensures Heard(arrivals + [a], i)
            == Heard(arrivals, i) + if a.watched && a.instrument == i then [Timed(a.time, a.payload)] else []
  {
    assert (arrivals + [a])[..|arrivals|] == arrivals;
  }

  lemma {:induction false} HeardInOrder(arrivals: seq<Arrival>, i: string, now: int)
    requires ArrivalsInOrder(arrivals) && NoneAfter(arrivals, now)
    ensures InOrder(Heard(arrivals, i)) && forall k :: 0 <= k < |Heard(arrivals, i)| ==> Heard(arrivals, i)[k].time <= now
  {
    if arrivals != [] {
      var n := |arrivals| - 1;
      HeardInOrder(arrivals[..n], i, arrivals[n].time);
    }
  }

  lemma LaterInOrder(arrivals: seq<Arrival>, a: Arrival)
    requires ArrivalsInOrder(arrivals) && NoneAfter(arrivals, a.time)
    ensures ArrivalsInOrder(arrivals + [a]) && NoneAfter(arrivals + [a], a.time)
    ensures InOrder(Heard(arrivals, a.instrument) + [Timed(a.time, a.payload)])
  {
    HeardInOrder(arrivals, a.instrument, a.time);
  }

  /** Theses for one instrument are requested at least a cooldown apart, and one prompt goes with each request. */
  lemma {:induction false} RequestsAreSpaced(cfg: ThesisSettings, arrivals: seq<Arrival>)
    ensures Spaced(Plain(cfg, arrivals).emitted, cfg.cooldown)
    ensures |Plain(cfg, arrivals).prompts| == |Plain(cfg, arrivals).emitted|
  {
    if arrivals != [] {
      hide Recent, Heard, LastFew;
      var before, a := arrivals[..|arrivals| - 1], arrivals[|arrivals| - 1];
      RequestsAreSpaced(cfg, before);
      var r := Plain(cfg, before);
      if Cooled(r.emitted, a.instrument, a.time, cfg.cooldown) {
        EmitKeepsSpaced(r.emitted, Emission(a.instrument, a.time), cfg.cooldown);
      }
    }
  }

  lemma PlainNext(cfg: ThesisSettings, arrivals: seq<Arrival>, a: Arrival)
    ensures Plain(cfg, arrivals + [a])
            == if !a.watched then Plain(cfg, arrivals)
               else Request(cfg, Plain(cfg, arrivals), WindowOf(Heard(arrivals, a.instrument) + [Timed(a.time, a.payload)], cfg.window), a)
  {
    assert (arrivals + [a])[..|arrivals|] == arrivals;
    hide Recent, Heard, Request;
  }

  // ---------- when a thesis is requested ----------

  /** The last `n` of these, or all of them if there are fewer or `n` is zero. */
  predicate IsTail(p: seq<Timed<string>>, window: seq<Timed<string>>, n: nat) {
    && |p| == (if n == 0 || |window| < n then |window| else n)
    && p == window[|window| - |p|..]
  }

  lemma LastFewIsTail(window: seq<Timed<string>>, n: nat)
    ensures IsTail(LastFew(window, n), window, n)
  {
  }

  /** A watched signal asks for a thesis exactly when it is a seed or enough signals are within the window, and every
      earlier request for the instrument is at least a cooldown old; the prompt holds the latest of the window. */
  lemma RequestIff(cfg: ThesisSettings, arrivals: seq<Arrival>, a: Arrival)
    ensures var before, after := Plain(cfg, arrivals), Plain(cfg, arrivals + [a]);
      var window := Recent(Heard(arrivals, a.instrument) + [Timed(a.time, a.payload)], a.time - cfg.window);
      if a.watched && (a.seed || cfg.minSignals <= |window|) && AllAged(before.emitted, a.instrument, a.time, cfg.cooldown) then
        && after.emitted == before.emitted + [Emission(a.instrument, a.time)]
        && |after.prompts| == |before.prompts| + 1 && before.prompts <= after.prompts
        && IsTail(after.prompts[|before.prompts|], window, cfg.maxPerPrompt)
      else after == before
  {
    var window := Recent(Heard(arrivals, a.instrument) + [Timed(a.time, a.payload)], a.time - cfg.window);
    LastFewIsTail(window, cfg.maxPerPrompt);
    WindowAtPush(Heard(arrivals, a.instrument), Timed(a.time, a.payload), cfg.window);
    hide Plain, Recent, WindowOf, Heard, LastFew, IsTail, Spaced, Cooled, AllAged;
    PlainNext(cfg, arrivals, a);
    RequestsAreSpaced(cfg, arrivals);
    CooledIff(Plain(cfg, arrivals).emitted, a.instrument, a.time, cfg.cooldown);
  }

  // ---------- the generator as an object ----------

  ghost predicate BufferOf(cfg: ThesisSettings, buffers: map<string, seq<Timed<string>>>, heard: seq<Timed<string>>, i: string) {
    (i in buffers <==> heard != []) && (heard != [] ==> buffers[i] == WindowOf(heard, cfg.window))
  }

  ghost predicate Buffers(cfg: ThesisSettings, buffers: map<string, seq<Timed<string>>>, arrivals: seq<Arrival>) {
    forall i :: BufferOf(cfg, buffers, Heard(arrivals, i), i)
  }

  lemma BufferIsWindow(cfg: ThesisSettings, buffers: map<string, seq<Timed<string>>>, heard: seq<Timed<string>>, i: string)
    requires BufferOf(cfg, buffers, heard, i)
    ensures (if i in buffers then buffers[i] else []) == WindowOf(heard, cfg.window)
  {
    hide Recent;
  }

  lemma BuffersNext(cfg: ThesisSettings, buffers: map<string, seq<Timed<string>>>, arrivals: seq<Arrival>, a: Arrival)
    requires Buffers(cfg, buffers, arrivals)
    ensures var heard := Heard(arrivals, a.instrument) + [Timed(a.time, a.payload)];
      Buffers(cfg, if a.watched then buffers[a.instrument := WindowOf(heard, cfg.window)] else buffers, arrivals + [a])
  {
    hide WindowOf;
    var heard := Heard(arrivals, a.instrument) + [Timed(a.time, a.payload)];
    var after := if a.watched then buffers[a.instrument := WindowOf(heard, cfg.window)] else buffers;
    forall i
      ensures BufferOf(cfg, after, Heard(arrivals + [a], i), i)
    {
      HeardOne(arrivals, a, i);
      assert BufferOf(cfg, buffers, Heard(arrivals, i), i);
      assert Heard(arrivals, i) + [] == Heard(arrivals, i);
    }
  }

  class ThesisGenerator {
    const cfg: ThesisSettings
    var buffers: map<string, seq<Timed<string>>>
    var cooldowns: map<string, int>
    var requests: Requests

    ghost predicate Follows(arrivals: seq<Arrival>)
      reads this
    {
      && ArrivalsInOrder(arrivals) && requests == Plain(cfg, arrivals) && Remembers(cooldowns, requests.emitted)
      && Buffers(cfg, buffers, arrivals)
    }

    constructor (cfg: ThesisSettings)
      ensures this.cfg == cfg && Follows([])
    {
      this.cfg := cfg;
      buffers, cooldowns, requests := map[], map[], Requests([], []);
    }

    method CooldownOk(instrument: string, now: int) returns (ok: bool)
      requires Remembers(cooldowns, requests.emitted)
      modifies this`cooldowns
      ensures ok <==> Cooled(requests.emitted, instrument, now, cfg.cooldown)
      ensures cooldowns == if ok then old(cooldowns)[instrument := now] else old(cooldowns)
    {
      assert LastOf(requests.emitted, instrument) == if instrument in cooldowns then [cooldowns[instrument]] else [];
      ok := instrument !in cooldowns || now - cooldowns[instrument] >= cfg.cooldown;
      if ok {
        cooldowns := cooldowns[instrument := now];
      }
    }

    /** Append to the instrument's buffer and drop what has left the window. */
    method Accumulate(a: Arrival, ghost heard: seq<Timed<string>>) returns (buffered: seq<Timed<string>>)
      requires BufferOf(cfg, buffers, heard, a.instrument) && InOrder(heard + [Timed(a.time, a.payload)])
      modifies this`buffers
      ensures buffered == WindowOf(heard + [Timed(a.time, a.payload)], cfg.window)
      ensures buffers == old(buffers)[a.instrument := buffered]
    {
      hide BufferOf, WindowOf, InOrder, Recent;
      WindowFollows(heard, Timed(a.time, a.payload), cfg.window);
      BufferIsWindow(cfg, buffers, heard, a.instrument);
      buffered := if a.instrument in buffers then buffers[a.instrument] else [];
      buffered := PushAndTrim(buffered, Timed(a.time, a.payload), a.time - cfg.window);
      buffers := buffers[a.instrument := buffered];
    }

    /** One instrument of a signal: the buffer holds exactly the signals within the window, and a thesis is
        requested exactly when the whole history calls for one. */
    method Hear(a: Arrival, ghost arrivals: seq<Arrival>)
      requires Follows(arrivals) && NoneAfter(arrivals, a.time)
      modifies this
      ensures Follows(arrivals + [a])
    {
      LaterInOrder(arrivals, a);
      PlainNext(cfg, arrivals, a);
      BuffersNext(cfg, buffers, arrivals, a);
      assert BufferOf(cfg, buffers, Heard(arrivals, a.instrument), a.instrument);
      hide Buffers, BufferOf, ArrivalsInOrder, Heard, Plain, WindowOf, InOrder, NoneAfter, Request, Remembers;
      if a.watched {
        var buffered := Accumulate(a, Heard(arrivals, a.instrument));
        Trigger(buffered, a);
      }
    }

    /** Request a thesis if the buffer or the signal calls for one and the instrument has cooled down. */
    method Trigger(buffered: seq<Timed<string>>, a: Arrival)
      requires Remembers(cooldowns, requests.emitted)
      modifies this`cooldowns, this`requests
      ensures requests == Request(cfg, old(requests), buffered, a) && Remembers(cooldowns, requests.emitted)
    {
      if |buffered| >= cfg.minSignals || a.seed {
        RememberOne(cooldowns, requests.emitted, Emission(a.instrument, a.time));
        hide Remembers;
        var ok := CooldownOk(a.instrument, a.time);
        if ok {
          requests := Requests(requests.emitted + [Emission(a.instrument, a.time)],
                               requests.prompts + [LastFew(buffered, cfg.maxPerPrompt)]);
        }
      }
    }

    /** A signal reaches its instruments in the order it names them, a repeated one twice. */
    method HandleSignal(arriving: seq<Arrival>, now: int, ghost arrivals: seq<Arrival>)
      requires Follows(arrivals) && NoneAfter(arrivals, now) && forall a :: a in arriving ==> a.time == now
      modifies this
      ensures Follows(arrivals + arriving)
    {
      hide Follows;
      assert arrivals + arriving[..0] == arrivals;
      for k := 0 to |arriving|
        invariant Follows(arrivals + arriving[..k]) && NoneAfter(arrivals + arriving[..k], now)
      {
        assert arriving[k] in arriving;
        Hear(arriving[k], arrivals + arriving[..k]);
        assert arrivals + arriving[..k] + [arriving[k]] == arrivals + arriving[..k + 1];
      }
      assert arriving[..|arriving|] == arriving;
    }
  }
}
