/** discovery/score.py: folding an instrument's evidence into one score. */
module Score {

  datatype Contribution = Contribution(factor: string, value: real, time: int)

  /** `decay(factor, age)` is the share of its weight that evidence of this age keeps. */
  datatype ScoreSettings = ScoreSettings(weight: string -> real, decay: (string, int) -> real, bonus: real)

  /** Weights are not negative, decay is a share, and the bonus is a share. */
  ghost predicate Sensible(cfg: ScoreSettings) {
    && 0.0 <= cfg.bonus <= 1.0
    && (forall f :: 0.0 <= cfg.weight(f))
    && (forall f, age :: 0.0 < cfg.decay(f, age) <= 1.0)
  }

  /** Evidence only fades. */
  ghost predicate Fades(cfg: ScoreSettings) {
    forall f: string, a: int, b: int :: a <= b ==> cfg.decay(f, b) <= cfg.decay(f, a)
  }

  datatype Vote = Vote(factor: string, weighted: real)

  function Clamp(x: real, low: real, high: real): (r: real)
    requires low <= high
    ensures low <= r <= high
  {
    if x < low then low else if x > high then high else x
  }

  function Clamp01(x: real): real {
    Clamp(x, 0.0, 1.0)
  }

  function Strength(cfg: ScoreSettings, c: Contribution, now: int): real {
    cfg.weight(c.factor) * cfg.decay(c.factor, now - c.time) * c.value
  }

  function Weigh(cfg: ScoreSettings, c: Contribution, now: int): Vote {
    Vote(c.factor, Clamp(Strength(cfg, c, now), -1.0, 1.0))
  }

  function Votes(cfg: ScoreSettings, contribs: seq<Contribution>, now: int): seq<Vote> {
    if contribs == [] then []
    else Votes(cfg, contribs[..|contribs| - 1], now) + [Weigh(cfg, contribs[|contribs| - 1], now)]
  }

  function Magnitude(v: Vote): real {
    if v.weighted < 0.0 then -v.weighted else v.weighted
  }

  function Raise(m: map<string, real>, v: Vote): map<string, real> {
    m[v.factor := if v.factor in m && Magnitude(v) <= m[v.factor] then m[v.factor] else Magnitude(v)]
  }

  /** The strongest vote of each factor among the bullish or the bearish ones. */
  function Strongest(votes: seq<Vote>, bullish: bool): map<string, real> {
    if votes == [] then map[]
    else
      var v, m := votes[|votes| - 1], Strongest(votes[..|votes| - 1], bullish);
      if (v.weighted >= 0.0) == bullish then Raise(m, v) else m
  }

  function Times(a: real, b: real): real {
    a * b
  }

  /** What a factor of this strength leaves open. */
  function Left(strength: real): real {
    1.0 - Clamp01(strength)
  }

  /** The product of what each factor leaves open. */
  ghost function Open(m: map<string, real>): real
    decreases |m|
  {
    if m == map[] then 1.0
    else
      var k :| k in m;
      Times(Left(m[k]), Open(m - {k}))
  }

  ghost function NoisyOr(m: map<string, real>): real {
    1.0 - Open(m)
  }

  function Agreeing(m: map<string, real>): set<string> {
    set f | f in m && m[f] > 0.0
  }

  /** Confluence: at least two agreeing factors earn a saturating bonus. */
  function Confluence(raw: real, agreeing: nat, bonus: real): real {
    Clamp01(if agreeing >= 2 then raw + bonus * (1.0 - raw) else raw)
  }

  ghost function ScoreOf(votes: seq<Vote>, bonus: real): real {
    var pos, neg := Strongest(votes, true), Strongest(votes, false);
    Confluence(NoisyOr(pos) - NoisyOr(neg), |Agreeing(pos)|, bonus)
  }

  // ---------- products over a map ----------

  lemma TimesSwap(a: real, b: real, c: real)
    ensures Times(a, Times(b, c)) == Times(b, Times(a, c))
  {
  }

  lemma TimesAssoc(a: real, b: real, c: real)
    ensures Times(Times(a, b), c) == Times(a, Times(b, c))
  {
  }

  // Any factor may be taken first.
  lemma {:induction false} OpenSplit(m: map<string, real>, k: string)
    requires k in m
    ensures Open(m) == Times(Left(m[k]), Open(m - {k}))
    decreases |m|
  {
    hide Times, Left;
    var j :| j in m && Open(m) == Times(Left(m[j]), Open(m - {j}));
    if j != k {
      OpenSplit(m - {j}, k);
      OpenSplit(m - {k}, j);
      assert m - {j} - {k} == m - {k} - {j};
      TimesSwap(Left(m[j]), Left(m[k]), Open(m - {j} - {k}));
    }
  }

  lemma ShareProduct(a: real, b: real)
    requires 0.0 <= a <= 1.0 && 0.0 <= b <= 1.0
    ensures 0.0 <= Times(a, b) <= b
  {
    ShareOf(a, b);
    MonoProduct(a, b, 1.0, b);
  }

  lemma MonoProduct(a: real, b: real, c: real, d: real)
    requires 0.0 <= a <= c && 0.0 <= b <= d
    ensures Times(a, b) <= Times(c, d)
  {
    assert a * b <= c * b;
    assert c * b <= c * d;
  }

  lemma ShareLeft(x: real, y: real)
    ensures 0.0 <= Left(x) <= 1.0
    ensures x <= y ==> Left(y) <= Left(x)
  {
  }

  lemma {:induction false} OpenIsShare(m: map<string, real>)
    ensures 0.0 <= Open(m) <= 1.0
    decreases |m|
  {
    hide Times, Left;
    if m != map[] {
      var k :| k in m;
      OpenSplit(m, k);
      OpenIsShare(m - {k});
      ShareLeft(m[k], m[k]);
      ShareProduct(Left(m[k]), Open(m - {k}));
    }
  }

  /** `n` has every factor of `m`, at least as strong. */
  ghost predicate Stronger(n: map<string, real>, m: map<string, real>) {
    forall k :: k in m ==> k in n && m[k] <= n[k]
  }

  lemma OneStronger(n: map<string, real>, m: map<string, real>, k: string)
    requires k in n && Stronger(n, m) && Open(n - {k}) <= Open(m - {k})
    ensures Open(n) <= Open(m)
  {
    hide Times, Left;
    OpenSplit(n, k);
    OpenIsShare(n - {k});
    OpenIsShare(m - {k});
    ShareLeft(n[k], n[k]);
    if k in m {
      OpenSplit(m, k);
      ShareLeft(m[k], n[k]);
      MonoProduct(Left(n[k]), Open(n - {k}), Left(m[k]), Open(m - {k}));
    } else {
      assert m - {k} == m;
      ShareProduct(Left(n[k]), Open(n - {k}));
    }
  }

  // More or stronger factors leave less open.
  lemma {:induction false} OpenShrinks(n: map<string, real>, m: map<string, real>)
    requires Stronger(n, m)
    ensures Open(n) <= Open(m)
    decreases |n|
  {
    if n != map[] {
      hide Open;
      var k :| k in n;
      OpenShrinks(n - {k}, m - {k});
      OneStronger(n, m, k);
    } else {
      assert m == map[];
    }
  }

  // ---------- the strongest votes ----------

  predicate Counts(v: Vote, bullish: bool) {
    (v.weighted >= 0.0) == bullish
  }

  /** `m` holds, for each factor voted for, the largest magnitude of those votes. */
  ghost predicate Maxima(m: map<string, real>, votes: seq<Vote>, bullish: bool) {
    && (forall v :: v in votes && Counts(v, bullish) ==> v.factor in m && Magnitude(v) <= m[v.factor])
    && (forall f :: f in m ==> exists v :: v in votes && Counts(v, bullish) && v.factor == f && Magnitude(v) == m[f])
  }

  lemma RaiseKeepsMaxima(m: map<string, real>, votes: seq<Vote>, v: Vote, bullish: bool)
    requires Maxima(m, votes, bullish) && Counts(v, bullish)
    ensures Maxima(Raise(m, v), votes + [v], bullish)
  {
    var n := Raise(m, v);
    forall f | f in n
      ensures exists w :: w in votes + [v] && Counts(w, bullish) && w.factor == f && Magnitude(w) == n[f]
    {
      if f in m && n[f] == m[f] {
        var w :| w in votes && Counts(w, bullish) && w.factor == f && Magnitude(w) == m[f];
        assert w in votes + [v];
      } else {
        assert v in votes + [v];
      }
    }
  }

  lemma OtherKeepsMaxima(m: map<string, real>, votes: seq<Vote>, v: Vote, bullish: bool)
    requires Maxima(m, votes, bullish) && !Counts(v, bullish)
    ensures Maxima(m, votes + [v], bullish)
  {
    forall f | f in m
      ensures exists w :: w in votes + [v] && Counts(w, bullish) && w.factor == f && Magnitude(w) == m[f]
    {
      var w :| w in votes && Counts(w, bullish) && w.factor == f && Magnitude(w) == m[f];
      assert w in votes + [v];
    }
  }

  lemma {:induction false} StrongestIsMaxima(votes: seq<Vote>, bullish: bool)
    ensures Maxima(Strongest(votes, bullish), votes, bullish)
  {
    if votes != [] {
      hide Maxima, Raise;
      var rest, v := votes[..|votes| - 1], votes[|votes| - 1];
      StrongestIsMaxima(rest, bullish);
      assert votes == rest + [v];
      if Counts(v, bullish) {
        RaiseKeepsMaxima(Strongest(rest, bullish), rest, v, bullish);
      } else {
        OtherKeepsMaxima(Strongest(rest, bullish), rest, v, bullish);
      }
    }
  }

  lemma MaximaUnique(a: map<string, real>, b: map<string, real>, votes: seq<Vote>, others: seq<Vote>, bullish: bool)
    requires Maxima(a, votes, bullish) && Maxima(b, others, bullish)
    requires forall v :: v in votes <==> v in others
    ensures a == b
  {
    forall f ensures f in a <==> f in b { }
    forall f | f in a ensures a[f] == b[f] { }
  }

  /** The score depends on which votes there are, not on their order or on repeats. */
  lemma ScoreIgnoresOrder(a: seq<Vote>, b: seq<Vote>, bonus: real)
    requires forall v :: v in a <==> v in b
    ensures ScoreOf(a, bonus) == ScoreOf(b, bonus)
  {
    StrongestIsMaxima(a, true);
    StrongestIsMaxima(b, true);
    MaximaUnique(Strongest(a, true), Strongest(b, true), a, b, true);
    StrongestIsMaxima(a, false);
    StrongestIsMaxima(b, false);
    MaximaUnique(Strongest(a, false), Strongest(b, false), a, b, false);
  }

  lemma StrongestOne(votes: seq<Vote>, v: Vote, bullish: bool)
    ensures Strongest(votes + [v], bullish)
            == if Counts(v, bullish) then Raise(Strongest(votes, bullish), v) else Strongest(votes, bullish)
  {
    assert (votes + [v])[..|votes|] == votes;
  }

  /** A vote no stronger than one of its factor and sign changes nothing. */
  lemma DominatedVote(votes: seq<Vote>, v: Vote, w: Vote, bonus: real)
    requires w in votes && w.factor == v.factor && (w.weighted >= 0.0) == (v.weighted >= 0.0) && Magnitude(v) <= Magnitude(w)
    ensures ScoreOf(votes + [v], bonus) == ScoreOf(votes, bonus)
  {
    var bullish := v.weighted >= 0.0;
    StrongestIsMaxima(votes, bullish);
    assert Counts(w, bullish);
    StrongestOne(votes, v, true);
    StrongestOne(votes, v, false);
    var m := Strongest(votes, bullish);
    assert Raise(m, v) == m;
  }

  // ---------- monotonicity ----------

  lemma SubsetSize(a: set<string>, b: set<string>)
    requires a <= b
    ensures |a| <= |b|
  {
    assert b == a + (b - a);
  }

  // A higher raw score and more agreement never lower the result.
  lemma ConfluenceMono(raw: real, more: real, n: nat, k: nat, bonus: real)
    requires raw <= more <= 1.0 && n <= k && 0.0 <= bonus <= 1.0
    ensures Confluence(raw, n, bonus) <= Confluence(more, k, bonus)
  {
    BonusMono(raw, more, bonus);
    BonusLifts(more, bonus);
  }

  lemma BonusMono(raw: real, more: real, bonus: real)
    requires raw <= more && bonus <= 1.0
    ensures raw + bonus * (1.0 - raw) <= more + bonus * (1.0 - more)
  {
    ShareOf(more - raw, 1.0 - bonus);
    assert more + bonus * (1.0 - more) - (raw + bonus * (1.0 - raw)) == (more - raw) * (1.0 - bonus);
  }

  lemma BonusLifts(x: real, bonus: real)
    requires x <= 1.0 && 0.0 <= bonus
    ensures x <= x + bonus * (1.0 - x)
  {
    ShareOf(bonus, 1.0 - x);
  }

  lemma ShareOf(a: real, b: real)
    requires 0.0 <= a && 0.0 <= b
    ensures 0.0 <= a * b
  {
  }

  /** Stronger bullish and weaker bearish factors never lower the score. */
  lemma ScoreMono(a: seq<Vote>, b: seq<Vote>, bonus: real)
    requires 0.0 <= bonus <= 1.0
    requires Stronger(Strongest(b, true), Strongest(a, true)) && Stronger(Strongest(a, false), Strongest(b, false))
    ensures ScoreOf(a, bonus) <= ScoreOf(b, bonus)
  {
    hide Open, Strongest, Confluence;
    OpenShrinks(Strongest(b, true), Strongest(a, true));
    OpenShrinks(Strongest(a, false), Strongest(b, false));
    OpenIsShare(Strongest(b, true));
    OpenIsShare(Strongest(b, false));
    SubsetSize(Agreeing(Strongest(a, true)), Agreeing(Strongest(b, true)));
    hide Agreeing;
    ConfluenceMono(NoisyOr(Strongest(a, true)) - NoisyOr(Strongest(a, false)),
                   NoisyOr(Strongest(b, true)) - NoisyOr(Strongest(b, false)),
                   |Agreeing(Strongest(a, true))|, |Agreeing(Strongest(b, true))|, bonus);
  }

  lemma ProductSign(w: real, d: real, x: real)
    requires 0.0 <= w && 0.0 <= d
    ensures 0.0 <= x ==> 0.0 <= w * d * x
    ensures x <= 0.0 ==> w * d * x <= 0.0
  {
    assert 0.0 <= w * d;
  }

  // A vote pushes the score its own way.
  lemma VotePushes(votes: seq<Vote>, v: Vote, bonus: real)
    requires 0.0 <= bonus <= 1.0
    ensures 0.0 <= v.weighted ==> ScoreOf(votes, bonus) <= ScoreOf(votes + [v], bonus)
    ensures v.weighted < 0.0 ==> ScoreOf(votes + [v], bonus) <= ScoreOf(votes, bonus)
  {
    hide Strongest, ScoreOf;
    StrongestOne(votes, v, true);
    StrongestOne(votes, v, false);
    if 0.0 <= v.weighted {
      ScoreMono(votes, votes + [v], bonus);
    } else {
      ScoreMono(votes + [v], votes, bonus);
    }
  }

  lemma WeighSign(cfg: ScoreSettings, c: Contribution, now: int)
    requires Sensible(cfg)
    ensures 0.0 <= c.value ==> 0.0 <= Weigh(cfg, c, now).weighted
    ensures c.value < 0.0 ==> Weigh(cfg, c, now).weighted <= 0.0
  {
    StrengthSign(cfg, c, now);
    hide Strength;
    ClampSign(Strength(cfg, c, now));
  }

  lemma StrengthSign(cfg: ScoreSettings, c: Contribution, now: int)
    requires Sensible(cfg)
    ensures 0.0 <= c.value ==> 0.0 <= Strength(cfg, c, now)
    ensures c.value <= 0.0 ==> Strength(cfg, c, now) <= 0.0
  {
    ProductSign(cfg.weight(c.factor), cfg.decay(c.factor, now - c.time), c.value);
  }

  lemma ClampSign(x: real)
    ensures 0.0 <= x ==> 0.0 <= Clamp(x, -1.0, 1.0)
    ensures x <= 0.0 ==> Clamp(x, -1.0, 1.0) <= 0.0
  {
  }

  /** One more piece of bullish evidence never lowers the score; one more bearish one never raises it. */
  lemma EvidencePushesItsWay(cfg: ScoreSettings, contribs: seq<Contribution>, c: Contribution, now: int)
    requires Sensible(cfg)
    ensures var before, after := ScoreOf(Votes(cfg, contribs, now), cfg.bonus), ScoreOf(Votes(cfg, contribs + [c], now), cfg.bonus);
      && (0.0 <= c.value ==> before <= after)
      && (c.value < 0.0 ==> after <= before)
  {
    var votes, v := Votes(cfg, contribs, now), Weigh(cfg, c, now);
    assert (contribs + [c])[..|contribs|] == contribs;
    WeighSign(cfg, c, now);
    assert Votes(cfg, contribs + [c], now) == votes + [v];
    hide Votes, ScoreOf, Weigh;
    VotePushes(votes, v, cfg.bonus);
    if c.value < 0.0 && v.weighted == 0.0 { ZeroVote(votes, v, cfg.bonus); }
  }

  // A vote of weight zero agrees with nothing and leaves everything open.
  lemma ZeroVote(votes: seq<Vote>, v: Vote, bonus: real)
    requires v.weighted == 0.0
    ensures ScoreOf(votes + [v], bonus) == ScoreOf(votes, bonus)
  {
    hide Strongest, Confluence, NoisyOr, Agreeing;
    StrongestOne(votes, v, true);
    StrongestOne(votes, v, false);
    StrongestIsMaxima(votes, true);
    ZeroRaise(Strongest(votes, true), v);
  }

  lemma ZeroRaise(m: map<string, real>, v: Vote)
    requires v.weighted == 0.0 && forall f :: f in m ==> 0.0 <= m[f]
    ensures NoisyOr(Raise(m, v)) == NoisyOr(m) && Agreeing(Raise(m, v)) == Agreeing(m)
  {
    hide Open;
    if v.factor in m {
      assert Raise(m, v) == m;
    } else {
      var n := m[v.factor := 0.0];
      OpenSplit(n, v.factor);
      assert n - {v.factor} == m && Left(0.0) == 1.0;
    }
  }

  lemma RaiseStronger(n: map<string, real>, m: map<string, real>, v: Vote, w: Vote)
    requires Stronger(n, m) && v.factor == w.factor && Magnitude(w) <= Magnitude(v)
    ensures Stronger(Raise(n, v), Raise(m, w))
  {
  }

  lemma LaterVoteWeaker(cfg: ScoreSettings, c: Contribution, now: int, later: int)
    requires Sensible(cfg) && Fades(cfg) && now <= later && 0.0 <= c.value
    ensures 0.0 <= Weigh(cfg, c, later).weighted <= Weigh(cfg, c, now).weighted
  {
    StrengthSign(cfg, c, later);
    StrengthFades(cfg, c, now, later);
    hide Strength;
  }

  lemma StrengthFades(cfg: ScoreSettings, c: Contribution, now: int, later: int)
    requires Sensible(cfg) && Fades(cfg) && now <= later && 0.0 <= c.value
    ensures Strength(cfg, c, later) <= Strength(cfg, c, now)
  {
    FadedProduct(cfg.weight(c.factor), cfg.decay(c.factor, later - c.time), cfg.decay(c.factor, now - c.time), c.value);
  }

  lemma FadedProduct(w: real, d: real, e: real, x: real)
    requires 0.0 <= w && d <= e && 0.0 <= x
    ensures w * d * x <= w * e * x
  {
    assert w * d <= w * e;
  }

  lemma {:induction false} LaterWeaker(cfg: ScoreSettings, contribs: seq<Contribution>, now: int, later: int)
    requires Sensible(cfg) && Fades(cfg) && now <= later
    requires forall k :: 0 <= k < |contribs| ==> 0.0 <= contribs[k].value
    ensures Stronger(Strongest(Votes(cfg, contribs, now), true), Strongest(Votes(cfg, contribs, later), true))
    ensures Strongest(Votes(cfg, contribs, now), false) == map[] == Strongest(Votes(cfg, contribs, later), false)
  {
    if contribs != [] {
      var before, c := contribs[..|contribs| - 1], contribs[|contribs| - 1];
      LaterWeaker(cfg, before, now, later);
      LaterVoteWeaker(cfg, c, now, now);
      LaterVoteWeaker(cfg, c, now, later);
      var v, w := Weigh(cfg, c, now), Weigh(cfg, c, later);
      hide Weigh, Raise, Strongest;
      StrongestOne(Votes(cfg, before, now), v, true);
      StrongestOne(Votes(cfg, before, now), v, false);
      StrongestOne(Votes(cfg, before, later), w, true);
      StrongestOne(Votes(cfg, before, later), w, false);
      RaiseStronger(Strongest(Votes(cfg, before, now), true), Strongest(Votes(cfg, before, later), true), v, w);
      SameFactor(cfg, c, now, later);
    }
  }

  lemma SameFactor(cfg: ScoreSettings, c: Contribution, now: int, later: int)
    ensures Weigh(cfg, c, now).factor == Weigh(cfg, c, later).factor
  {
  }

  /** Left alone, bullish evidence only loses score. */
  lemma BullishEvidenceFades(cfg: ScoreSettings, contribs: seq<Contribution>, now: int, later: int)
    requires Sensible(cfg) && Fades(cfg) && now <= later
    requires forall k :: 0 <= k < |contribs| ==> 0.0 <= contribs[k].value
    ensures ScoreOf(Votes(cfg, contribs, later), cfg.bonus) <= ScoreOf(Votes(cfg, contribs, now), cfg.bonus)
  {
    LaterWeaker(cfg, contribs, now, later);
    ScoreMono(Votes(cfg, contribs, later), Votes(cfg, contribs, now), cfg.bonus);
  }

  /** The score is a number between zero and one. */
  lemma ScoreInUnit(votes: seq<Vote>, bonus: real)
    ensures 0.0 <= ScoreOf(votes, bonus) <= 1.0
  {
  }

  // ---------- the computation ----------

  method NoisyOrOf(m: map<string, real>) returns (r: real)
    ensures r == NoisyOr(m)
  {
    var product, rest := 1.0, m;
    assert Times(1.0, Open(m)) == Open(m);
    hide Left;
    while rest != map[]
      invariant Times(product, Open(rest)) == Open(m)
      decreases |rest|
    {
      var k :| k in rest;
      hide Times;
      OpenSplit(rest, k);
      TimesAssoc(product, Left(rest[k]), Open(rest - {k}));
      product := Times(product, Left(rest[k]));
      rest := rest - {k};
    }
    r := 1.0 - product;
  }

  /** The strongest weighted magnitude per factor, bullish and bearish. */
  method Poll(cfg: ScoreSettings, contribs: seq<Contribution>, now: int)
    returns (pos: map<string, real>, neg: map<string, real>)
    ensures pos == Strongest(Votes(cfg, contribs, now), true)
    ensures neg == Strongest(Votes(cfg, contribs, now), false)
  {
    pos, neg := map[], map[];
    assert contribs[..0] == [];
    for i := 0 to |contribs|
      invariant pos == Strongest(Votes(cfg, contribs[..i], now), true)
      invariant neg == Strongest(Votes(cfg, contribs[..i], now), false)
    {
      var v := Weigh(cfg, contribs[i], now);
      assert contribs[..i + 1][..i] == contribs[..i];
      hide Weigh, Strongest;
      StrongestOne(Votes(cfg, contribs[..i], now), v, true);
      StrongestOne(Votes(cfg, contribs[..i], now), v, false);
      if v.weighted >= 0.0 {
        pos := Raise(pos, v);
      } else {
        neg := Raise(neg, v);
      }
    }
    assert contribs[..|contribs|] == contribs;
  }

  /** `score_instrument`: the score and the agreeing factors. */
  method ScoreInstrument(cfg: ScoreSettings, contribs: seq<Contribution>, now: int) returns (score: real, agreeing: set<string>)
    ensures score == ScoreOf(Votes(cfg, contribs, now), cfg.bonus) && 0.0 <= score <= 1.0
    ensures agreeing == Agreeing(Strongest(Votes(cfg, contribs, now), true))
  {
    ScoreInUnit(Votes(cfg, contribs, now), cfg.bonus);
    hide Strongest, Votes, NoisyOr;
    var pos, neg := Poll(cfg, contribs, now);
    var positive := NoisyOrOf(pos);
    var negative := NoisyOrOf(neg);
    var raw := positive - negative;
    agreeing := set f | f in pos && pos[f] > 0.0;
    if |agreeing| >= 2 {
      raw := raw + cfg.bonus * (1.0 - raw);
    }
    score := Clamp01(raw);
  }
}
