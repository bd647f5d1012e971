/** discovery/score.py: the score of one and of two pieces of evidence, in numbers. */
module Evidence {
  import opened Score

  /** Weight times decay at its age times value, with its sign: what one piece of evidence says. */
  function Says(cfg: ScoreSettings, c: Contribution, now: int): real {
    cfg.weight(c.factor) * cfg.decay(c.factor, now - c.time) * c.value
  }

  lemma VotesOfOne(cfg: ScoreSettings, c: Contribution, now: int)
    ensures Votes(cfg, [c], now) == [Vote(c.factor, Clamp(Says(cfg, c, now), -1.0, 1.0))]
  {
    assert [c][..0] == [];
    assert Votes(cfg, [], now) == [];
    hide Clamp;
  }

  lemma VotesOfTwo(cfg: ScoreSettings, a: Contribution, b: Contribution, now: int)
    ensures Votes(cfg, [a, b], now)
            == [Vote(a.factor, Clamp(Says(cfg, a, now), -1.0, 1.0)), Vote(b.factor, Clamp(Says(cfg, b, now), -1.0, 1.0))]
  {
    assert [a, b][..1] == [a];
    VotesOfOne(cfg, a, now);
    VotesOfOne(cfg, b, now);
    assert Weigh(cfg, b, now) == Vote(b.factor, Clamp(Says(cfg, b, now), -1.0, 1.0));
    hide Clamp, Weigh, Says;
  }

  // ---------- what no factor and one factor leave open ----------

  lemma OpenOfNone(m: map<string, real>)
    requires m == map[]
    ensures Open(m) == 1.0
  {
  }

  lemma OpenOfOne(f: string, strength: real)
    ensures Open(map[f := strength]) == Left(strength)
  {
    hide Open, Left;
    var m := map[f := strength];
    OpenSplit(m, f);
    OpenOfNone(m - {f});
  }

  lemma OpenOfTwo(f: string, g: string, a: real, b: real)
    requires f != g
    ensures Open(map[f := a, g := b]) == Times(Left(a), Left(b))
  {
    hide Open, Left, Times;
    var m := map[f := a, g := b];
    OpenSplit(m, f);
    assert m - {f} == map[g := b];
    OpenOfOne(g, b);
  }

  // ---------- one piece of evidence ----------

  lemma StrongestOfOne(v: Vote)
    ensures Strongest([v], v.weighted >= 0.0) == map[v.factor := Magnitude(v)]
    ensures Strongest([v], !(v.weighted >= 0.0)) == map[]
  {
    StrongestOne([], v, true);
    StrongestOne([], v, false);
    assert [] + [v] == [v] && Strongest([], true) == map[] == Strongest([], false);
  }

  lemma ScoreOfOne(v: Vote, bonus: real)
    requires -1.0 <= v.weighted <= 1.0
    ensures ScoreOf([v], bonus) == Clamp01(v.weighted)
  {
    StrongestOfOne(v);
    OpenOfOne(v.factor, Magnitude(v));
    OpenOfNone(map[]);
    OnlyOne(v.factor, Magnitude(v));
    hide Open, Strongest, Agreeing;
  }

  lemma OnlyOne(f: string, strength: real)
    ensures |Agreeing(map[f := strength])| <= 1 && |Agreeing(map[])| == 0
  {
    assert Agreeing(map[f := strength]) <= {f};
    SubsetSize(Agreeing(map[f := strength]), {f});
    assert Agreeing(map[]) == {};
  }

  /** One piece of evidence scores what it says, and nothing when it is bearish. */
  lemma OnePiece(cfg: ScoreSettings, c: Contribution, now: int)
    ensures ScoreOf(Votes(cfg, [c], now), cfg.bonus) == Clamp01(Says(cfg, c, now))
  {
    VotesOfOne(cfg, c, now);
    hide ScoreOf, Votes, Says;
    ScoreOfOne(Vote(c.factor, Clamp(Says(cfg, c, now), -1.0, 1.0)), cfg.bonus);
    ClampTwice(Says(cfg, c, now));
  }

  lemma ClampTwice(x: real)
    ensures Clamp01(Clamp(x, -1.0, 1.0)) == Clamp01(x) && -1.0 <= Clamp(x, -1.0, 1.0) <= 1.0
  {
  }

  // ---------- two pieces ----------

  lemma StrongestOfTwo(v: Vote, w: Vote)
    ensures v.weighted >= 0.0 && w.weighted >= 0.0 && v.factor != w.factor ==>
              Strongest([v, w], true) == map[v.factor := v.weighted, w.factor := w.weighted] && Strongest([v, w], false) == map[]
    ensures v.weighted >= 0.0 && w.weighted >= 0.0 && v.factor == w.factor ==>
              Strongest([v, w], true) == map[v.factor := if v.weighted < w.weighted then w.weighted else v.weighted]
              && Strongest([v, w], false) == map[]
    ensures v.weighted >= 0.0 && w.weighted < 0.0 ==>
              Strongest([v, w], true) == map[v.factor := v.weighted] && Strongest([v, w], false) == map[w.factor := -w.weighted]
  {
    StrongestOfOne(v);
    StrongestOne([v], w, true);
    StrongestOne([v], w, false);
    assert [v] + [w] == [v, w];
    hide Strongest;
  }

  lemma BothAgree(f: string, g: string, a: real, b: real)
    requires f != g && 0.0 < a && 0.0 < b
    ensures |Agreeing(map[f := a, g := b])| == 2
  {
    assert Agreeing(map[f := a, g := b]) == {f, g};
  }

  /** The chance of at least one of two independent chances. */
  function Either(p: real, q: real): real {
    1.0 - (1.0 - p) * (1.0 - q)
  }

  lemma EitherOpen(p: real, q: real)
    requires 0.0 <= p <= 1.0 && 0.0 <= q <= 1.0
    ensures 1.0 - Times(Left(p), Left(q)) == Either(p, q)
  {
    UnitLeft(p);
    UnitLeft(q);
    hide Left;
  }

  lemma PairOpen(v: Vote, w: Vote)
    requires 0.0 < v.weighted <= 1.0 && 0.0 < w.weighted <= 1.0 && v.factor != w.factor
    ensures NoisyOr(Strongest([v, w], true)) == Either(v.weighted, w.weighted)
    ensures NoisyOr(Strongest([v, w], false)) == 0.0
    ensures |Agreeing(Strongest([v, w], true))| == 2
  {
    hide Open, Strongest, Agreeing, Times, Left, Either;
    StrongestOfTwo(v, w);
    OpenOfTwo(v.factor, w.factor, v.weighted, w.weighted);
    OpenOfNone(map[]);
    BothAgree(v.factor, w.factor, v.weighted, w.weighted);
    EitherOpen(v.weighted, w.weighted);
  }

  /** The score of two agreeing factors that are right with this chance: lifted towards one by the bonus. */
  function Lifted(chance: real, bonus: real): real {
    chance + bonus * (1.0 - chance)
  }

  lemma ScoreOfPair(v: Vote, w: Vote, bonus: real)
    requires 0.0 < v.weighted <= 1.0 && 0.0 < w.weighted <= 1.0 && v.factor != w.factor
    ensures ScoreOf([v, w], bonus) == Clamp01(Lifted(Either(v.weighted, w.weighted), bonus))
  {
    hide NoisyOr, Strongest, Agreeing, Clamp01, Either, Confluence;
    PairOpen(v, w);
    var r := Either(v.weighted, w.weighted);
    assert NoisyOr(Strongest([v, w], true)) - NoisyOr(Strongest([v, w], false)) == r;
    assert ScoreOf([v, w], bonus) == Confluence(r, 2, bonus);
    ConfluenceOfTwo(r, bonus);
  }

  lemma ConfluenceOfTwo(raw: real, bonus: real)
    ensures Confluence(raw, 2, bonus) == Clamp01(Lifted(raw, bonus))
  {
  }

  lemma UnitLeft(x: real)
    requires 0.0 <= x <= 1.0
    ensures Left(x) == 1.0 - x
  {
  }

  lemma ScoreOfOpposed(v: Vote, w: Vote, bonus: real)
    requires 0.0 <= v.weighted <= 1.0 && -1.0 <= w.weighted < 0.0
    ensures ScoreOf([v, w], bonus) == Clamp01(v.weighted + w.weighted)
  {
    StrongestOfTwo(v, w);
    OpenOfOne(v.factor, v.weighted);
    OpenOfOne(w.factor, -w.weighted);
    OnlyOne(v.factor, v.weighted);
    UnitLeft(v.weighted);
    UnitLeft(-w.weighted);
    hide Open, Strongest, Agreeing, Clamp01, Left;
  }

  lemma ScoreOfSame(v: Vote, w: Vote, bonus: real)
    requires 0.0 <= v.weighted <= 1.0 && 0.0 <= w.weighted <= 1.0 && v.factor == w.factor
    ensures ScoreOf([v, w], bonus) == if v.weighted < w.weighted then w.weighted else v.weighted
  {
    var best := if v.weighted < w.weighted then w.weighted else v.weighted;
    StrongestOfTwo(v, w);
    OpenOfOne(v.factor, best);
    OpenOfNone(map[]);
    OnlyOne(v.factor, best);
    UnitLeft(best);
    hide Open, Strongest, Agreeing, Left;
  }

  /** Two pieces of evidence, each saying something between -1 and 1: distinct bullish factors combine as independent
      chances and earn the bonus, one factor counts once at its strongest, and bearish evidence is subtracted. */
  lemma TwoPieces(cfg: ScoreSettings, a: Contribution, b: Contribution, now: int)
    requires -1.0 <= Says(cfg, a, now) <= 1.0 && -1.0 <= Says(cfg, b, now) <= 1.0
    ensures var p, q := Says(cfg, a, now), Says(cfg, b, now);
      var score := ScoreOf(Votes(cfg, [a, b], now), cfg.bonus);
      && (0.0 < p && 0.0 < q && a.factor != b.factor ==>
            score == Clamp01(Lifted(Either(p, q), cfg.bonus)))
      && (0.0 <= p && 0.0 <= q && a.factor == b.factor ==> score == if p < q then q else p)
      && (0.0 <= p && q < 0.0 ==> score == Clamp01(p + q))
      && (0.0 <= p && q == 0.0 ==> score == p)
  {
    var p, q := Says(cfg, a, now), Says(cfg, b, now);
    var v, w := Vote(a.factor, p), Vote(b.factor, q);
    VotesOfTwo(cfg, a, b, now);
    Unclamped(p);
    Unclamped(q);
    hide ScoreOf, Votes, Says, Either, Lifted, Clamp, Clamp01;
    if 0.0 < p && 0.0 < q && a.factor != b.factor { ScoreOfPair(v, w, cfg.bonus); }
    if 0.0 <= p && 0.0 <= q && a.factor == b.factor { ScoreOfSame(v, w, cfg.bonus); }
    if 0.0 <= p && q < 0.0 { ScoreOfOpposed(v, w, cfg.bonus); }
    if 0.0 <= p && q == 0.0 { ScoreWithNothing(v, w, cfg.bonus); }
  }

  // A factor that says nothing agrees with nothing.
  lemma ScoreWithNothing(v: Vote, w: Vote, bonus: real)
    requires 0.0 <= v.weighted <= 1.0 && w.weighted == 0.0
    ensures ScoreOf([v, w], bonus) == v.weighted
  {
    assert [v, w] == [v] + [w];
    ZeroVote([v], w, bonus);
    ScoreOfOne(v, bonus);
    hide ScoreOf;
  }

  lemma Unclamped(x: real)
    requires -1.0 <= x <= 1.0
    ensures Clamp(x, -1.0, 1.0) == x
  {
  }

  /** In general: the factors of one sign combine as independent chances, whatever their number and order. */
  lemma ChancesCombine(m: map<string, real>, f: string)
    requires f in m
    ensures 1.0 - NoisyOr(m) == Times(1.0 - Clamp01(m[f]), 1.0 - NoisyOr(m - {f}))
    ensures NoisyOr(map[]) == 0.0
  {
    hide Open, Clamp01, Times;
    OpenSplit(m, f);
    OpenOfNone(map[]);
    assert 1.0 - NoisyOr(m - {f}) == Open(m - {f});
  }
}
