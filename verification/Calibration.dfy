/** calibration/engine.py: expected calibration error over confidence buckets. */
module Calibration {
  import opened Numbers
  import opened Events

  datatype Sample = Sample(confidence: real, hit: bool)

  predicate InUnit(samples: seq<Sample>) {
    forall s :: s in samples ==> 0.0 <= s.confidence <= 1.0
  }

  /** `min(int(confidence * count), count - 1)`; the last bucket is closed on the right. */
  function Index(s: Sample, count: int): int {
    var raw := (s.confidence * count as real).Floor;
    if raw <= count - 1 then raw else count - 1
  }

  /** How far a sample's confidence is above its outcome. */
  function Excess(s: Sample): real {
    s.confidence - if s.hit then 1.0 else 0.0
  }

  function Gap(samples: seq<Sample>): real {
    if samples == [] then 0.0 else Gap(samples[..|samples| - 1]) + Excess(samples[|samples| - 1])
  }

  function Bucket(samples: seq<Sample>, count: int, i: int): seq<Sample> {
    if samples == [] then []
    else
      var s := samples[|samples| - 1];
      Bucket(samples[..|samples| - 1], count, i) + if Index(s, count) == i then [s] else []
  }

  /** The absolute gaps of the buckets `from` to `to`, added up. */
  function Gaps(samples: seq<Sample>, count: int, from: int, end: int): real
    decreases end - from
  {
    if end <= from then 0.0 else Gaps(samples, count, from, end - 1) + Abs(Gap(Bucket(samples, count, end - 1)))
  }

  /** Share-weighted mean distance between confidence and hit rate, over all buckets. */
  function Ece(samples: seq<Sample>, count: int): real
    requires samples != []
  {
    Gaps(samples, count, 0, count) / |samples| as real
  }

  // ---------- buckets partition the samples ----------

  lemma IndexInRange(s: Sample, count: int)
    requires 0.0 <= s.confidence && 1 <= count
    ensures 0 <= Index(s, count) < count
  {
    assert 0.0 <= s.confidence * count as real;
  }

  lemma BucketOne(samples: seq<Sample>, s: Sample, count: int, i: int)
    ensures Bucket(samples + [s], count, i) == Bucket(samples, count, i) + if Index(s, count) == i then [s] else []
  {
    assert (samples + [s])[..|samples|] == samples;
  }

  lemma {:induction false} BucketCounts(samples: seq<Sample>, count: int, i: int, s: Sample)
    ensures multiset(Bucket(samples, count, i))[s] == if Index(s, count) == i then multiset(samples)[s] else 0
  {
    if samples != [] {
      var n := |samples| - 1;
      BucketCounts(samples[..n], count, i, s);
      assert samples == samples[..n] + [samples[n]];
    }
  }

  /** Every sample lies in exactly one bucket, as often as it was given, and no bucket is out of range. */
  lemma BucketsPartition(samples: seq<Sample>, count: int, s: Sample)
    requires InUnit(samples) && 1 <= count && s in samples
    ensures 0 <= Index(s, count) < count
    ensures forall i :: multiset(Bucket(samples, count, i))[s] == if i == Index(s, count) then multiset(samples)[s] else 0
  {
    IndexInRange(s, count);
    forall i
      ensures multiset(Bucket(samples, count, i))[s] == if i == Index(s, count) then multiset(samples)[s] else 0
    {
      BucketCounts(samples, count, i, s);
    }
  }

  /** The buckets cut the unit interval into equal parts, closed on the left; the last one also holds confidence one. */
  lemma BucketBounds(s: Sample, count: int, i: int)
    requires 0.0 <= s.confidence <= 1.0 && 1 <= count && 0 <= i < count
    ensures Index(s, count) == i
            <==> i as real <= s.confidence * count as real
                 && (s.confidence * count as real < (i + 1) as real || (i == count - 1 && s.confidence == 1.0))
  {
    BelowCount(s.confidence, count);
    CutAt(s.confidence * count as real, count, i);
  }

  lemma CutAt(scaled: real, count: int, i: int)
    requires 0.0 <= scaled <= count as real && 1 <= count && 0 <= i < count
    ensures (if scaled.Floor <= count - 1 then scaled.Floor else count - 1) == i
            <==> i as real <= scaled && (scaled < (i + 1) as real || (i == count - 1 && scaled == count as real))
  {
  }

  lemma BelowCount(c: real, count: int)
    requires 0.0 <= c <= 1.0 && 1 <= count
    ensures 0.0 <= c * count as real <= count as real && (c * count as real == count as real <==> c == 1.0)
  {
    if c < 1.0 { assert (1.0 - c) * count as real > 0.0; }
  }

  function Sizes(samples: seq<Sample>, count: int, end: int): nat
    decreases end
  {
    if end <= 0 then 0 else Sizes(samples, count, end - 1) + |Bucket(samples, count, end - 1)|
  }

  lemma {:induction false} SizesOne(samples: seq<Sample>, s: Sample, count: int, end: int)
    requires 0 <= end && 0 <= Index(s, count)
    ensures Sizes(samples + [s], count, end) == Sizes(samples, count, end) + if Index(s, count) < end then 1 else 0
    decreases end
  {
    if end > 0 {
      SizesOne(samples, s, count, end - 1);
      BucketOne(samples, s, count, end - 1);
    }
  }

  lemma {:induction false} NoSizes(count: int, end: int)
    requires 0 <= end
    ensures Sizes([], count, end) == 0
    decreases end
  {
    if end > 0 { NoSizes(count, end - 1); }
  }

  /** The bucket sizes add up to the number of samples. */
  lemma {:induction false} SizesAddUp(samples: seq<Sample>, count: int)
    requires InUnit(samples) && 1 <= count
    ensures Sizes(samples, count, count) == |samples|
  {
    if samples == [] {
      NoSizes(count, count);
    } else {
      var n := |samples| - 1;
      assert samples == samples[..n] + [samples[n]];
      SizesAddUp(samples[..n], count);
      IndexInRange(samples[n], count);
      SizesOne(samples[..n], samples[n], count, count);
    }
  }

  // ---------- bounds ----------

  lemma {:induction false} GapBound(samples: seq<Sample>)
    requires InUnit(samples)
    ensures Abs(Gap(samples)) <= |samples| as real
  {
    if samples != [] {
      var n := |samples| - 1;
      assert samples[n] in samples;
      GapBound(samples[..n]);
    }
  }

  lemma {:induction false} BucketElements(samples: seq<Sample>, count: int, i: int)
    ensures forall s :: s in Bucket(samples, count, i) ==> s in samples
  {
    if samples != [] { BucketElements(samples[..|samples| - 1], count, i); }
  }

  lemma {:induction false} GapsBound(samples: seq<Sample>, count: int, end: int)
    requires InUnit(samples) && 0 <= end
    ensures 0.0 <= Gaps(samples, count, 0, end) <= Sizes(samples, count, end) as real
    decreases end
  {
    if end > 0 {
      GapsBound(samples, count, end - 1);
      BucketElements(samples, count, end - 1);
      GapBound(Bucket(samples, count, end - 1));
    }
  }

  lemma ShareBound(x: real, n: nat)
    requires 0 < n && 0.0 <= x <= n as real
    ensures 0.0 <= x / n as real <= 1.0
  {
  }

  /** The error is a number between zero and one. */
  lemma EceInUnit(samples: seq<Sample>, count: int)
    requires samples != [] && InUnit(samples) && 1 <= count
    ensures 0.0 <= Ece(samples, count) <= 1.0
  {
    GapsBound(samples, count, count);
    SizesAddUp(samples, count);
    ShareBound(Gaps(samples, count, 0, count), |samples|);
  }

  // ---------- order does not matter ----------

  lemma {:induction false} GapSplit(a: seq<Sample>, b: seq<Sample>)
    ensures Gap(a + b) == Gap(a) + Gap(b)
  {
    if b == [] {
      assert a + b == a;
    } else {
      var n := |b| - 1;
      assert (a + b)[..|a + b| - 1] == a + b[..n];
      GapSplit(a, b[..n]);
    }
  }

  lemma GapOne(samples: seq<Sample>, s: Sample)
    ensures Gap(samples + [s]) == Gap(samples) + Excess(s)
    ensures samples + [] == samples
  {
    assert (samples + [s])[..|samples|] == samples;
  }

  lemma GapWithout(before: seq<Sample>, x: Sample, after: seq<Sample>)
    ensures Gap(before + [x] + after) == Gap(before + after) + Excess(x)
  {
    GapSplit(before, after);
    GapSplit(before + [x], after);
    GapOne(before, x);
  }

  lemma {:induction false} GapIgnoresOrder(a: seq<Sample>, b: seq<Sample>)
    requires multiset(a) == multiset(b)
    ensures Gap(a) == Gap(b)
    decreases |a|
  {
    if a == [] {
      assert |multiset(b)| == 0;
      assert b == [];
    } else {
      var rest, x := a[..|a| - 1], a[|a| - 1];
      assert a == rest + [x];
      GapOne(rest, x);
      var before, after := Around(b, x, rest);
      hide Gap, Excess;
      GapWithout(before, x, after);
      GapIgnoresOrder(rest, before + after);
    }
  }

  // A sequence with the elements of `rest` and one `x` more is split around an `x`.
  lemma Around(b: seq<Sample>, x: Sample, rest: seq<Sample>) returns (before: seq<Sample>, after: seq<Sample>)
    requires multiset(b) == multiset(rest + [x])
    ensures b == before + [x] + after && multiset(before + after) == multiset(rest)
  {
    assert x in multiset(rest + [x]);
    var j :| 0 <= j < |b| && b[j] == x;
    before, after := b[..j], b[j + 1..];
    assert b == before + [x] + after;
    assert multiset(before + after) + multiset{x} == multiset(rest) + multiset{x};
    assert multiset(before + after) == multiset(before + after) + multiset{x} - multiset{x};
    assert multiset(rest) == multiset(rest) + multiset{x} - multiset{x};
  }

  lemma {:induction false} GapsIgnoreOrder(a: seq<Sample>, b: seq<Sample>, count: int, end: int)
    requires multiset(a) == multiset(b) && 0 <= end
    ensures Gaps(a, count, 0, end) == Gaps(b, count, 0, end)
    decreases end
  {
    if end > 0 {
      GapsIgnoreOrder(a, b, count, end - 1);
      var x, y := Bucket(a, count, end - 1), Bucket(b, count, end - 1);
      forall s ensures multiset(x)[s] == multiset(y)[s] {
        BucketCounts(a, count, end - 1, s);
        BucketCounts(b, count, end - 1, s);
      }
      GapIgnoresOrder(x, y);
    }
  }

  /** The error depends on which samples there are, not on when they came. */
  lemma EceIgnoresOrder(a: seq<Sample>, b: seq<Sample>, count: int)
    requires a != [] && b != [] && multiset(a) == multiset(b) && 1 <= count
    ensures Ece(a, count) == Ece(b, count)
  {
    GapsIgnoreOrder(a, b, count, count);
    assert |a| == |multiset(a)| == |multiset(b)| == |b|;
  }

  // ---------- refinement ----------

  lemma MulGroups(c: real, count: int, k: int)
    ensures c * (k * count) as real == k as real * (c * count as real)
  {
    MulCast(k, count);
    Regroup(c, k as real, count as real);
  }

  lemma Regroup(c: real, k: real, n: real)
    ensures c * (k * n) == k * (c * n)
  {
  }

  // `k` times as many buckets split each bucket into `k`.
  lemma IndexCoarsens(s: Sample, count: int, k: int)
    requires 0.0 <= s.confidence && 1 <= count && 1 <= k
    ensures k * Index(s, count) <= Index(s, k * count) < k * Index(s, count) + k
  {
    IndexIsClamp(s, count);
    IndexIsClamp(s, k * count);
    hide Index, Clamp;
    MulGroups(s.confidence, count, k);
    FloorScales(s.confidence * count as real, k);
    ClampScales((s.confidence * count as real).Floor, (s.confidence * (k * count) as real).Floor, count, k);
  }

  lemma IndexIsClamp(s: Sample, count: int)
    ensures Index(s, count) == Clamp((s.confidence * count as real).Floor, count)
  {
  }

  function Clamp(raw: int, count: int): int {
    if raw <= count - 1 then raw else count - 1
  }

  lemma ClampScales(raw: int, fine: int, count: int, k: int)
    requires k * raw <= fine < k * raw + k && 1 <= k
    ensures k * Clamp(raw, count) <= Clamp(fine, k * count) < k * Clamp(raw, count) + k
  {
    MulMono(raw, count - 1, k);
  }

  // The fine index lies in the `i`-th group exactly when the coarse index is `i`.
  lemma PartsIff(s: Sample, count: int, k: int, i: int)
    requires 0.0 <= s.confidence && 1 <= count && 1 <= k
    ensures Index(s, count) == i <==> k * i <= Index(s, k * count) < k * i + k
  {
    IndexCoarsens(s, count, k);
    hide Index;
    MulMono(Index(s, count), i, k);
    MulMono(i, Index(s, count), k);
  }

  lemma MulCast(k: int, n: int)
    ensures (k * n) as real == k as real * n as real
  {
  }

  lemma MulMono(a: int, b: int, k: int)
    requires 1 <= k
    ensures a <= b ==> k * a <= k * b
    ensures b < a ==> k * b + k <= k * a
    ensures k * (b + 1) == k * b + k
  {
    if b < a { MulLe(b + 1, a, k); }
    if a <= b { MulLe(a, b, k); }
  }

  lemma MulLe(a: int, b: int, k: int)
    requires a <= b && 1 <= k
    ensures k * a <= k * b
  {
  }

  predicate Within(low: real, x: real, width: real) {
    low <= x < low + width
  }

  lemma FloorScales(x: real, k: int)
    requires 1 <= k
    ensures k * x.Floor <= (k as real * x).Floor < k * x.Floor + k
  {
    hide Within;
    ScaleBetween(x.Floor as real, x, k as real);
    MulCast(k, x.Floor);
    FloorBetween(k as real * x, k * x.Floor, k, k as real * x.Floor as real, k as real);
  }

  lemma FloorBetween(r: real, low: int, k: int, bound: real, width: real)
    requires low as real == bound && k as real == width && Within(bound, r, width)
    ensures low <= r.Floor < low + k
  {
  }

  lemma ScaleBetween(f: real, x: real, k: real)
    requires f <= x < f + 1.0 && 0.0 < k
    ensures Within(k * f, k * x, k)
  {
    assert 0.0 <= k * (x - f) < k;
    assert k * (x - f) == k * x - k * f;
  }

  /** The gaps, signed, of the buckets `from` to `to`. */
  function SignedGaps(samples: seq<Sample>, count: int, from: int, end: int): real
    decreases end - from
  {
    if end <= from then 0.0 else SignedGaps(samples, count, from, end - 1) + Gap(Bucket(samples, count, end - 1))
  }

  lemma {:induction false} SignedOne(samples: seq<Sample>, s: Sample, count: int, from: int, end: int)
    requires from <= end
    ensures SignedGaps(samples + [s], count, from, end)
            == SignedGaps(samples, count, from, end) + if from <= Index(s, count) < end then Excess(s) else 0.0
    decreases end - from
  {
    if from < end {
      SignedOne(samples, s, count, from, end - 1);
      BucketOne(samples, s, count, end - 1);
      GapOne(Bucket(samples, count, end - 1), s);
      hide Index, Bucket, Gap, Excess;
    }
  }

  lemma {:induction false} NoGaps(count: int, from: int, end: int)
    ensures SignedGaps([], count, from, end) == 0.0
    decreases end - from
  {
    if from < end { NoGaps(count, from, end - 1); }
  }

  // One more sample changes a coarse bucket's gap and the signed sum of its parts alike.
  lemma OneMoreInParts(rest: seq<Sample>, s: Sample, count: int, i: int, fine: int, from: int, end: int)
    requires from <= end && (Index(s, count) == i <==> from <= Index(s, fine) < end)
    requires Gap(Bucket(rest, count, i)) == SignedGaps(rest, fine, from, end)
    ensures Gap(Bucket(rest + [s], count, i)) == SignedGaps(rest + [s], fine, from, end)
  {
    SignedOne(rest, s, fine, from, end);
    BucketOne(rest, s, count, i);
    GapOne(Bucket(rest, count, i), s);
    hide Index, Bucket, Gap, SignedGaps, Excess;
  }

  /** A coarse bucket's gap is the signed sum of its parts. */
  lemma GapOfParts(samples: seq<Sample>, count: int, k: int, i: int)
    requires InUnit(samples) && 1 <= count && 1 <= k
    ensures Gap(Bucket(samples, count, i)) == SignedGaps(samples, k * count, k * i, k * i + k)
  {
    hide Index, Bucket, Gap, SignedGaps;
    forall s | s in samples
      ensures Index(s, count) == i <==> k * i <= Index(s, k * count) < k * i + k
    {
      PartsIff(s, count, k, i);
    }
    GapOfGroup(samples, count, i, k * count, k * i, k * i + k);
  }

  lemma {:induction false} GapOfGroup(samples: seq<Sample>, count: int, i: int, fine: int, from: int, end: int)
    requires from <= end
    requires forall s :: s in samples ==> (Index(s, count) == i <==> from <= Index(s, fine) < end)
    ensures Gap(Bucket(samples, count, i)) == SignedGaps(samples, fine, from, end)
  {
    if samples == [] {
      NoGaps(fine, from, end);
    } else {
      hide Bucket, Gap, SignedGaps, Index;
      var rest, s := samples[..|samples| - 1], samples[|samples| - 1];
      assert samples == rest + [s] && s in samples;
      GapOfGroup(rest, count, i, fine, from, end);
      OneMoreInParts(rest, s, count, i, fine, from, end);
    }
  }

  lemma {:induction false} Triangle(samples: seq<Sample>, count: int, from: int, end: int)
    ensures Abs(SignedGaps(samples, count, from, end)) <= Gaps(samples, count, from, end)
    decreases end - from
  {
    if from < end { Triangle(samples, count, from, end - 1); }
  }

  lemma {:induction false} GapsSplit(samples: seq<Sample>, count: int, from: int, mid: int, end: int)
    requires from <= mid <= end
    ensures Gaps(samples, count, from, end) == Gaps(samples, count, from, mid) + Gaps(samples, count, mid, end)
    decreases end - mid
  {
    if mid < end { GapsSplit(samples, count, from, mid, end - 1); }
  }

  // One coarse bucket's gap is at most the sum of its parts' gaps.
  lemma OneRefines(samples: seq<Sample>, count: int, k: int, i: int)
    requires InUnit(samples) && 1 <= count && 1 <= k
    ensures Abs(Gap(Bucket(samples, count, i))) <= Gaps(samples, k * count, k * i, k * i + k)
  {
    hide Bucket, Gap, Gaps, SignedGaps;
    GapOfParts(samples, count, k, i);
    Triangle(samples, k * count, k * i, k * i + k);
  }

  lemma GapsStep(samples: seq<Sample>, count: int, fine: int, i: int, from: int, end: int)
    requires 0 <= i && 0 <= from <= end
    requires Gaps(samples, count, 0, i) <= Gaps(samples, fine, 0, from)
    requires Abs(Gap(Bucket(samples, count, i))) <= Gaps(samples, fine, from, end)
    ensures Gaps(samples, count, 0, i + 1) <= Gaps(samples, fine, 0, end)
  {
    GapsSplit(samples, fine, 0, from, end);
    hide Bucket, Gap, Abs;
  }

  lemma NextMultiple(k: int, end: int)
    requires 1 <= k && 1 <= end
    ensures k * (end - 1) + k == k * end && 0 <= k * (end - 1) <= k * end
  {
  }

  // One coarse bucket more, and the fine buckets it is made of.
  lemma RefineStep(samples: seq<Sample>, count: int, k: int, end: int)
    requires InUnit(samples) && 1 <= count && 1 <= k && 1 <= end && 0 <= k * (end - 1)
    requires Gaps(samples, count, 0, end - 1) <= Gaps(samples, k * count, 0, k * (end - 1))
    ensures 0 <= k * end
    ensures Gaps(samples, count, 0, end) <= Gaps(samples, k * count, 0, k * end)
  {
    hide Bucket, Gap, Gaps, Abs, InUnit;
    OneRefines(samples, count, k, end - 1);
    NextMultiple(k, end);
    GapsStep(samples, count, k * count, end - 1, k * (end - 1), k * end);
  }

  lemma {:induction false} GapsRefine(samples: seq<Sample>, count: int, k: int, end: int)
    requires InUnit(samples) && 1 <= count && 1 <= k && 0 <= end
    ensures 0 <= k * end
    ensures Gaps(samples, count, 0, end) <= Gaps(samples, k * count, 0, k * end)
    decreases end
  {
    hide Bucket, Gap, Abs, InUnit;
    if end == 0 {
      assert k * end == 0;
    } else {
      hide Gaps;
      GapsRefine(samples, count, k, end - 1);
      RefineStep(samples, count, k, end);
    }
  }

  /** Splitting every bucket can only reveal more error. */
  lemma RefinementReveals(samples: seq<Sample>, count: int, k: int)
    requires samples != [] && InUnit(samples) && 1 <= count && 1 <= k
    ensures Ece(samples, count) <= Ece(samples, k * count)
  {
    GapsRefine(samples, count, k, count);
    assert k * count == count * k;
    DivMono(Gaps(samples, count, 0, count), Gaps(samples, k * count, 0, k * count), |samples| as real);
  }

  lemma DivMono(a: real, b: real, n: real)
    requires a <= b && 0.0 < n
    ensures a / n <= b / n
  {
    assert b / n - a / n == (b - a) / n;
  }

  // ---------- one bucket ----------

  function Confidences(samples: seq<Sample>): real {
    if samples == [] then 0.0 else Confidences(samples[..|samples| - 1]) + samples[|samples| - 1].confidence
  }

  function Hits(samples: seq<Sample>): nat {
    if samples == [] then 0 else Hits(samples[..|samples| - 1]) + if samples[|samples| - 1].hit then 1 else 0
  }

  function MeanGap(samples: seq<Sample>): real
    requires samples != []
  {
    Abs(Confidences(samples) / |samples| as real - Hits(samples) as real / |samples| as real)
  }

  lemma {:induction false} GapIsDifference(samples: seq<Sample>)
    ensures Gap(samples) == Confidences(samples) - Hits(samples) as real
  {
    if samples != [] { GapIsDifference(samples[..|samples| - 1]); }
  }

  lemma {:induction false} OneBucketHoldsAll(samples: seq<Sample>)
    requires InUnit(samples)
    ensures Bucket(samples, 1, 0) == samples
  {
    if samples != [] {
      var n := |samples| - 1;
      OneBucketHoldsAll(samples[..n]);
      assert samples[n] in samples && samples == samples[..n] + [samples[n]];
      IndexInRange(samples[n], 1);
    }
  }

  lemma AbsQuotient(a: real, b: real, n: real)
    requires 0.0 < n
    ensures Abs(a / n - b / n) == Abs(a - b) / n
  {
    assert a / n - b / n == (a - b) / n;
    if a < b {
      assert (a - b) / n == -((b - a) / n);
    }
  }

  lemma OneBucket(samples: seq<Sample>)
    requires samples != [] && InUnit(samples)
    ensures Ece(samples, 1) == MeanGap(samples)
  {
    OneBucketHoldsAll(samples);
    GapIsDifference(samples);
    AbsQuotient(Confidences(samples), Hits(samples) as real, |samples| as real);
    hide Bucket, Gap, Abs, Confidences, Hits;
    NoGapsYet(samples);
  }

  lemma NoGapsYet(samples: seq<Sample>)
    ensures Gaps(samples, 1, 0, 1) == Abs(Gap(Bucket(samples, 1, 0)))
  {
    assert Gaps(samples, 1, 0, 0) == 0.0;
    hide Bucket, Gap, Abs;
  }

  /** With one bucket the error is the distance of mean confidence and hit rate, and no bucketing reports less. */
  lemma OneBucketIsMeanGap(samples: seq<Sample>, count: int)
    requires samples != [] && InUnit(samples) && 1 <= count
    ensures Ece(samples, 1) == MeanGap(samples)
    ensures MeanGap(samples) <= Ece(samples, count)
  {
    hide Ece, MeanGap;
    OneBucket(samples);
    RefinementReveals(samples, 1, count);
    assert count * 1 == count;
  }

  // ---------- what the error is made of ----------

  /** No bucket holds samples of both. */
  ghost predicate Apart(a: seq<Sample>, b: seq<Sample>, count: int) {
    forall s, t :: s in a && t in b ==> Index(s, count) != Index(t, count)
  }

  lemma {:induction false} BucketConcat(a: seq<Sample>, b: seq<Sample>, count: int, i: int)
    ensures Bucket(a + b, count, i) == Bucket(a, count, i) + Bucket(b, count, i)
  {
    if b == [] {
      assert a + b == a && Bucket(a, count, i) + [] == Bucket(a, count, i);
    } else {
      var rest, s := b[..|b| - 1], b[|b| - 1];
      assert a + b == a + rest + [s] && b == rest + [s];
      BucketConcat(a, rest, count, i);
      BucketOne(a + rest, s, count, i);
      BucketOne(rest, s, count, i);
      hide Bucket;
    }
  }

  lemma {:induction false} EmptyBucket(samples: seq<Sample>, count: int, i: int)
    requires forall s :: s in samples ==> Index(s, count) != i
    ensures Bucket(samples, count, i) == []
  {
    if samples != [] {
      var n := |samples| - 1;
      assert samples[n] in samples;
      EmptyBucket(samples[..n], count, i);
    }
  }

  lemma OneIsEmpty(a: seq<Sample>, b: seq<Sample>, count: int, i: int)
    requires Apart(a, b, count)
    ensures Bucket(a, count, i) == [] || Bucket(b, count, i) == []
  {
    if s :| s in a && Index(s, count) == i {
      EmptyBucket(b, count, i);
    } else {
      EmptyBucket(a, count, i);
    }
  }

  lemma {:induction false} GapsAdd(a: seq<Sample>, b: seq<Sample>, count: int, end: int)
    requires Apart(a, b, count)
    ensures Gaps(a + b, count, 0, end) == Gaps(a, count, 0, end) + Gaps(b, count, 0, end)
    decreases end
  {
    if end > 0 {
      GapsAdd(a, b, count, end - 1);
      BucketConcat(a, b, count, end - 1);
      OneIsEmpty(a, b, count, end - 1);
      NoGap();
      hide Gap, Bucket, Index;
      assert Bucket(a, count, end - 1) + [] == Bucket(a, count, end - 1);
      assert [] + Bucket(b, count, end - 1) == Bucket(b, count, end - 1);
    }
  }

  /** So many samples with this error each. */
  function Times(error: real, n: int): real {
    error * n as real
  }

  lemma QuotientTimes(total: real, n: int)
    requires 0 < n
    ensures Times(total / n as real, n) == total
  {
  }

  lemma EceTimes(samples: seq<Sample>, count: int)
    requires samples != []
    ensures Times(Ece(samples, count), |samples|) == Gaps(samples, count, 0, count)
  {
    hide Gaps, Times;
    QuotientTimes(Gaps(samples, count, 0, count), |samples|);
  }

  /** Samples that share no bucket contribute to the error by their numbers. */
  lemma EceAdds(a: seq<Sample>, b: seq<Sample>, count: int)
    requires a != [] && b != [] && Apart(a, b, count)
    ensures Times(Ece(a + b, count), |a + b|) == Times(Ece(a, count), |a|) + Times(Ece(b, count), |b|)
  {
    hide Gaps, Ece, Times;
    GapsAdd(a, b, count, count);
    EceTimes(a + b, count);
    EceTimes(a, count);
    EceTimes(b, count);
  }

  lemma {:induction false} FullBucket(samples: seq<Sample>, count: int, i: int)
    requires forall s :: s in samples ==> Index(s, count) == i
    ensures Bucket(samples, count, i) == samples
  {
    if samples != [] {
      var n := |samples| - 1;
      assert samples[n] in samples && samples == samples[..n] + [samples[n]];
      FullBucket(samples[..n], count, i);
    }
  }

  lemma {:induction false} LumpedGaps(samples: seq<Sample>, count: int, i: int, end: int)
    requires forall s :: s in samples ==> Index(s, count) == i
    requires 0 <= i
    ensures Gaps(samples, count, 0, end) == if i < end then Abs(Gap(samples)) else 0.0
    decreases end
  {
    if end > 0 {
      LumpedGaps(samples, count, i, end - 1);
      NoGap();
      if i == end - 1 { FullBucket(samples, count, i); } else { EmptyBucket(samples, count, end - 1); }
      hide Gap, Bucket, Index;
    }
  }

  /** Samples of one bucket contribute the distance between their mean confidence and their hit rate. Together with
      `EceAdds` this determines the error of any samples. */
  lemma EceOfOneBucket(samples: seq<Sample>, count: int, i: int)
    requires samples != [] && 0 <= i < count && forall s :: s in samples ==> Index(s, count) == i
    ensures Ece(samples, count) == MeanGap(samples)
  {
    LumpedGaps(samples, count, i, count);
    GapIsDifference(samples);
    AbsQuotient(Confidences(samples), Hits(samples) as real, |samples| as real);
    hide Gaps, Gap, Confidences, Hits;
  }

  // ---------- the computation ----------

  /** `_bucketed`: append each sample to its bucket. */
  method Bucketed(samples: seq<Sample>, count: int) returns (buckets: seq<seq<Sample>>)
    requires InUnit(samples) && 1 <= count
    ensures |buckets| == count && forall i :: 0 <= i < count ==> buckets[i] == Bucket(samples, count, i)
  {
    buckets := seq(count, _ => []);
    for j := 0 to |samples|
      invariant |buckets| == count
      invariant forall i :: 0 <= i < count ==> buckets[i] == Bucket(samples[..j], count, i)
    {
      var s := samples[j];
      IndexInRange(s, count);
      forall i
        ensures Bucket(samples[..j + 1], count, i)
                == Bucket(samples[..j], count, i) + if Index(s, count) == i then [s] else []
      {
        assert samples[..j + 1] == samples[..j] + [s];
        BucketOne(samples[..j], s, count, i);
      }
      forall i | 0 <= i < count ensures buckets[i] + [] == buckets[i] { }
      var index := Index(s, count);
      buckets := buckets[index := buckets[index] + [s]];
    }
    assert samples[..|samples|] == samples;
  }

  /** The bucket's share of all `n` samples times the distance of its mean confidence and its hit rate. */
  method WeightedShare(bucket: seq<Sample>, n: nat) returns (share: real)
    requires 0 < n
    ensures share == Abs(Gap(bucket)) / n as real
  {
    if bucket == [] {
      NoGap();
      return 0.0;
    }
    var confidences, hits := Totals(bucket);
    GapIsDifference(bucket);
    WeightedGap(confidences, hits as real, |bucket| as real, n as real);
    share := |bucket| as real / n as real * Abs(confidences / |bucket| as real - hits as real / |bucket| as real);
  }

  /** `compute_ece`: no samples, no answer. */
  method ComputeEce(samples: seq<Sample>, count: int) returns (ece: Option<real>)
    requires InUnit(samples) && 1 <= count
    ensures ece == if samples == [] then None else Some(Ece(samples, count))
  {
    if samples == [] {
      return None;
    }
    var sum := SumShares(samples, count);
    ece := Some(sum);
  }

  method SumShares(samples: seq<Sample>, count: int) returns (sum: real)
    requires samples != [] && InUnit(samples) && 1 <= count
    ensures sum == Gaps(samples, count, 0, count) / |samples| as real
  {
    var buckets := Bucketed(samples, count);
    hide Bucket, Gap, Abs, InUnit;
    sum := 0.0;
    for i := 0 to count
      invariant sum == Gaps(samples, count, 0, i) / |samples| as real
    {
      var share := WeightedShare(buckets[i], |samples|);
      GapsOne(samples, count, i);
      sum := sum + share;
    }
  }

  lemma GapsOne(samples: seq<Sample>, count: int, i: int)
    requires samples != [] && 0 <= i
    ensures Gaps(samples, count, 0, i + 1) / |samples| as real
            == Gaps(samples, count, 0, i) / |samples| as real + Abs(Gap(Bucket(samples, count, i))) / |samples| as real
  {
    hide Abs, Bucket;
    AddQuotient(Gaps(samples, count, 0, i), Abs(Gap(Bucket(samples, count, i))), |samples| as real);
  }

  lemma NoGap()
    ensures Abs(Gap([])) == 0.0
  {
  }

  method Totals(samples: seq<Sample>) returns (confidences: real, hits: nat)
    ensures confidences == Confidences(samples) && hits == Hits(samples)
  {
    confidences, hits := 0.0, 0;
    for i := 0 to |samples|
      invariant confidences == Confidences(samples[..i]) && hits == Hits(samples[..i])
    {
      assert samples[..i + 1][..i] == samples[..i];
      confidences := confidences + samples[i].confidence;
      if samples[i].hit {
        hits := hits + 1;
      }
    }
    assert samples[..|samples|] == samples;
  }

  // A bucket's share times its mean gap is its gap over the number of samples.
  lemma WeightedGap(c: real, h: real, b: real, n: real)
    requires 0.0 < b && 0.0 < n
    ensures b / n * Abs(c / b - h / b) == Abs(c - h) / n
  {
    AbsQuotient(c, h, b);
    Cancel(Abs(c - h), b, n);
  }

  lemma Cancel(x: real, b: real, n: real)
    requires 0.0 < b && 0.0 < n
    ensures b / n * (x / b) == x / n
  {
    var q := x / b;
    assert q * b == x;
    assert b / n * q == b * q / n;
  }

  lemma AddQuotient(a: real, b: real, n: real)
    requires 0.0 < n
    ensures (a + b) / n == a / n + b / n
    ensures 0.0 / n == 0.0
  {
  }
}
