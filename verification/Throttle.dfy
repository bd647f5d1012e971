/** reasoning/llm/throttle.py: the token bucket that paces outbound requests. */
module Throttle {
  import opened Numbers

  datatype Pace = Pace(rate: real, per: real)

  predicate ValidPace(p: Pace) {
    0.0 < p.rate && 0.0 < p.per
  }

  /** Permits per second. */
  function Speed(p: Pace): (v: real)
    requires ValidPace(p)
    ensures 0.0 < v
  {
    p.rate / p.per
  }

  datatype Level = Level(allowance: real, last: real)

  /** The permits that accrue between two readings of the clock. */
  function Accrued(p: Pace, from: real, now: real): real
    requires ValidPace(p)
  {
    (now - from) * Speed(p)
  }

  function Refill(p: Pace, b: Level, now: real): Level
    requires ValidPace(p)
  {
    Level(Min(p.rate, b.allowance + Accrued(p, b.last, now)), now)
  }

  /** One pass of the loop in `acquire`: refill, then take a permit if there is one. */
  function Check(p: Pace, b: Level, now: real): (Level, bool)
    requires ValidPace(p)
  {
    var full := Refill(p, b, now);
    if full.allowance >= 1.0 then (full.(allowance := full.allowance - 1.0), true) else (full, false)
  }

  /** How long a refused caller sleeps. */
  function Wait(p: Pace, b: Level): real
    requires ValidPace(p)
  {
    (1.0 - b.allowance) * (p.per / p.rate)
  }

  ghost predicate Sorted(times: seq<real>) {
    forall j, k :: 0 <= j < k < |times| ==> times[j] <= times[k]
  }

  function After(p: Pace, b: Level, times: seq<real>): Level
    requires ValidPace(p)
  {
    if times == [] then b else Check(p, After(p, b, times[..|times| - 1]), times[|times| - 1]).0
  }

  /** When permits were granted over these checks. */
  function Grants(p: Pace, b: Level, times: seq<real>): seq<real>
    requires ValidPace(p)
  {
    if times == [] then []
    else
      var before, now := times[..|times| - 1], times[|times| - 1];
      Grants(p, b, before) + if Check(p, After(p, b, before), now).1 then [now] else []
  }

  predicate InRange(p: Pace, b: Level) {
    0.0 <= b.allowance <= p.rate
  }

  lemma CheckInRange(p: Pace, b: Level, now: real)
    requires ValidPace(p) && InRange(p, b) && b.last <= now
    ensures InRange(p, Check(p, b, now).0) && Check(p, b, now).0.last == now
  {
    AccruedNonNegative(p, b.last, now);
  }

  lemma AccruedNonNegative(p: Pace, from: real, now: real)
    requires ValidPace(p) && from <= now
    ensures 0.0 <= Accrued(p, from, now)
  {
    NonNegative(now - from, Speed(p));
  }

  lemma AccruedAdds(p: Pace, a: real, b: real, c: real)
    requires ValidPace(p)
    ensures Accrued(p, a, b) + Accrued(p, b, c) == Accrued(p, a, c)
  {
    hide Speed;
    Distributes(b - a, c - b, Speed(p));
    assert (b - a) + (c - b) == c - a;
  }

  lemma Distributes(x: real, y: real, v: real)
    ensures x * v + y * v == (x + y) * v
  {
  }

  lemma NonNegative(x: real, y: real)
    requires 0.0 <= x && 0.0 <= y
    ensures 0.0 <= x * y
  {
  }

  ghost predicate From(times: seq<real>, start: real) {
    Sorted(times) && (times != [] ==> start <= times[0])
  }

  /** The allowance stays between nothing and a full bucket. */
  lemma {:induction false} AllowanceInRange(p: Pace, b: Level, times: seq<real>)
    requires ValidPace(p) && InRange(p, b) && From(times, b.last)
    ensures InRange(p, After(p, b, times))
    ensures After(p, b, times).last == if times == [] then b.last else times[|times| - 1]
  {
    if times != [] {
      var n := |times| - 1;
      hide Check;
      AllowanceInRange(p, b, times[..n]);
      CheckInRange(p, After(p, b, times[..n]), times[n]);
    }
  }

  // A check never creates more than the time since the last one accrued.
  lemma CheckSpends(p: Pace, b: Level, now: real)
    requires ValidPace(p)
    ensures Check(p, b, now).0.allowance + (if Check(p, b, now).1 then 1.0 else 0.0) <= b.allowance + Accrued(p, b.last, now)
    ensures Check(p, b, now).0.allowance + (if Check(p, b, now).1 then 1.0 else 0.0) <= p.rate
  {
  }

  /** Over consecutive checks, what was granted and what is left fit into a full bucket plus what accrued meanwhile. */
  lemma {:induction false} GrantsBounded(p: Pace, b: Level, times: seq<real>)
    requires ValidPace(p) && InRange(p, b) && From(times, b.last) && times != []
    ensures |Grants(p, b, times)| as real + After(p, b, times).allowance
            <= p.rate + Accrued(p, times[0], times[|times| - 1])
  {
    var before, now := times[..|times| - 1], times[|times| - 1];
    AllowanceInRange(p, b, before);
    hide Check, Accrued;
    CheckSpends(p, After(p, b, before), now);
    if before == [] {
      AccruedNonNegative(p, now, now);
    } else {
      GrantsBounded(p, b, before);
      AccruedAdds(p, times[0], before[|before| - 1], now);
    }
  }

  // ---------- any stretch of time ----------

  function InWindow(times: seq<real>, start: real, end: real): seq<real> {
    if times == [] then []
    else
      var t := times[|times| - 1];
      InWindow(times[..|times| - 1], start, end) + if start <= t <= end then [t] else []
  }

  lemma {:induction false} GrantsElements(p: Pace, b: Level, times: seq<real>)
    requires ValidPace(p)
    ensures forall t :: t in Grants(p, b, times) ==> t in times
  {
    if times != [] {
      hide Check;
      GrantsElements(p, b, times[..|times| - 1]);
    }
  }

  lemma {:induction false} GrantsSplit(p: Pace, b: Level, first: seq<real>, rest: seq<real>)
    requires ValidPace(p)
    ensures After(p, b, first + rest) == After(p, After(p, b, first), rest)
    ensures Grants(p, b, first + rest) == Grants(p, b, first) + Grants(p, After(p, b, first), rest)
  {
    hide Check;
    if rest == [] {
      assert first + rest == first;
    } else {
      var n := |rest| - 1;
      GrantsSplit(p, b, first, rest[..n]);
      assert (first + rest)[..|first + rest| - 1] == first + rest[..n];
    }
  }

  lemma {:induction false} WindowSplit(a: seq<real>, b: seq<real>, start: real, end: real)
    ensures InWindow(a + b, start, end) == InWindow(a, start, end) + InWindow(b, start, end)
  {
    if b == [] {
      assert a + b == a;
    } else {
      var n := |b| - 1;
      WindowSplit(a, b[..n], start, end);
      assert (a + b)[..|a + b| - 1] == a + b[..n];
    }
  }

  lemma {:induction false} WindowEmpty(times: seq<real>, start: real, end: real)
    requires forall k :: 0 <= k < |times| ==> times[k] < start || end < times[k]
    ensures InWindow(times, start, end) == []
  {
    if times != [] { WindowEmpty(times[..|times| - 1], start, end); }
  }

  lemma OutsideEmpty(p: Pace, b: Level, times: seq<real>, start: real, end: real)
    requires ValidPace(p)
    requires AllBelow(times, start) || AllAbove(times, end)
    ensures InWindow(Grants(p, b, times), start, end) == []
  {
    hide Check;
    var grants := Grants(p, b, times);
    GrantsElements(p, b, times);
    forall k | 0 <= k < |grants|
      ensures grants[k] < start || end < grants[k]
    {
      assert grants[k] in grants;
    }
    WindowEmpty(grants, start, end);
  }

  lemma {:induction false} WindowShorter(times: seq<real>, start: real, end: real)
    ensures |InWindow(times, start, end)| <= |times|
  {
    if times != [] { WindowShorter(times[..|times| - 1], start, end); }
  }

  // The checks before, within and after a stretch of time.
  lemma {:induction false} SplitAt(times: seq<real>, start: real) returns (i: nat)
    requires Sorted(times)
    ensures i <= |times|
    ensures (forall k :: 0 <= k < i ==> times[k] < start) && (forall k :: i <= k < |times| ==> start <= times[k])
  {
    i := 0;
    while i < |times| && times[i] < start
      invariant i <= |times| && forall k :: 0 <= k < i ==> times[k] < start
    {
      i := i + 1;
    }
  }

  // Only the checks within the stretch count.
  lemma OnlyInside(p: Pace, b: Level, early: seq<real>, inside: seq<real>, late: seq<real>, start: real, end: real)
    requires ValidPace(p)
    requires AllBelow(early, start) && AllAbove(late, end)
    ensures |InWindow(Grants(p, b, early + (inside + late)), start, end)| <= |Grants(p, After(p, b, early), inside)|
  {
    hide Check;
    var b1 := After(p, b, early);
    var b2 := After(p, b1, inside);
    GrantsSplit(p, b, early, inside + late);
    GrantsSplit(p, b1, inside, late);
    OutsideEmpty(p, b, early, start, end);
    OutsideEmpty(p, b2, late, start, end);
    WindowSplit(Grants(p, b, early), Grants(p, b1, inside) + Grants(p, b2, late), start, end);
    WindowSplit(Grants(p, b1, inside), Grants(p, b2, late), start, end);
    WindowShorter(Grants(p, b1, inside), start, end);
  }

  function LastOf(times: seq<real>, from: real): real {
    if times == [] then from else times[|times| - 1]
  }

  ghost predicate AllBelow(times: seq<real>, bound: real) {
    forall k :: 0 <= k < |times| ==> times[k] < bound
  }

  ghost predicate AllWithin(times: seq<real>, start: real, end: real) {
    forall k :: 0 <= k < |times| ==> start <= times[k] <= end
  }

  ghost predicate AllAbove(times: seq<real>, bound: real) {
    forall k :: 0 <= k < |times| ==> bound < times[k]
  }

  lemma CutEarly(times: seq<real>, from: real, start: real) returns (early: seq<real>, rest: seq<real>)
    requires From(times, from)
    ensures times == early + rest && From(early, from) && From(rest, LastOf(early, from))
    ensures AllBelow(early, start) && forall k :: 0 <= k < |rest| ==> start <= rest[k]
  {
    var i := SplitAt(times, start);
    early, rest := times[..i], times[i..];
  }

  lemma CutLate(times: seq<real>, from: real, start: real, end: real) returns (inside: seq<real>, late: seq<real>)
    requires From(times, from) && forall k :: 0 <= k < |times| ==> start <= times[k]
    ensures times == inside + late && From(inside, from) && AllWithin(inside, start, end) && AllAbove(late, end)
  {
    var j := SplitAfter(times, end);
    inside, late := times[..j], times[j..];
  }

  lemma GrantsWithin(p: Pace, b: Level, times: seq<real>, start: real, end: real)
    requires ValidPace(p) && InRange(p, b) && From(times, b.last) && start <= end
    ensures |InWindow(Grants(p, b, times), start, end)| as real <= p.rate + Accrued(p, start, end)
  {
    hide Check, Speed, Grants, Accrued, InWindow, From, AllBelow, AllWithin, AllAbove, Sorted, InRange, After;
    var early, rest := CutEarly(times, b.last, start);
    var inside, late := CutLate(rest, LastOf(early, b.last), start, end);
    AllowanceInRange(p, b, early);
    OnlyInside(p, b, early, inside, late, start, end);
    InsideBound(p, After(p, b, early), inside, start, end);
  }

  /** In any run of checks and any stretch of time, at most a full bucket plus what accrues in it is granted. */
  lemma RateBound(p: Pace, b: Level, times: seq<real>, start: real, length: real)
    requires ValidPace(p) && InRange(p, b) && From(times, b.last) && 0.0 <= length
    ensures |InWindow(Grants(p, b, times), start, start + length)| as real <= p.rate + length * (p.rate / p.per)
  {
    hide Grants, InWindow, From, InRange, Accrued;
    GrantsWithin(p, b, times, start, start + length);
    WholeStretch(p, start, length);
  }

  lemma WholeStretch(p: Pace, start: real, length: real)
    requires ValidPace(p)
    ensures Accrued(p, start, start + length) == length * (p.rate / p.per)
  {
    assert start + length - start == length;
  }

  lemma SplitAfter(times: seq<real>, end: real) returns (j: nat)
    requires Sorted(times)
    ensures j <= |times|
    ensures (forall k :: 0 <= k < j ==> times[k] <= end) && (forall k :: j <= k < |times| ==> end < times[k])
  {
    j := 0;
    while j < |times| && times[j] <= end
      invariant j <= |times| && forall k :: 0 <= k < j ==> times[k] <= end
    {
      j := j + 1;
    }
  }

  lemma InsideBound(p: Pace, b: Level, times: seq<real>, start: real, end: real)
    requires ValidPace(p) && InRange(p, b) && From(times, b.last) && start <= end
    requires AllWithin(times, start, end)
    ensures |Grants(p, b, times)| as real <= p.rate + Accrued(p, start, end)
  {
    hide Check, Accrued;
    if times == [] {
      AccruedNonNegative(p, start, end);
    } else {
      GrantsBounded(p, b, times);
      AllowanceInRange(p, b, times);
      var first, last := times[0], times[|times| - 1];
      AccruedNonNegative(p, start, first);
      AccruedNonNegative(p, last, end);
      AccruedAdds(p, start, first, last);
      AccruedAdds(p, start, last, end);
    }
  }

  lemma ScaleUp(a: real, b: real, v: real)
    requires a <= b && 0.0 <= v
    ensures a * v <= b * v
  {
  }

  // ---------- the second check ----------

  lemma SleepAccrues(a: real, gap: real, rate: real, per: real)
    requires 0.0 < rate && 0.0 < per && (1.0 - a) * (per / rate) <= gap
    ensures 1.0 <= a + gap * (rate / per)
  {
    ScaleUp((1.0 - a) * (per / rate), gap, rate / per);
    Cancels(1.0 - a, rate, per);
  }

  lemma Cancels(x: real, rate: real, per: real)
    requires 0.0 < rate && 0.0 < per
    ensures x * (per / rate) * (rate / per) == x
  {
    Reciprocal(per, rate);
    Regroup(x, per / rate, rate / per);
  }

  lemma Reciprocal(a: real, b: real)
    requires 0.0 < a && 0.0 < b
    ensures a / b * (b / a) == 1.0
  {
    var q := a / b;
    assert q * b == a;
    assert q * (b / a) == q * b / a;
  }

  lemma Regroup(x: real, y: real, z: real)
    ensures x * y * z == x * (y * z)
  {
  }

  /** Having slept at least the computed time, a caller is granted on its second check. */
  lemma SecondCheckGrants(p: Pace, b: Level, now: real)
    requires ValidPace(p) && 1.0 <= p.rate && now >= b.last + Wait(p, b)
    ensures Check(p, b, now).1
  {
    SleepAccrues(b.allowance, now - b.last, p.rate, p.per);
    assert Refill(p, b, now).allowance >= 1.0;
  }

  /** A bucket that holds one permit grants exactly from the moment the computed sleep is over. */
  lemma WaitIsExact(p: Pace, b: Level, now: real)
    requires ValidPace(p) && 1.0 <= p.rate
    ensures Check(p, b, now).1 <==> b.last + Wait(p, b) <= now
  {
    if b.last + Wait(p, b) <= now {
      SecondCheckGrants(p, b, now);
    } else {
      TooEarly(b.allowance, now - b.last, p.rate, p.per);
    }
  }

  lemma TooEarly(a: real, gap: real, rate: real, per: real)
    requires 0.0 < rate && 0.0 < per && gap < (1.0 - a) * (per / rate)
    ensures a + gap * (rate / per) < 1.0
  {
    ScaleUpStrictly(gap, (1.0 - a) * (per / rate), rate / per);
    Cancels(1.0 - a, rate, per);
  }

  lemma ScaleUpStrictly(a: real, b: real, v: real)
    requires a < b && 0.0 < v
    ensures a * v < b * v
  {
  }

  /** Every permit in the bucket is there to be used: as many checks as it holds, however close, are all granted. */
  lemma {:induction false} BurstIsGranted(p: Pace, b: Level, times: seq<real>)
    requires ValidPace(p) && InRange(p, b) && From(times, b.last) && |times| as real <= b.allowance
    ensures Grants(p, b, times) == times
    ensures b.allowance - |times| as real <= After(p, b, times).allowance
  {
    if times != [] {
      var before, now := times[..|times| - 1], times[|times| - 1];
      assert times == before + [now];
      BurstIsGranted(p, b, before);
      AllowanceInRange(p, b, before);
      AccruedNonNegative(p, After(p, b, before).last, now);
      hide After, Accrued, Grants;
      CheckTakesOne(p, After(p, b, before), now);
      BurstStep(p, b, times);
    }
  }

  lemma BurstStep(p: Pace, b: Level, times: seq<real>)
    requires ValidPace(p) && times != []
    ensures var before, now := times[..|times| - 1], times[|times| - 1];
      && After(p, b, times) == Check(p, After(p, b, before), now).0
      && Grants(p, b, times) == Grants(p, b, before) + if Check(p, After(p, b, before), now).1 then [now] else []
  {
    hide Check;
  }

  lemma CheckTakesOne(p: Pace, b: Level, now: real)
    requires ValidPace(p) && InRange(p, b) && 1.0 <= b.allowance && 0.0 <= Accrued(p, b.last, now)
    ensures Check(p, b, now).1 && b.allowance - 1.0 <= Check(p, b, now).0.allowance
  {
  }

  /** Left alone for a whole period, the bucket is full, whatever it held. */
  lemma IdleFills(p: Pace, b: Level, now: real)
    requires ValidPace(p) && InRange(p, b) && b.last + p.per <= now
    ensures Refill(p, b, now) == Level(p.rate, now)
  {
    ScaleUp(p.per, now - b.last, p.rate / p.per);
    WholePeriod(p.rate, p.per);
  }

  lemma WholePeriod(rate: real, per: real)
    requires 0.0 < per
    ensures per * (rate / per) == rate
  {
  }

  ghost predicate EverGrants(p: Pace)
    requires ValidPace(p)
  {
    exists b: Level, now: real :: InRange(p, b) && Check(p, b, now).1
  }

  /** A bucket that holds less than one permit never grants any; every other one can. */
  lemma GrantsIff(p: Pace)
    requires ValidPace(p)
    ensures EverGrants(p) <==> 1.0 <= p.rate
  {
    if 1.0 <= p.rate {
      assert InRange(p, Level(p.rate, 0.0)) && Check(p, Level(p.rate, 0.0), 0.0).1;
    }
  }

  // ---------- the bucket as an object ----------

  class TokenBucket {
    const pace: Pace
    var allowance: real
    var last: real

    ghost predicate Valid()
      reads this
    {
      ValidPace(pace) && InRange(pace, Snapshot())
    }

    ghost function Snapshot(): Level
      reads this
    {
      Level(allowance, last)
    }

    constructor (rate: int, per: real, now: real)
      requires 0 < rate && 0.0 < per
      ensures Valid() && pace == Pace(rate as real, per) && Snapshot() == Level(rate as real, now)
    {
      pace := Pace(rate as real, per);
      allowance := rate as real;
      last := now;
    }

    /** Refill, then take a permit if there is one. */
    method TryTake(now: real) returns (granted: bool)
      requires Valid() && last <= now
      modifies this
      ensures Valid() && (Snapshot(), granted) == Check(pace, old(Snapshot()), now)
    {
      ghost var before := Snapshot();
      allowance := Min(pace.rate, allowance + (now - last) * (pace.rate / pace.per));
      last := now;
      assert Snapshot() == Refill(pace, before, now);
      granted := allowance >= 1.0;
      if granted {
        allowance := allowance - 1.0;
      }
      CheckInRange(pace, before, now);
    }

    /** `clock(k)` is the k-th reading of the clock; a caller refused at one reading sleeps at least as long
        as computed before the next. The loop ends at the first or the second reading. */
    method Acquire(clock: nat -> real) returns (readings: nat)
      requires Valid() && 1.0 <= pace.rate && last <= clock(0)
      requires !Check(pace, Snapshot(), clock(0)).1 ==>
                 clock(1) >= clock(0) + Wait(pace, Check(pace, Snapshot(), clock(0)).0)
      modifies this
      ensures Valid() && 1 <= readings <= 2
      ensures readings == 1 <==> Check(pace, old(Snapshot()), clock(0)).1
      ensures Snapshot() == After(pace, old(Snapshot()), if readings == 1 then [clock(0)] else [clock(0), clock(1)])
    {
      ghost var start := Snapshot();
      ghost var first := Check(pace, start, clock(0)).0;
      TwoChecks(pace, start, clock(0), clock(1));
      hide Check, Wait, InRange, After;
      readings := 0;
      var granted := false;
      while !granted
        invariant Valid() && readings <= 2
        invariant readings == 0 ==> !granted && Snapshot() == start
        invariant readings == 1 ==> Snapshot() == first && granted == Check(pace, start, clock(0)).1
        invariant readings == 2 ==> granted && !Check(pace, start, clock(0)).1 && Snapshot() == Check(pace, first, clock(1)).0
        decreases 2 - readings
      {
        granted := TryTake(clock(readings));
        readings := readings + 1;
      }
    }
  }

  // A refusal, the computed sleep, and a grant.
  lemma TwoChecks(p: Pace, b: Level, t0: real, t1: real)
    requires ValidPace(p) && InRange(p, b) && b.last <= t0 && 1.0 <= p.rate
    requires !Check(p, b, t0).1 ==> t1 >= t0 + Wait(p, Check(p, b, t0).0)
    ensures Check(p, b, t0).0.last == t0
    ensures !Check(p, b, t0).1 ==> t0 <= t1 && Check(p, Check(p, b, t0).0, t1).1
    ensures After(p, b, [t0]) == Check(p, b, t0).0 && After(p, b, [t0, t1]) == Check(p, Check(p, b, t0).0, t1).0
  {
    assert [t0][..0] == [] && [t0, t1][..1] == [t0];
    CheckInRange(p, b, t0);
    if !Check(p, b, t0).1 {
      WaitPositive(p, Check(p, b, t0).0);
      SecondCheckGrants(p, Check(p, b, t0).0, t1);
    }
  }

  lemma WaitPositive(p: Pace, b: Level)
    requires ValidPace(p) && b.allowance < 1.0
    ensures 0.0 <= Wait(p, b)
  {
    NonNegative(1.0 - b.allowance, p.per / p.rate);
  }
}
