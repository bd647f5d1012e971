/** The rolling windows and cooldowns of the signal generators. */
module Windows {

  datatype Timed<T> = Timed(time: int, value: T)

  /** Everything at or after the cutoff, in order. */
  function Recent<T>(history: seq<Timed<T>>, cutoff: int): seq<Timed<T>> {
    if history == [] then []
    else
      var x := history[|history| - 1];
      Recent(history[..|history| - 1], cutoff) + if cutoff <= x.time then [x] else []
  }

  ghost predicate InOrder<T>(history: seq<Timed<T>>) {
    forall j, k :: 0 <= j < k < |history| ==> history[j].time <= history[k].time
  }

  function Last<T>(history: seq<Timed<T>>): Timed<T>
    requires history != []
  {
    history[|history| - 1]
  }

  lemma RecentOne<T>(history: seq<Timed<T>>, x: Timed<T>, cutoff: int)
    ensures Recent(history + [x], cutoff) == Recent(history, cutoff) + if cutoff <= x.time then [x] else []
  {
    assert (history + [x])[..|history|] == history;
  }

  lemma {:induction false} RecentAgain<T>(history: seq<Timed<T>>, earlier: int, cutoff: int)
    requires earlier <= cutoff
    ensures Recent(Recent(history, earlier), cutoff) == Recent(history, cutoff)
  {
    if history != [] {
      var n := |history| - 1;
      RecentAgain(history[..n], earlier, cutoff);
      RecentOne(Recent(history[..n], earlier), history[n], cutoff);
      var kept := Recent(history[..n], earlier);
      assert kept + [] == kept;
    }
  }

  lemma {:induction false} RecentAll<T>(history: seq<Timed<T>>, cutoff: int)
    requires forall k :: 0 <= k < |history| ==> cutoff <= history[k].time
    ensures Recent(history, cutoff) == history
  {
    if history != [] {
      RecentAll(history[..|history| - 1], cutoff);
      assert history == history[..|history| - 1] + [Last(history)];
    }
  }

  lemma {:induction false} RecentFront<T>(history: seq<Timed<T>>, cutoff: int)
    requires history != [] && history[0].time < cutoff
    ensures Recent(history, cutoff) == Recent(history[1..], cutoff)
  {
    var n := |history| - 1;
    if n == 0 {
      assert history[..0] == [] && history[1..] == [];
    } else {
      RecentFront(history[..n], cutoff);
      assert history[..n][1..] == history[1..][..n - 1] && Last(history) == Last(history[1..]);
    }
  }

  lemma {:induction false} RecentInOrder<T>(history: seq<Timed<T>>, cutoff: int)
    requires InOrder(history)
    ensures InOrder(Recent(history, cutoff))
    ensures forall x :: x in Recent(history, cutoff) ==> x in history
  {
    if history != [] {
      var n := |history| - 1;
      RecentInOrder(history[..n], cutoff);
      var r := Recent(history[..n], cutoff);
      forall k | 0 <= k < |r| ensures r[k].time <= history[n].time {
        assert r[k] in history[..n];
      }
    }
  }

  /** The window holds exactly what is not older than the cutoff, as often as it came. */
  lemma {:induction false} RecentExactly<T>(history: seq<Timed<T>>, cutoff: int, x: Timed<T>)
    ensures multiset(Recent(history, cutoff))[x] == if cutoff <= x.time then multiset(history)[x] else 0
  {
    if history != [] {
      var rest, last := history[..|history| - 1], history[|history| - 1];
      assert history == rest + [last];
      RecentExactly(rest, cutoff, x);
      RecentOne(rest, last, cutoff);
      hide Recent;
    }
  }

  /** Append to the deque, then drop from its front what is older than the cutoff. */
  method PushAndTrim<T>(window: seq<Timed<T>>, x: Timed<T>, cutoff: int) returns (trimmed: seq<Timed<T>>)
    requires InOrder(window + [x])
    ensures trimmed == Recent(window + [x], cutoff)
  {
    trimmed := window + [x];
    while trimmed != [] && trimmed[0].time < cutoff
      invariant InOrder(trimmed) && Recent(trimmed, cutoff) == Recent(window + [x], cutoff)
      decreases |trimmed|
    {
      RecentFront(trimmed, cutoff);
      trimmed := trimmed[1..];
    }
    RecentAll(trimmed, cutoff);
  }

  lemma OrderSplits<T>(history: seq<Timed<T>>, x: Timed<T>)
    requires InOrder(history + [x])
    ensures InOrder(history) && forall k :: 0 <= k < |history| ==> history[k].time <= x.time
  {
    assert forall k :: 0 <= k < |history| ==> (history + [x])[k] == history[k];
    assert (history + [x])[|history|] == x;
  }

  lemma OrderGrows<T>(history: seq<Timed<T>>, x: Timed<T>)
    requires InOrder(history) && forall y :: y in history ==> y.time <= x.time
    ensures InOrder(history + [x])
  {
  }

  /** What the deque holds after this history. */
  function WindowOf<T>(history: seq<Timed<T>>, width: int): seq<Timed<T>> {
    if history == [] then [] else Recent(history, Last(history).time - width)
  }

  lemma WindowAtPush<T>(history: seq<Timed<T>>, x: Timed<T>, width: int)
    ensures WindowOf(history + [x], width) == Recent(history + [x], x.time - width)
  {
    hide Recent;
  }

  lemma PushedWindow<T>(history: seq<Timed<T>>, x: Timed<T>, earlier: int, cutoff: int)
    requires earlier <= cutoff
    ensures Recent(Recent(history, earlier) + [x], cutoff) == Recent(history + [x], cutoff)
  {
    RecentAgain(history, earlier, cutoff);
    RecentOne(history, x, cutoff);
    RecentOne(Recent(history, earlier), x, cutoff);
  }

  lemma PushedInOrder<T>(history: seq<Timed<T>>, x: Timed<T>, cutoff: int)
    requires InOrder(history) && forall k :: 0 <= k < |history| ==> history[k].time <= x.time
    ensures InOrder(Recent(history, cutoff) + [x])
  {
    RecentInOrder(history, cutoff);
    hide Recent;
    forall y | y in Recent(history, cutoff) ensures y.time <= x.time { assert y in history; }
    OrderGrows(Recent(history, cutoff), x);
  }

  lemma FirstWindow<T>(x: Timed<T>, width: int)
    ensures WindowOf<T>([], width) == []
    ensures Recent([] + [x], x.time - width) == WindowOf([] + [x], width) && InOrder([] + [x])
  {
  }

  lemma NextWindow<T>(history: seq<Timed<T>>, x: Timed<T>, width: int)
    requires InOrder(history + [x]) && history != []
    ensures Recent(WindowOf(history, width) + [x], x.time - width) == WindowOf(history + [x], width)
    ensures InOrder(WindowOf(history, width) + [x])
  {
    hide Recent, InOrder;
    var earlier, cutoff := Last(history).time - width, x.time - width;
    assert WindowOf(history, width) == Recent(history, earlier);
    assert Last(history + [x]) == x && WindowOf(history + [x], width) == Recent(history + [x], cutoff);
    hide WindowOf;
    OrderSplits(history, x);
    assert earlier <= cutoff;
    PushedWindow(history, x, earlier, cutoff);
    PushedInOrder(history, x, earlier);
  }

  /** A window over the history so far, pushed and trimmed, is the window over the longer history. */
  lemma WindowFollows<T>(history: seq<Timed<T>>, x: Timed<T>, width: int)
    requires InOrder(history + [x])
    ensures Recent(WindowOf(history, width) + [x], x.time - width) == WindowOf(history + [x], width)
    ensures InOrder(WindowOf(history, width) + [x])
  {
    hide Recent, InOrder, WindowOf;
    if history == [] {
      FirstWindow(x, width);
    } else {
      NextWindow(history, x, width);
    }
  }

  // ---------- cooldowns ----------

  /** What was emitted, per key, in order. */
  datatype Emission<K> = Emission(key: K, time: int)

  function LastOf<K(==)>(emitted: seq<Emission<K>>, key: K): (t: seq<int>)
    ensures |t| <= 1
  {
    if emitted == [] then []
    else if emitted[|emitted| - 1].key == key then [emitted[|emitted| - 1].time]
    else LastOf(emitted[..|emitted| - 1], key)
  }

  /** `_cooldown_ok` from the emissions themselves. */
  predicate Cooled<K(==)>(emitted: seq<Emission<K>>, key: K, now: int, cooldown: int) {
    var last := LastOf(emitted, key);
    last == [] || now - last[0] >= cooldown
  }

  /** The generator's map from key to last emission. */
  ghost predicate Remembers<K(!new)>(cooldowns: map<K, int>, emitted: seq<Emission<K>>) {
    forall key :: LastOf(emitted, key) == if key in cooldowns then [cooldowns[key]] else []
  }

  lemma RememberOne<K(!new)>(cooldowns: map<K, int>, emitted: seq<Emission<K>>, e: Emission<K>)
    requires Remembers(cooldowns, emitted)
    ensures Remembers(cooldowns[e.key := e.time], emitted + [e])
  {
    assert (emitted + [e])[..|emitted|] == emitted;
  }

  /** Consecutive emissions of one key are at least a cooldown apart. */
  ghost predicate Spaced<K(!new)>(emitted: seq<Emission<K>>, cooldown: int) {
    forall j, k :: 0 <= j < k < |emitted| && emitted[j].key == emitted[k].key ==>
      emitted[k].time - emitted[j].time >= cooldown
  }

  lemma {:induction false} LastIsLatest<K(!new)>(emitted: seq<Emission<K>>, key: K, j: int, cooldown: int)
    requires Spaced(emitted, cooldown) && 0 <= cooldown && 0 <= j < |emitted| && emitted[j].key == key
    ensures LastOf(emitted, key) != [] && emitted[j].time <= LastOf(emitted, key)[0]
  {
    var n := |emitted| - 1;
    if emitted[n].key != key {
      LastIsLatest(emitted[..n], key, j, cooldown);
    }
  }

  lemma {:induction false} LastOfIsOne<K(!new)>(emitted: seq<Emission<K>>, key: K)
    ensures LastOf(emitted, key) != [] ==> Emission(key, LastOf(emitted, key)[0]) in emitted
    ensures LastOf(emitted, key) == [] ==> forall e :: e in emitted ==> e.key != key
  {
    if emitted != [] {
      var rest, last := emitted[..|emitted| - 1], emitted[|emitted| - 1];
      assert emitted == rest + [last];
      LastOfIsOne(rest, key);
      if last.key == key { assert last == Emission(key, last.time); }
    }
  }

  /** Every emission of the key is at least this old. */
  ghost predicate AllAged<K(!new)>(emitted: seq<Emission<K>>, key: K, now: int, age: int) {
    forall e :: e in emitted && e.key == key ==> now - e.time >= age
  }

  /** The cooldown lets an emission through exactly when every earlier one of its key is at least that old. */
  lemma CooledIff<K(!new)>(emitted: seq<Emission<K>>, key: K, now: int, cooldown: int)
    requires Spaced(emitted, cooldown) && 0 <= cooldown
    ensures Cooled(emitted, key, now, cooldown) <==> AllAged(emitted, key, now, cooldown)
  {
    LastOfIsOne(emitted, key);
    if Cooled(emitted, key, now, cooldown) {
      forall e | e in emitted && e.key == key
        ensures now - e.time >= cooldown
      {
        var j :| 0 <= j < |emitted| && emitted[j] == e;
        LastIsLatest(emitted, key, j, cooldown);
      }
    }
  }

  lemma EmitKeepsSpaced<K(!new)>(emitted: seq<Emission<K>>, e: Emission<K>, cooldown: int)
    requires Spaced(emitted, cooldown) && 0 <= cooldown && Cooled(emitted, e.key, e.time, cooldown)
    ensures Spaced(emitted + [e], cooldown)
  {
    forall j | 0 <= j < |emitted| && emitted[j].key == e.key
      ensures e.time - emitted[j].time >= cooldown
    {
      LastIsLatest(emitted, e.key, j, cooldown);
    }
  }
}
