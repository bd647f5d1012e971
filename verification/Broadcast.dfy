/** gateway/broadcaster.py: one client's bounded outbound queue and the writer that drains it. */
module Broadcast {
  import opened Events

  /** `unfinished` is the queue's own count of tasks not marked done; `running` tells whether the writer still runs. */
  datatype Channel = Channel(
    maxsize: int, queue: seq<string>, inFlight: Option<string>, delivered: seq<string>, failed: nat,
    dropped: nat, unfinished: int, running: bool)

  datatype Step = Enqueue(message: string) | Take | Sent | SendFailed | Cancel

  function Fresh(maxsize: int): Channel {
    Channel(maxsize, [], None, [], 0, 0, 0, true)
  }

  /** A size of zero or less means unbounded. */
  predicate Full(c: Channel) {
    0 < c.maxsize <= |c.queue|
  }

  predicate Enabled(c: Channel, s: Step) {
    match s
    case Enqueue(_) => true
    case Take => c.running && c.inFlight.None? && c.queue != []
    case Sent => c.running && c.inFlight.Some?
    case SendFailed => c.running && c.inFlight.Some?
    case Cancel => c.running
  }

  function Next(c: Channel, s: Step): Channel
    requires Enabled(c, s)
  {
    match s
    case Enqueue(m) =>
      if Full(c) then c.(queue := c.queue[1..] + [m], dropped := c.dropped + 1)
      else c.(queue := c.queue + [m], unfinished := c.unfinished + 1)
    case Take => c.(queue := c.queue[1..], inFlight := Some(c.queue[0]))
    case Sent => c.(inFlight := None, delivered := c.delivered + [c.inFlight.value], unfinished := c.unfinished - 1)
    case SendFailed => c.(inFlight := None, failed := c.failed + 1, unfinished := c.unfinished - 1, running := false)
    case Cancel => c.(running := false)
  }

  function Run(maxsize: int, steps: seq<Step>): Option<Channel> {
    if steps == [] then Some(Fresh(maxsize))
    else
      match Run(maxsize, steps[..|steps| - 1])
      case None => None
      case Some(c) => if Enabled(c, steps[|steps| - 1]) then Some(Next(c, steps[|steps| - 1])) else None
  }

  function Enqueued(steps: seq<Step>): seq<string> {
    if steps == [] then []
    else
      var s := steps[|steps| - 1];
      Enqueued(steps[..|steps| - 1]) + if s.Enqueue? then [s.message] else []
  }

  // ---------- the fate of every message ----------

  datatype Fate = Delivered | InFlight | Failed | Dropped

  /** The messages with this fate, in the order they were enqueued. */
  function Picked(messages: seq<string>, fates: seq<Fate>, fate: Fate): seq<string>
    requires |fates| <= |messages|
  {
    if fates == [] then []
    else
      var n := |fates| - 1;
      Picked(messages, fates[..n], fate) + if fates[n] == fate then [messages[n]] else []
  }

  function Tally(fates: seq<Fate>, fate: Fate): nat {
    if fates == [] then 0
    else Tally(fates[..|fates| - 1], fate) + if fates[|fates| - 1] == fate then 1 else 0
  }

  /** Nothing was delivered, failed or taken after the message in flight. */
  ghost predicate OnlyDropsAfter(fates: seq<Fate>, p: int) {
    forall k :: 0 <= k < |fates| && p < k ==> fates[k] == Dropped
  }

  /** The message in flight is the last one taken. */
  ghost predicate Flying(messages: seq<string>, fates: seq<Fate>, m: string)
    requires |fates| <= |messages|
  {
    exists p :: 0 <= p < |fates| && fates[p] == InFlight && messages[p] == m && OnlyDropsAfter(fates, p)
  }

  /** Each message that left the queue has one fate, and the channel's fields are what those fates add up to. */
  ghost predicate Explains(c: Channel, messages: seq<string>, fates: seq<Fate>) {
    && |fates| <= |messages| && c.queue == messages[|fates|..]
    && c.delivered == Picked(messages, fates, Delivered)
    && c.dropped == Tally(fates, Dropped) && c.failed == Tally(fates, Failed)
    && Tally(fates, InFlight) == (if c.inFlight.Some? then 1 else 0)
    && (c.inFlight.Some? ==> Flying(messages, fates, c.inFlight.value))
    && c.unfinished == |c.queue| + (if c.inFlight.Some? then 1 else 0)
    && (0 < c.maxsize ==> |c.queue| <= c.maxsize) && (c.maxsize <= 0 ==> c.dropped == 0)
    && c.failed <= (if c.running then 0 else 1)
  }

  lemma PickedOne(messages: seq<string>, fates: seq<Fate>, f: Fate, fate: Fate)
    requires |fates| < |messages|
    ensures Picked(messages, fates + [f], fate) == Picked(messages, fates, fate) + if f == fate then [messages[|fates|]] else []
    ensures Tally(fates + [f], fate) == Tally(fates, fate) + if f == fate then 1 else 0
  {
    assert (fates + [f])[..|fates|] == fates;
  }

  lemma {:induction false} PickedMore(messages: seq<string>, m: string, fates: seq<Fate>, fate: Fate)
    requires |fates| <= |messages|
    ensures Picked(messages + [m], fates, fate) == Picked(messages, fates, fate)
  {
    if fates != [] { PickedMore(messages, m, fates[..|fates| - 1], fate); }
  }

  // The message in flight is settled; everything after it was dropped.
  lemma {:induction false} SettleInFlight(messages: seq<string>, fates: seq<Fate>, p: nat, f: Fate, fate: Fate)
    requires |fates| <= |messages| && p < |fates| && fates[p] == InFlight && OnlyDropsAfter(fates, p)
    requires f == Delivered || f == Failed
    ensures fate != Delivered || Picked(messages, fates[p := f], fate)
                                 == Picked(messages, fates, fate) + if f == Delivered then [messages[p]] else []
    ensures Tally(fates[p := f], fate)
            == Tally(fates, fate) + (if f == fate then 1 else 0) - (if fate == InFlight then 1 else 0)
  {
    var n := |fates| - 1;
    if p == n {
      assert fates[p := f][..n] == fates[..n];
    } else {
      assert fates[..n][p := f] == fates[p := f][..n];
      SettleInFlight(messages, fates[..n], p, f, fate);
      assert fates[n] == Dropped;
      var picked := Picked(messages, fates[..n], fate);
      assert picked + [] == picked;
    }
  }

  lemma EnqueueExplained(c: Channel, m: string, messages: seq<string>, fates: seq<Fate>) returns (after: seq<Fate>)
    requires Explains(c, messages, fates)
    ensures Explains(Next(c, Enqueue(m)), messages + [m], after)
  {
    if Full(c) {
      after := fates + [Dropped];
      forall fate
        ensures Picked(messages + [m], after, fate)
                == Picked(messages, fates, fate) + if fate == Dropped then [messages[|fates|]] else []
        ensures Tally(after, fate) == Tally(fates, fate) + if fate == Dropped then 1 else 0
      {
        PickedOne(messages + [m], fates, Dropped, fate);
        PickedMore(messages, m, fates, fate);
      }
      assert Picked(messages, fates, Delivered) + [] == Picked(messages, fates, Delivered);
      assert (messages + [m])[|after|..] == messages[|fates|..][1..] + [m];
      FlightKept(c, messages, m, fates, after);
    } else {
      after := fates;
      PickedMore(messages, m, fates, Delivered);
      assert (messages + [m])[|fates|..] == messages[|fates|..] + [m];
      FlightKept(c, messages, m, fates, after);
    }
  }

  lemma FlightKept(c: Channel, messages: seq<string>, m: string, fates: seq<Fate>, after: seq<Fate>)
    requires Explains(c, messages, fates) && (after == fates || after == fates + [Dropped])
    requires |after| <= |messages| + 1
    ensures c.inFlight.Some? ==> Flying(messages + [m], after, c.inFlight.value)
  {
    if c.inFlight.Some? {
      var p :| 0 <= p < |fates| && fates[p] == InFlight && messages[p] == c.inFlight.value && OnlyDropsAfter(fates, p);
      assert after[p] == InFlight && (messages + [m])[p] == c.inFlight.value && OnlyDropsAfter(after, p);
    }
  }

  lemma TakeExplained(c: Channel, messages: seq<string>, fates: seq<Fate>) returns (after: seq<Fate>)
    requires Explains(c, messages, fates) && Enabled(c, Take)
    ensures Explains(Next(c, Take), messages, after)
  {
    after := fates + [InFlight];
    forall fate
      ensures Picked(messages, after, fate)
              == Picked(messages, fates, fate) + if fate == InFlight then [messages[|fates|]] else []
      ensures Tally(after, fate) == Tally(fates, fate) + if fate == InFlight then 1 else 0
    {
      PickedOne(messages, fates, InFlight, fate);
    }
    assert Picked(messages, fates, Delivered) + [] == Picked(messages, fates, Delivered);
    assert messages[|after|..] == messages[|fates|..][1..];
    assert after[|fates|] == InFlight && OnlyDropsAfter(after, |fates|);
  }

  lemma SettleExplained(c: Channel, ok: bool, messages: seq<string>, fates: seq<Fate>) returns (after: seq<Fate>)
    requires Explains(c, messages, fates) && Enabled(c, if ok then Sent else SendFailed)
    ensures Explains(Next(c, if ok then Sent else SendFailed), messages, after)
  {
    var p :| 0 <= p < |fates| && fates[p] == InFlight && messages[p] == c.inFlight.value && OnlyDropsAfter(fates, p);
    var f := if ok then Delivered else Failed;
    after := fates[p := f];
    SettleInFlight(messages, fates, p, f, Delivered);
    SettleInFlight(messages, fates, p, f, Dropped);
    SettleInFlight(messages, fates, p, f, Failed);
    SettleInFlight(messages, fates, p, f, InFlight);
    assert Picked(messages, fates, Delivered) + [] == Picked(messages, fates, Delivered);
  }

  /** Over any interleaving of enqueues and writer steps every message has exactly one fate. */
  lemma {:induction false} EveryMessageHasAFate(maxsize: int, steps: seq<Step>) returns (fates: seq<Fate>)
    requires Run(maxsize, steps).Some?
    ensures Explains(Run(maxsize, steps).value, Enqueued(steps), fates)
  {
    if steps == [] {
      fates := [];
    } else {
      var before, s := steps[..|steps| - 1], steps[|steps| - 1];
      var earlier := EveryMessageHasAFate(maxsize, before);
      var c, messages := Run(maxsize, before).value, Enqueued(before);
      match s {
        case Enqueue(m) => fates := EnqueueExplained(c, m, messages, earlier);
        case Take => fates := TakeExplained(c, messages, earlier);
        case Sent => fates := SettleExplained(c, true, messages, earlier);
        case SendFailed => fates := SettleExplained(c, false, messages, earlier);
        case Cancel => fates := earlier;
      }
      assert messages + [] == messages;
    }
  }

  // ---------- what a reader of the channel sees ----------

  ghost predicate Subsequence(a: seq<string>, b: seq<string>)
    decreases |b|
  {
    a == [] || (b != [] && (Subsequence(a, b[..|b| - 1])
                            || (a[|a| - 1] == b[|b| - 1] && Subsequence(a[..|a| - 1], b[..|b| - 1]))))
  }

  lemma {:induction false} PickedSubsequence(messages: seq<string>, fates: seq<Fate>, fate: Fate)
    requires |fates| <= |messages|
    ensures Subsequence(Picked(messages, fates, fate), messages)
    decreases |messages|
  {
    if fates != [] {
      var n := |messages| - 1;
      if |fates| <= n {
        PickedPrefix(messages, fates, fate);
        PickedSubsequence(messages[..n], fates, fate);
      } else {
        PickedPrefix(messages, fates[..n], fate);
        PickedSubsequence(messages[..n], fates[..n], fate);
        var rest := Picked(messages, fates[..n], fate);
        assert rest + [] == rest && (rest + [messages[n]])[..|rest|] == rest;
      }
    }
  }

  lemma {:induction false} PickedPrefix(messages: seq<string>, fates: seq<Fate>, fate: Fate)
    requires |fates| < |messages|
    ensures Picked(messages, fates, fate) == Picked(messages[..|messages| - 1], fates, fate)
  {
    if fates != [] { PickedPrefix(messages, fates[..|fates| - 1], fate); }
  }

  lemma {:induction false} TallyAll(messages: seq<string>, fates: seq<Fate>)
    requires |fates| <= |messages|
    ensures |fates| == Tally(fates, Delivered) + Tally(fates, InFlight) + Tally(fates, Failed) + Tally(fates, Dropped)
    ensures |Picked(messages, fates, Delivered)| == Tally(fates, Delivered)
  {
    if fates != [] { TallyAll(messages, fates[..|fates| - 1]); }
  }

  /** The queue is bounded and a suffix of what was enqueued, delivery is in order, nothing is counted twice or lost,
      and the unfinished-task count matches the work left. */
  lemma ChannelKeepsItsPromises(maxsize: int, steps: seq<Step>)
    requires Run(maxsize, steps).Some?
    ensures var c, messages := Run(maxsize, steps).value, Enqueued(steps);
      && (1 <= maxsize ==> |c.queue| <= maxsize) && (maxsize <= 0 ==> c.dropped == 0)
      && |c.queue| <= |messages| && c.queue == messages[|messages| - |c.queue|..]
      && Subsequence(c.delivered, messages)
      && |messages| == |c.delivered| + (if c.inFlight.Some? then 1 else 0) + c.failed + |c.queue| + c.dropped
      && c.unfinished == |c.queue| + (if c.inFlight.Some? then 1 else 0)
      && c.failed <= 1 && (c.failed == 1 ==> !c.running)
  {
    hide Run, Enqueued;
    var fates := EveryMessageHasAFate(maxsize, steps);
    MaxsizeKept(maxsize, steps);
    ExplainedKeeps(Run(maxsize, steps).value, Enqueued(steps), fates);
  }

  lemma ExplainedKeeps(c: Channel, messages: seq<string>, fates: seq<Fate>)
    requires Explains(c, messages, fates)
    ensures |c.queue| <= |messages| && c.queue == messages[|messages| - |c.queue|..]
    ensures Subsequence(c.delivered, messages)
    ensures |messages| == |c.delivered| + (if c.inFlight.Some? then 1 else 0) + c.failed + |c.queue| + c.dropped
    ensures c.unfinished == |c.queue| + (if c.inFlight.Some? then 1 else 0)
    ensures (1 <= c.maxsize ==> |c.queue| <= c.maxsize) && (c.maxsize <= 0 ==> c.dropped == 0)
    ensures c.failed <= 1 && (c.failed == 1 ==> !c.running)
  {
    hide Picked, Tally, Subsequence, Flying;
    PickedSubsequence(messages, fates, Delivered);
    TallyAll(messages, fates);
  }

  lemma {:induction false} MaxsizeKept(maxsize: int, steps: seq<Step>)
    requires Run(maxsize, steps).Some?
    ensures Run(maxsize, steps).value.maxsize == maxsize
  {
    if steps != [] { MaxsizeKept(maxsize, steps[..|steps| - 1]); }
  }

  // ---------- what is not lost ----------

  /** An enqueue drops the oldest message if and only if as many as the queue holds are waiting; the new message always
      goes last and every other one keeps its place. */
  lemma EnqueueDropsIff(c: Channel, m: string)
    ensures var d := Next(c, Enqueue(m));
      && (d.dropped == c.dropped + 1 <==> 1 <= c.maxsize && c.maxsize <= |c.queue|)
      && (d.dropped == c.dropped <==> !(1 <= c.maxsize && c.maxsize <= |c.queue|))
      && d.queue == (if d.dropped == c.dropped then c.queue else c.queue[1..]) + [m]
  {
  }

  /** While no more messages have come than the queue holds, or if it is unbounded, none is dropped. */
  lemma {:induction false} NothingDroppedEarly(maxsize: int, steps: seq<Step>)
    requires Run(maxsize, steps).Some? && (maxsize <= 0 || |Enqueued(steps)| <= maxsize)
    ensures Run(maxsize, steps).value.dropped == 0
  {
    if steps != [] {
      var before, s := steps[..|steps| - 1], steps[|steps| - 1];
      NothingDroppedEarly(maxsize, before);
      ChannelKeepsItsPromises(maxsize, before);
      MaxsizeKept(maxsize, before);
    }
  }

  /** A writer that is left alone takes and sends this many messages. */
  function Drain(c: Channel, n: nat): Channel
    requires c.running && c.inFlight.None? && n <= |c.queue|
    ensures Drain(c, n).running && Drain(c, n).inFlight.None?
    ensures Drain(c, n).queue == c.queue[n..]
  {
    if n == 0 then c
    else
      var d := Drain(c, n - 1);
      assert d.queue != [] && Enabled(d, Take) && Enabled(Next(d, Take), Sent);
      Next(Next(d, Take), Sent)
  }

  /** It delivers exactly what was waiting, in order, and leaves nothing unfinished. */
  lemma {:induction false} DrainDelivers(c: Channel, n: nat)
    requires c.running && c.inFlight.None? && n <= |c.queue|
    ensures Drain(c, n).delivered == c.delivered + c.queue[..n]
    ensures Drain(c, n).unfinished == c.unfinished - n && Drain(c, n).dropped == c.dropped && Drain(c, n).failed == c.failed
  {
    if n > 0 {
      DrainDelivers(c, n - 1);
      assert c.queue[..n] == c.queue[..n - 1] + [c.queue[n - 1]];
      assert Drain(c, n - 1).queue[0] == c.queue[n - 1];
    } else {
      assert c.queue[..0] == [];
    }
  }

  // ---------- the channel as an object ----------

  class ClientChannel {
    const maxsize: int
    var queue: seq<string>
    var unfinished: int
    var dropped: nat
    var inFlight: Option<string>
    var delivered: seq<string>
    var failed: nat
    var running: bool

    ghost function Snapshot(): Channel
      reads this
    {
      Channel(maxsize, queue, inFlight, delivered, failed, dropped, unfinished, running)
    }

    /** The bound that `enqueue` relies on when it makes room for one message. */
    ghost predicate Valid()
      reads this
    {
      0 < maxsize ==> |queue| <= maxsize
    }

    constructor (maxsize: int)
      ensures Valid() && Snapshot() == Fresh(maxsize)
    {
      this.maxsize := maxsize;
      queue, unfinished, dropped, inFlight, delivered, failed, running := [], 0, 0, None, [], 0, true;
    }

    /** `put_nowait`; false stands for QueueFull. */
    method PutNowait(m: string) returns (ok: bool)
      modifies this`queue, this`unfinished
      ensures ok <==> !(0 < maxsize <= |old(queue)|)
      ensures queue == old(queue) + (if ok then [m] else []) && unfinished == old(unfinished) + if ok then 1 else 0
    {
      ok := !(0 < maxsize <= |queue|);
      if ok {
        queue := queue + [m];
        unfinished := unfinished + 1;
      }
    }

    /** Never blocks: on overflow the oldest queued message makes room. */
    method Enqueue(m: string)
      requires Valid()
      modifies this
      ensures Valid() && Snapshot() == Next(old(Snapshot()), Step.Enqueue(m))
    {
      var ok := PutNowait(m);
      if !ok {
        queue := queue[1..];
        unfinished := unfinished - 1;
        dropped := dropped + 1;
        ok := PutNowait(m);
      }
    }

    /** The writer takes the next message. */
    method Take()
      requires Valid() && Enabled(Snapshot(), Step.Take)
      modifies this
      ensures Valid() && Snapshot() == Next(old(Snapshot()), Step.Take)
    {
      inFlight := Some(queue[0]);
      queue := queue[1..];
    }

    /** The send returned, or raised; after a failure the writer exits. */
    method Finish(ok: bool)
      requires Valid() && Enabled(Snapshot(), Sent)
      modifies this
      ensures Valid() && Snapshot() == Next(old(Snapshot()), if ok then Sent else SendFailed)
    {
      if ok {
        delivered := delivered + [inFlight.value];
      } else {
        failed := failed + 1;
        running := false;
      }
      inFlight := None;
      unfinished := unfinished - 1;
    }

    method Cancel()
      modifies this
      ensures running == false && Snapshot() == old(Snapshot()).(running := false)
    {
      running := false;
    }
  }
}
