/**
 * The stream dispatcher (dq/piping/tee.py): one producer stream is handed to
 * several consumers, each running in its own greenlet, in lock step. Every
 * consumer is started first; then for every item of the stream each
 * consumer in turn is resumed with that item, which its pending `next()`
 * call returns.
 *
 * A greenlet is modelled as an object recording whether it has started and
 * the values its `next()` calls have returned; the dispatcher also yields
 * the trace of what it did (starts, producer steps and deliveries).
 */
module Tee {
  /** One step of the dispatcher. */
  datatype Event<T> =
    | Start(consumer: nat)              // `g.switch(GreenGenerator())`
    | Pull(item: T)                     // the producer yields its next item
    | Deliver(consumer: nat, item: T)   // `g.switch(item)`

  /** A consumer running in its own greenlet. */
  class Greenlet<T> {
    const consumer: nat
    var started: bool
    /** What the consumer's `GreenGenerator.__next__` calls have returned so far. */
    var received: seq<T>

    constructor (c: nat)
      ensures consumer == c && !started && received == []
    {
      consumer := c;
      started := false;
      received := [];
    }

    /** The first switch: the consumer runs up to its first `next()` and waits there. */
    method Start()
      requires !started
      modifies this
      ensures started && received == old(received)
    {
      started := true;
    }

    /**
     * A later switch with `item`: the waiting `next()` returns exactly `item`
     * to the consumer, which runs up to its next `next()` and waits again.
     */
    method Resume(item: T)
      requires started
      modifies this
      ensures started && received == old(received) + [item]
    {
      var value := item;   // what `parent.switch()` hands back to `__next__`
      received := received + [value];
    }
  }

  // ---------------------------------------------------------------------
  // The trace
  // ---------------------------------------------------------------------

  /** Starting consumers `0 .. n-1`, in order. */
  function Starts<T>(n: nat): (r: seq<Event<T>>)
    ensures |r| == n
  {
    if n == 0 then [] else Starts(n - 1) + [Start(n - 1)]
  }

  /** Handing `x` to consumers `0 .. n-1`, in order. */
  function Deliveries<T>(x: T, n: nat): (r: seq<Event<T>>)
    ensures |r| == n
  {
    if n == 0 then [] else Deliveries(x, n - 1) + [Deliver(n - 1, x)]
  }

  /** One item: the producer yields it, then every consumer gets it. */
  function Round<T>(x: T, n: nat): (r: seq<Event<T>>)
    ensures |r| == n + 1
  {
    [Pull(x)] + Deliveries(x, n)
  }

  /** The rounds of all the items of `s`, in stream order. */
  function Rounds<T>(s: seq<T>, n: nat): (r: seq<Event<T>>)
  {
    if |s| == 0 then [] else Rounds(s[..|s| - 1], n) + Round(s[|s| - 1], n)
  }

  /** Everything `dispatch_stream(s, c_0, ..., c_{n-1})` does, in order. */
  function Trace<T>(s: seq<T>, n: nat): seq<Event<T>> {
    Starts(n) + Rounds(s, n)
  }

  // ---------------------------------------------------------------------
  // The dispatcher
  // ---------------------------------------------------------------------

  /** The objects of a list of greenlets. */
  function Objects<T>(gs: seq<Greenlet<T>>): set<object> {
    set k | 0 <= k < |gs| :: gs[k]
  }

  /** `[greenlet(c) for c in consumers]`: a new, not yet started greenlet per consumer. */
  method Spawn<T>(n: nat) returns (gs: seq<Greenlet<T>>)
    ensures |gs| == n
    ensures forall a, b :: 0 <= a < b < n ==> gs[a] != gs[b]
    ensures forall k :: 0 <= k < n ==> fresh(gs[k]) && gs[k].consumer == k
    ensures forall k :: 0 <= k < n ==> !gs[k].started && gs[k].received == []
  {
    gs := [];
    for c := 0 to n
      invariant |gs| == c
      invariant forall a, b :: 0 <= a < b < c ==> gs[a] != gs[b]
      invariant forall k :: 0 <= k < c ==> fresh(gs[k]) && gs[k].consumer == k
      invariant forall k :: 0 <= k < c ==> !gs[k].started && gs[k].received == []
    {
      var g := new Greenlet(c);
      gs := gs + [g];
    }
  }

  /** `for g in greenlets: g.switch(GreenGenerator())`: every consumer started, in order. */
  method StartAll<T>(gs: seq<Greenlet<T>>) returns (steps: seq<Event<T>>)
    requires forall a, b :: 0 <= a < b < |gs| ==> gs[a] != gs[b]
    requires forall k :: 0 <= k < |gs| ==> !gs[k].started
    modifies Objects(gs)
    ensures forall k :: 0 <= k < |gs| ==> gs[k].started && gs[k].received == old(gs[k].received)
    ensures steps == Starts(|gs|)
  {
    steps := [];
    for c := 0 to |gs|
      invariant forall k :: 0 <= k < |gs| ==> gs[k].started == (k < c) && gs[k].received == old(gs[k].received)
      invariant steps == Starts(c)
    {
      gs[c].Start();
      steps := steps + [Start(c)];
    }
  }

  /** `for g in greenlets: g.switch(item)`: every consumer gets `item`, in order. */
  method DeliverToAll<T>(gs: seq<Greenlet<T>>, item: T) returns (steps: seq<Event<T>>)
    requires forall a, b :: 0 <= a < b < |gs| ==> gs[a] != gs[b]
    requires forall k :: 0 <= k < |gs| ==> gs[k].started
    modifies Objects(gs)
    ensures forall k :: 0 <= k < |gs| ==> gs[k].started && gs[k].received == old(gs[k].received) + [item]
    ensures steps == Deliveries(item, |gs|)
  {
    steps := [];
    for c := 0 to |gs|
      invariant forall k :: 0 <= k < |gs| ==> gs[k].started
      invariant forall k :: 0 <= k < |gs| ==> gs[k].received == if k < c then old(gs[k].received) + [item] else old(gs[k].received)
      invariant steps == Deliveries(item, c)
    {
      gs[c].Resume(item);
      steps := steps + [Deliver(c, item)];
    }
  }

  /**
   * `dispatch_stream(stream, *consumers)` for `n` consumers: a fresh
   * greenlet per consumer, all started in order, then every item of the
   * stream handed to every consumer in order. Every consumer ends up having
   * received the whole stream, and the steps taken are `Trace(stream, n)`.
   */
  method DispatchStream<T>(stream: seq<T>, n: nat) returns (greenlets: seq<Greenlet<T>>, trace: seq<Event<T>>)
    ensures |greenlets| == n
    ensures forall a, b :: 0 <= a < b < n ==> greenlets[a] != greenlets[b]
    ensures forall c :: 0 <= c < n ==> fresh(greenlets[c]) && greenlets[c].consumer == c
    ensures forall c :: 0 <= c < n ==> greenlets[c].started && greenlets[c].received == stream
    ensures trace == Trace(stream, n)
  {
    greenlets := Spawn(n);
    trace := StartAll(greenlets);
    for i := 0 to |stream|
      invariant forall k :: 0 <= k < n ==> fresh(greenlets[k]) && greenlets[k].consumer == k
      invariant forall k :: 0 <= k < n ==> greenlets[k].started && greenlets[k].received == stream[..i]
      invariant trace == Starts(n) + Rounds(stream[..i], n)
    {
      var item := stream[i];
      trace := trace + [Pull(item)];
      var steps := DeliverToAll(greenlets, item);
      trace := trace + steps;
      assert stream[..i + 1][..i] == stream[..i] && stream[..i + 1][i] == item;
      assert stream[..i] + [item] == stream[..i + 1];
    }
    assert stream[..|stream|] == stream;
  }

  // ---------------------------------------------------------------------
  // Properties of the trace
  // ---------------------------------------------------------------------

  /** The items consumer `c` was handed, in order. */
  function DeliveredTo<T>(t: seq<Event<T>>, c: nat): seq<T> {
    if |t| == 0 then []
    else DeliveredTo(t[..|t| - 1], c) + (if t[|t| - 1].Deliver? && t[|t| - 1].consumer == c then [t[|t| - 1].item] else [])
  }

  /** The items the producer yielded, in order. */
  function Pulled<T>(t: seq<Event<T>>): seq<T> {
    if |t| == 0 then []
    else Pulled(t[..|t| - 1]) + (if t[|t| - 1].Pull? then [t[|t| - 1].item] else [])
  }

  /** What the consumers see, in the order they see it: (consumer, item) for every delivery. */
  function Outputs<T>(t: seq<Event<T>>): seq<(nat, T)> {
    if |t| == 0 then []
    else Outputs(t[..|t| - 1]) + (if t[|t| - 1].Deliver? then [(t[|t| - 1].consumer, t[|t| - 1].item)] else [])
  }

  lemma {:induction false} ProjectionsAppend<T>(a: seq<Event<T>>, b: seq<Event<T>>, c: nat)
    ensures DeliveredTo(a + b, c) == DeliveredTo(a, c) + DeliveredTo(b, c)
    ensures Pulled(a + b) == Pulled(a) + Pulled(b)
    decreases |b|
  {
    if |b| > 0 {
      var b' := b[..|b| - 1];
      assert (a + b)[..|a + b| - 1] == a + b';
      ProjectionsAppend(a, b', c);
    } else {
      assert a + b == a;
    }
  }

  lemma {:induction false} StartsProjections<T>(n: nat, c: nat)
    ensures DeliveredTo(Starts<T>(n), c) == [] && Pulled(Starts<T>(n)) == []
  {
    if n > 0 {
      StartsProjections<T>(n - 1, c);
      assert Starts<T>(n)[..n - 1] == Starts<T>(n - 1);
    }
  }

  /** In one round, consumer `c < n` is handed the item once. */
  lemma RoundDelivered<T>(x: T, n: nat, c: nat)
    requires c < n
    ensures DeliveredTo(Round(x, n), c) == [x]
  {
    DeliveriesProjections(x, n, c);
    ProjectionsAppend([Pull(x)], Deliveries(x, n), c);
    assert [Pull(x)][..0] == [];
  }

  /** In one round, the producer yields the item once. */
  lemma RoundPulled<T>(x: T, n: nat)
    ensures Pulled(Round(x, n)) == [x]
  {
    DeliveriesProjections(x, n, 0);
    ProjectionsAppend([Pull(x)], Deliveries(x, n), 0);
    assert [Pull(x)][..0] == [];
  }

  lemma {:induction false} DeliveriesProjections<T>(x: T, n: nat, c: nat)
    ensures DeliveredTo(Deliveries(x, n), c) == (if c < n then [x] else [])
    ensures Pulled(Deliveries(x, n)) == []
  {
    if n > 0 {
      DeliveriesProjections(x, n - 1, c);
      assert Deliveries(x, n)[..n - 1] == Deliveries(x, n - 1);
    }
  }

  /** The projections of all rounds are those of the rounds before the last, then of the last. */
  lemma RoundsSplit<T>(s: seq<T>, n: nat, c: nat)
    requires |s| > 0
    ensures var init, last := s[..|s| - 1], s[|s| - 1];
            && DeliveredTo(Rounds(s, n), c) == DeliveredTo(Rounds(init, n), c) + DeliveredTo(Round(last, n), c)
            && Pulled(Rounds(s, n)) == Pulled(Rounds(init, n)) + Pulled(Round(last, n))
  {
    ProjectionsAppend(Rounds(s[..|s| - 1], n), Round(s[|s| - 1], n), c);
  }

  lemma InitThenLast<T>(s: seq<T>)
    requires |s| > 0
    ensures s[..|s| - 1] + [s[|s| - 1]] == s
  {
  }

  lemma {:induction false} RoundsDelivered<T>(s: seq<T>, n: nat, c: nat)
    requires c < n
    ensures DeliveredTo(Rounds(s, n), c) == s
    decreases |s|
  {
    if |s| > 0 {
      var init, last := s[..|s| - 1], s[|s| - 1];
      RoundsDelivered(init, n, c);
      RoundDelivered(last, n, c);
      RoundsSplit(s, n, c);
      InitThenLast(s);
    }
  }

  lemma {:induction false} RoundsPulled<T>(s: seq<T>, n: nat)
    ensures Pulled(Rounds(s, n)) == s
    decreases |s|
  {
    if |s| > 0 {
      var init, last := s[..|s| - 1], s[|s| - 1];
      RoundsPulled(init, n);
      RoundPulled(last, n);
      RoundsSplit(s, n, 0);
      InitThenLast(s);
    }
  }

  /**
   * Every consumer is handed every item of the stream exactly once, in
   * stream order; the producer is run through the whole stream once, however
   * many consumers there are, none included.
   */
  lemma EveryConsumerGetsTheStream<T>(s: seq<T>, n: nat)
    ensures forall c :: 0 <= c < n ==> DeliveredTo(Trace(s, n), c) == s
    ensures Pulled(Trace(s, n)) == s
  {
    forall c | 0 <= c < n
      ensures DeliveredTo(Trace(s, n), c) == s
    {
      StartsProjections<T>(n, c);
      RoundsDelivered(s, n, c);
      ProjectionsAppend(Starts<T>(n), Rounds(s, n), c);
    }
    StartsProjections<T>(n, 0);
    RoundsPulled(s, n);
    ProjectionsAppend(Starts<T>(n), Rounds(s, n), 0);
  }

  lemma {:induction false} StartsIndex<T>(n: nat, c: nat)
    requires c < n
    ensures Starts<T>(n)[c] == Start(c)
  {
    if c < n - 1 {
      StartsIndex<T>(n - 1, c);
    }
  }

  lemma {:induction false} DeliveriesIndex<T>(x: T, n: nat, c: nat)
    requires c < n
    ensures Deliveries(x, n)[c] == Deliver(c, x)
  {
    if c < n - 1 {
      DeliveriesIndex(x, n - 1, c);
    }
  }

  /** Where round `i` begins: `i * (n + 1)`, as a sum. */
  function Offset(i: nat, n: nat): nat {
    if i == 0 then 0 else Offset(i - 1, n) + n + 1
  }

  lemma {:induction false} OffsetIsProduct(i: nat, n: nat)
    ensures Offset(i, n) == i * (n + 1)
  {
    if i > 0 {
      OffsetIsProduct(i - 1, n);
      assert i * (n + 1) == (i - 1) * (n + 1) + n + 1;
    }
  }

  lemma {:induction false} OffsetGrows(i: nat, j: nat, n: nat)
    requires i < j
    ensures Offset(i, n) + n + 1 <= Offset(j, n)
    decreases j
  {
    if i < j - 1 {
      OffsetGrows(i, j - 1, n);
    }
  }

  lemma {:induction false} RoundsLength<T>(s: seq<T>, n: nat)
    ensures |Rounds(s, n)| == Offset(|s|, n)
    decreases |s|
  {
    if |s| > 0 {
      RoundsLength(s[..|s| - 1], n);
    }
  }

  /**
   * The rounds are item-major and consumer-minor: round `i` starts at
   * `Offset(i, n)` with the producer yielding `s[i]`, followed by the
   * deliveries of `s[i]` to consumers `0 .. n-1`.
   */
  lemma {:induction false} RoundsIndex<T>(s: seq<T>, n: nat, i: nat, c: nat)
    requires i < |s| && c <= n
    ensures Offset(i, n) + n < |Rounds(s, n)| && Rounds(s, n)[Offset(i, n)] == Pull(s[i])
    ensures c < n ==> Offset(i, n) + 1 + c < |Rounds(s, n)| && Rounds(s, n)[Offset(i, n) + 1 + c] == Deliver(c, s[i])
    decreases |s|
  {
    var init := s[..|s| - 1];
    RoundsLength(s, n);
    RoundsLength(init, n);
    if i < |s| - 1 {
      RoundsIndex(init, n, i, c);
    } else if c < n {
      DeliveriesIndex(s[i], n, c);
    }
  }

  /** No event after the first `n` starts is a start. */
  lemma {:induction false} RoundsHaveNoStarts<T>(s: seq<T>, n: nat, k: nat)
    requires k < |Rounds(s, n)|
    ensures !Rounds(s, n)[k].Start?
    decreases |s|
  {
    var init := s[..|s| - 1];
    if k < |Rounds(init, n)| {
      RoundsHaveNoStarts(init, n, k);
    } else {
      var j := k - |Rounds(init, n)|;
      if j > 0 {
        DeliveriesIndex(s[|s| - 1], n, j - 1);
      }
    }
  }

  /**
   * `dispatch_stream` starts consumer `c` as its `c`-th step, so all of
   * them in order before the producer is first asked for an item, and never
   * starts one again.
   */
  lemma StartsFirst<T>(s: seq<T>, n: nat)
    ensures |Trace(s, n)| == n + Offset(|s|, n)
    ensures forall c :: 0 <= c < n ==> Trace(s, n)[c] == Start(c)
    ensures forall k :: n <= k < |Trace(s, n)| ==> !Trace(s, n)[k].Start?
  {
    RoundsLength(s, n);
    forall c | 0 <= c < n
      ensures Trace(s, n)[c] == Start(c)
    {
      StartsIndex<T>(n, c);
    }
    forall k | n <= k < |Trace(s, n)|
      ensures !Trace(s, n)[k].Start?
    {
      RoundsHaveNoStarts(s, n, k - n);
      assert Trace(s, n)[k] == Rounds(s, n)[k - n];
    }
  }

  /**
   * At step `at` of the trace `t` the producer yields `x`, and the next `n`
   * steps hand `x` to consumers `0 .. n-1`, in that order.
   */
  ghost predicate RoundAt<T>(t: seq<Event<T>>, at: nat, x: T, n: nat) {
    && at + n < |t|
    && t[at] == Pull(x)
    && forall c :: 0 <= c < n ==> t[at + 1 + c] == Deliver(c, x)
  }

  /**
   * After the starts the trace is item-major and consumer-minor: item `i`
   * is yielded by the producer at step `n + Offset(i, n)`, that is
   * `n + i * (n + 1)`, and handed to consumers `0 .. n-1` in the steps right
   * after it, before item `i + 1` is asked for.
   */
  lemma ItemMajor<T>(s: seq<T>, n: nat)
    ensures forall i :: 0 <= i < |s| ==> RoundAt(Trace(s, n), n + Offset(i, n), s[i], n)
  {
    forall i | 0 <= i < |s|
      ensures RoundAt(Trace(s, n), n + Offset(i, n), s[i], n)
    {
      TraceRound(s, n, i);
    }
  }

  lemma TraceRound<T>(s: seq<T>, n: nat, i: nat)
    requires i < |s|
    ensures RoundAt(Trace(s, n), n + Offset(i, n), s[i], n)
  {
    RoundsRoundAt(s, n, i);
    RoundAtShift(Starts<T>(n), Rounds(s, n), Offset(i, n), s[i], n);
  }

  lemma RoundsRoundAt<T>(s: seq<T>, n: nat, i: nat)
    requires i < |s|
    ensures RoundAt(Rounds(s, n), Offset(i, n), s[i], n)
  {
    RoundsIndex(s, n, i, 0);
    forall c | 0 <= c < n
      ensures Rounds(s, n)[Offset(i, n) + 1 + c] == Deliver(c, s[i])
    {
      RoundsIndex(s, n, i, c);
    }
  }

  /** A round found in `r` is found, shifted, in `p + r`. */
  lemma RoundAtShift<T>(p: seq<Event<T>>, r: seq<Event<T>>, at: nat, x: T, n: nat)
    requires RoundAt(r, at, x, n)
    ensures RoundAt(p + r, |p| + at, x, n)
  {
    forall c | 0 <= c < n
      ensures (p + r)[|p| + at + 1 + c] == Deliver(c, x)
    {
      assert (p + r)[|p| + at + 1 + c] == r[at + 1 + c];
    }
  }

  /**
   * After the last item nothing more happens: the trace ends with the last
   * item handed to the last consumer (or, with no consumers, with the
   * producer yielding it), so no consumer is resumed to see the stream end.
   */
  lemma TraceEnd<T>(s: seq<T>, n: nat)
    requires |s| > 0
    ensures var t := Trace(s, n);
            t[|t| - 1] == if n > 0 then Deliver(n - 1, s[|s| - 1]) else Pull(s[|s| - 1])
  {
  }

  /** Consumers `0 .. n-1` each seeing `x`, in order. */
  function Seen<T>(x: T, n: nat): seq<(nat, T)> {
    if n == 0 then [] else Seen(x, n - 1) + [(n - 1, x)]
  }

  /** The consumers' view of the whole stream, item by item. */
  function AllSeen<T>(s: seq<T>, n: nat): seq<(nat, T)> {
    if |s| == 0 then [] else AllSeen(s[..|s| - 1], n) + Seen(s[|s| - 1], n)
  }

  lemma {:induction false} OutputsAppend<T>(a: seq<Event<T>>, b: seq<Event<T>>)
    ensures Outputs(a + b) == Outputs(a) + Outputs(b)
    decreases |b|
  {
    if |b| > 0 {
      var b' := b[..|b| - 1];
      assert (a + b)[..|a + b| - 1] == a + b';
      OutputsAppend(a, b');
    } else {
      assert a + b == a;
    }
  }

  lemma {:induction false} DeliveriesOutputs<T>(x: T, n: nat)
    ensures Outputs(Deliveries(x, n)) == Seen(x, n)
  {
    if n > 0 {
      DeliveriesOutputs(x, n - 1);
      assert Deliveries(x, n)[..n - 1] == Deliveries(x, n - 1);
    }
  }

  lemma {:induction false} StartsOutputs<T>(n: nat)
    ensures Outputs(Starts<T>(n)) == []
  {
    if n > 0 {
      StartsOutputs<T>(n - 1);
      assert Starts<T>(n)[..n - 1] == Starts<T>(n - 1);
    }
  }

  lemma RoundOutputs<T>(x: T, n: nat)
    ensures Outputs(Round(x, n)) == Seen(x, n)
  {
    OutputsAppend([Pull(x)], Deliveries(x, n));
    DeliveriesOutputs(x, n);
    assert [Pull(x)][..0] == [];
  }

  lemma {:induction false} RoundsOutputs<T>(s: seq<T>, n: nat)
    ensures Outputs(Rounds(s, n)) == AllSeen(s, n)
    decreases |s|
  {
    if |s| > 0 {
      var init, x := s[..|s| - 1], s[|s| - 1];
      RoundsOutputs(init, n);
      OutputsAppend(Rounds(init, n), Round(x, n));
      RoundOutputs(x, n);
    }
  }

  /** The consumers see every item, item by item, each item by consumers `0 .. n-1` in turn. */
  lemma TraceOutputs<T>(s: seq<T>, n: nat)
    ensures Outputs(Trace(s, n)) == AllSeen(s, n)
  {
    OutputsAppend(Starts<T>(n), Rounds(s, n));
    StartsOutputs<T>(n);
    RoundsOutputs(s, n);
  }

  /** Five items dispatched to three consumers: each item is seen by consumers 0, 1 and 2 before the next is. */
  lemma ThreeConsumers<T>(a: T, b: T, c: T, d: T, e: T)
    ensures AllSeen([a, b, c, d, e], 3)
         == [(0, a), (1, a), (2, a)] + [(0, b), (1, b), (2, b)] + [(0, c), (1, c), (2, c)]
          + [(0, d), (1, d), (2, d)] + [(0, e), (1, e), (2, e)]
  {
    var r1 := [(0, a), (1, a), (2, a)];
    var r2 := r1 + [(0, b), (1, b), (2, b)];
    var r3 := r2 + [(0, c), (1, c), (2, c)];
    var r4 := r3 + [(0, d), (1, d), (2, d)];
    AllSeenStep([], a, [a], []);
    AllSeenStep([a], b, [a, b], r1);
    AllSeenStep([a, b], c, [a, b, c], r2);
    AllSeenStep([a, b, c], d, [a, b, c, d], r3);
    AllSeenStep([a, b, c, d], e, [a, b, c, d, e], r4);
  }

  /** Three consumers see one more item after the ones before it. */
  lemma AllSeenStep<T>(s: seq<T>, x: T, t: seq<T>, r: seq<(nat, T)>)
    requires t == s + [x] && AllSeen(s, 3) == r
    ensures AllSeen(t, 3) == r + [(0, x), (1, x), (2, x)]
  {
    assert t[..|s|] == s;
  }

  /**
   * The dispatcher's unit scenario: items 0 .. 4 and three consumers that
   * record what they see; the record is (1, 0), (2, 0), (3, 0), (1, 1), ...
   * with consumers counted from 0 here.
   */
  lemma ThreeConsumersFiveItems()
    ensures Outputs(Trace([0, 1, 2, 3, 4], 3))
         == [(0, 0), (1, 0), (2, 0)] + [(0, 1), (1, 1), (2, 1)] + [(0, 2), (1, 2), (2, 2)]
          + [(0, 3), (1, 3), (2, 3)] + [(0, 4), (1, 4), (2, 4)]
  {
    TraceOutputs([0, 1, 2, 3, 4], 3);
    ThreeConsumers(0, 1, 2, 3, 4);
  }
}
