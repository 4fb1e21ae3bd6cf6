/**
 * What a built topic stream does to a finite sequence of messages pushed
 * into the topic's subject, for the stages whose effect does not depend on
 * timers: map, the order-keeping random delay (concatMap serialises the
 * delayed re-emissions), bufferCount, randomDrop and share. The random draws
 * of randomDrop come from an oracle `draw(k, i)`: the value Math.random()
 * returns for the i-th message reaching stage k. The interleaving that merge
 * produces between the two halves of a range-gated stream comes from a
 * schedule oracle. A time-driven buffer has no finite-sequence meaning here
 * (None).
 *
 * The output after feeding `xs` is what the stream has emitted once every
 * pending delay has fired, with the subject still open: a bufferCount stage
 * holds back its incomplete last batch.
 */
module StreamSemantics {
  import opened Wrappers
  import opened ChaosConfigParser

  /** The calls a subscriber's handler receives for one emitted item: one per
      element, in order, for a batch; one for anything else. */
  function Unbatch(item: Value): (calls: seq<Value>)
    ensures calls == [] <==> item.Batch? && item.items == []
    ensures !item.Batch? ==> calls == [item]
  {
    if item.Batch? then item.items else [item]
  }

  /** The calls a subscriber's handler receives for a sequence of emitted items. */
  function Delivered(items: seq<Value>): (calls: seq<Value>)
    ensures forall v | v in calls :: exists i | 0 <= i < |items| :: v in Unbatch(items[i])
    decreases |items|
  {
    if items == [] then [] else Unbatch(items[0]) + Delivered(items[1..])
  }

  /** Delivery of two consecutive runs of items is the delivery of each, in order. */
  lemma {:induction false} DeliveredAppend(a: seq<Value>, b: seq<Value>)
    ensures Delivered(a + b) == Delivered(a) + Delivered(b)
    decreases |a|
  {
    if a == [] {
      assert a + b == b;
    } else {
      assert (a + b)[1..] == a[1..] + b;
      DeliveredAppend(a[1..], b);
    }
  }

  /** Delivering a stream of plain packets calls the handler once per packet, in order. */
  lemma {:induction false} DeliveredPackets(xs: seq<Value>)
    requires forall i | 0 <= i < |xs| :: xs[i].Packet?
    ensures Delivered(xs) == xs
    decreases |xs|
  {
    if xs != [] {
      DeliveredPackets(xs[1..]);
    }
  }

  // ---------------------------------------------------------------------------
  // The stages
  // ---------------------------------------------------------------------------

  /** What map(f) emits for xs, xs[0] being the message with index `from`:
      each message transformed with its own index, in place. */
  function MapAll(f: Mapper, xs: seq<Value>, from: nat): (ys: seq<Value>)
    ensures |ys| == |xs|
    ensures forall i | 0 <= i < |xs| :: ys[i] == f(xs[i], from + i)
    decreases |xs|
  {
    if xs == [] then [] else [f(xs[0], from)] + MapAll(f, xs[1..], from + 1)
  }

  /** The complete batches bufferCount(n) has emitted: consecutive groups of n
      messages, the last incomplete group still held back. */
  function Chunks(xs: seq<Value>, n: int): (c: seq<Value>)
    requires n > 0
    ensures forall i | 0 <= i < |c| :: c[i].Batch? && |c[i].items| == n
    ensures |c| <= |xs|
    decreases |xs|
  {
    if |xs| < n then [] else [Batch(xs[..n])] + Chunks(xs[n..], n)
  }

  /** Flattening the batches of Chunks gives back xs in order up to the
      held-back group, which has fewer than n messages. */
  lemma {:induction false} ChunksFlatten(xs: seq<Value>, n: int)
    requires n > 0
    ensures var d := Delivered(Chunks(xs, n)); d <= xs && |xs| - |d| < n
    decreases |xs|
  {
    var c := Chunks(xs, n);
    if |xs| >= n {
      var tail := xs[n..];
      var rest := Chunks(tail, n);
      ChunksFlatten(tail, n);
      var d := Delivered(rest);
      assert c[1..] == rest;
      assert Delivered(c) == xs[..n] + d;
      assert xs == xs[..n] + tail;
    }
  }

  /** The messages filter(_ => Math.random() > chance) lets through, the draw
      for the message at stream position `pos` being draw(k, pos). */
  function Keep(xs: seq<Value>, chance: real, draw: (nat, nat) -> real, k: nat, pos: nat): (kept: seq<Value>)
    ensures |kept| <= |xs|
    decreases |xs|
  {
    if xs == [] then []
    else (if draw(k, pos) > chance then [xs[0]] else []) + Keep(xs[1..], chance, draw, k, pos + 1)
  }

  /** Draws from Math.random() lie in [0, 1). */
  ghost predicate UnitDraws(draw: (nat, nat) -> real)
  {
    forall k: nat, i: nat :: 0.0 <= draw(k, i) < 1.0
  }

  /** With chance 1 (or more) no draw exceeds the chance: every message is dropped. */
  lemma {:induction false} KeepNoneAtChanceOne(xs: seq<Value>, chance: real, draw: (nat, nat) -> real, k: nat, pos: nat)
    requires UnitDraws(draw) && chance >= 1.0
    ensures Keep(xs, chance, draw, k, pos) == []
    decreases |xs|
  {
    if xs != [] {
      assert 0.0 <= draw(k, pos) < 1.0;
      KeepNoneAtChanceOne(xs[1..], chance, draw, k, pos + 1);
    }
  }

  /** The messages a drop stage keeps are a subsequence of its input. */
  lemma {:induction false} KeepIsSubsequence(xs: seq<Value>, chance: real, draw: (nat, nat) -> real, k: nat, pos: nat)
    ensures Subsequence(Keep(xs, chance, draw, k, pos), xs)
    decreases |xs|
  {
    if xs != [] {
      var rest := Keep(xs[1..], chance, draw, k, pos + 1);
      KeepIsSubsequence(xs[1..], chance, draw, k, pos + 1);
      var s := Keep(xs, chance, draw, k, pos);
      if draw(k, pos) > chance {
        assert s == [xs[0]] + rest;
        assert s[0] == xs[0] && s[1..] == rest;
      } else {
        assert s == rest;
      }
    }
  }

  /** A stage whose effect on a finite sequence of messages does not depend
      on timers: every stage but the time-driven buffers and a bufferCount
      whose size is not positive. */
  predicate Untimed(st: Stage)
  {
    !st.BufferTime? && !st.BufferTimeCount? && (st.BufferCount? ==> st.size > 0)
  }

  /** The output of stage number k on input xs. No stage emits more items
      than it receives; map, delay and share emit exactly as many. */
  function RunStage(st: Stage, xs: seq<Value>, draw: (nat, nat) -> real, k: nat): (out: Option<seq<Value>>)
    ensures out.Some? <==> Untimed(st)
    ensures out.Some? ==> |out.value| <= |xs|
    ensures st.Map? || st.Delay? || st.Share? ==> out.Some? && |out.value| == |xs|
  {
    match st
    case Map(f) => Some(MapAll(f, xs, 0))
    case Delay(_, _) => Some(xs)
    case BufferTime(_) => None
    case BufferTimeCount(_, _) => None
    case BufferCount(n) => if n > 0 then Some(Chunks(xs, n)) else None
    case Drop(chance) => Some(Keep(xs, chance, draw, k, 0))
    case Share => Some(xs)
  }

  /** The output of a chain of stages, the first of them numbered k. It has a
      finite-sequence meaning exactly when every stage has one, and never
      holds more items than the input. */
  function Run(stages: seq<Stage>, xs: seq<Value>, draw: (nat, nat) -> real, k: nat): (out: Option<seq<Value>>)
    ensures out.Some? <==> forall i | 0 <= i < |stages| :: Untimed(stages[i])
    ensures out.Some? ==> |out.value| <= |xs|
    decreases |stages|
  {
    if stages == [] then Some(xs)
    else
      match RunStage(stages[0], xs, draw, k)
      case None => None
      case Some(ys) => Run(stages[1..], ys, draw, k + 1)
  }

  // ---------------------------------------------------------------------------
  // Range gating: partition by message index, then merge
  // ---------------------------------------------------------------------------

  /** The messages of xs, xs[0] having index `base`, whose InRange verdict is `inRange`. */
  function Part(xs: seq<Value>, startAfter: Option<int>, stopAfter: Option<int>, inRange: bool, base: int): (part: seq<Value>)
    ensures forall v | v in part :: v in xs
    decreases |xs|
  {
    if xs == [] then []
    else (if InRange(startAfter, stopAfter, base) == inRange then [xs[0]] else [])
         + Part(xs[1..], startAfter, stopAfter, inRange, base + 1)
  }

  /** The two halves of the partition together hold every message exactly once. */
  lemma {:induction false} PartitionComplete(xs: seq<Value>, startAfter: Option<int>, stopAfter: Option<int>, base: int)
    ensures var inside := Part(xs, startAfter, stopAfter, true, base);
            var outside := Part(xs, startAfter, stopAfter, false, base);
            |inside| + |outside| == |xs| &&
            multiset(inside) + multiset(outside) == multiset(xs)
    decreases |xs|
  {
    if xs != [] {
      PartitionComplete(xs[1..], startAfter, stopAfter, base + 1);
      SplitHead(xs[0], xs[1..], InRange(startAfter, stopAfter, base),
                Part(xs[1..], startAfter, stopAfter, true, base + 1),
                Part(xs[1..], startAfter, stopAfter, false, base + 1));
      assert xs == [xs[0]] + xs[1..];
    }
  }

  /** Sending one message to one side or the other of a split of the rest
      gives a split of the whole. */
  lemma SplitHead(x: Value, rest: seq<Value>, hit: bool, inside: seq<Value>, outside: seq<Value>)
    requires |inside| + |outside| == |rest|
    requires multiset(inside) + multiset(outside) == multiset(rest)
    ensures var i := (if hit then [x] else []) + inside;
            var o := (if hit then [] else [x]) + outside;
            |i| + |o| == 1 + |rest| && multiset(i) + multiset(o) == multiset([x] + rest)
  {
  }

  /** merge(a, b) under a schedule: sched[j] says whether the j-th emission
      comes from a; once one side is exhausted (or the schedule ends) the rest
      follows in order. */
  function Interleave(a: seq<Value>, b: seq<Value>, sched: seq<bool>): (merged: seq<Value>)
    ensures |merged| == |a| + |b|
    decreases |a| + |b|
  {
    if a == [] then b
    else if b == [] then a
    else if sched == [] then a + b
    else if sched[0] then [a[0]] + Interleave(a[1..], b, sched[1..])
    else [b[0]] + Interleave(a, b[1..], sched[1..])
  }

  /** s occurs in t in order, possibly with other elements in between. */
  ghost predicate Subsequence(s: seq<Value>, t: seq<Value>)
    decreases |t|
  {
    s == [] || (t != [] && ((s[0] == t[0] && Subsequence(s[1..], t[1..])) || Subsequence(s, t[1..])))
  }

  /** A merge keeps every message of both halves and each half's own order;
      it promises nothing about the order across the halves. */
  lemma {:induction false} InterleaveKeepsBoth(a: seq<Value>, b: seq<Value>, sched: seq<bool>)
    ensures var r := Interleave(a, b, sched);
            multiset(r) == multiset(a) + multiset(b) &&
            Subsequence(a, r) && Subsequence(b, r)
    decreases |a| + |b|
  {
    var r := Interleave(a, b, sched);
    if a == [] {
      SubsequenceOfSelf(b);
    } else if b == [] {
      SubsequenceOfSelf(a);
    } else if sched == [] {
      SubsequenceOfAppend(a, b);
    } else if sched[0] {
      var r' := Interleave(a[1..], b, sched[1..]);
      InterleaveKeepsBoth(a[1..], b, sched[1..]);
      assert r == [a[0]] + r' && r[1..] == r';
      assert a == [a[0]] + a[1..];
    } else {
      var r' := Interleave(a, b[1..], sched[1..]);
      InterleaveKeepsBoth(a, b[1..], sched[1..]);
      assert r == [b[0]] + r' && r[1..] == r';
      assert b == [b[0]] + b[1..];
    }
  }

  /** Every sequence is a subsequence of itself. */
  lemma {:induction false} SubsequenceOfSelf(s: seq<Value>)
    ensures Subsequence(s, s)
    decreases |s|
  {
    if s != [] {
      SubsequenceOfSelf(s[1..]);
    }
  }

  /** Both parts of a concatenation are subsequences of it. */
  lemma {:induction false} SubsequenceOfAppend(a: seq<Value>, b: seq<Value>)
    ensures Subsequence(a, a + b) && Subsequence(b, a + b)
    decreases |a|
  {
    if a == [] {
      assert a + b == b;
      SubsequenceOfSelf(b);
    } else {
      SubsequenceOfAppend(a[1..], b);
      assert (a + b)[1..] == a[1..] + b;
    }
  }

  /** What a stream built by applyOperators has emitted after the messages xs
      were pushed into the topic's subject: ungated, the chain applied to
      every message; gated, the in-range messages through the chain, merged
      with the untouched out-of-range ones. */
  function Emitted(b: Built, xs: seq<Value>, draw: (nat, nat) -> real, sched: seq<bool>): (out: Option<seq<Value>>)
    ensures out.Some? <==> forall i | 0 <= i < |b.stages| :: Untimed(b.stages[i])
    ensures out.Some? ==> |out.value| <= |xs|
  {
    match b
    case Ungated(stages) => Run(stages, xs, draw, 0)
    case Gated(startAfter, stopAfter, stages) =>
      PartitionComplete(xs, startAfter, stopAfter, 0);
      match Run(stages, Part(xs, startAfter, stopAfter, true, 0), draw, 0)
      case None => None
      case Some(ys) => Some(Interleave(Part(xs, startAfter, stopAfter, false, 0), ys, sched))
  }

  // ---------------------------------------------------------------------------
  // Properties of built streams
  // ---------------------------------------------------------------------------

  /** A gated stream passes every out-of-range message through unchanged and
      in order, and emits, in order, what its operators make of the in-range
      ones; nothing else. */
  lemma OutOfRangePassThrough(b: Built, xs: seq<Value>, draw: (nat, nat) -> real, sched: seq<bool>)
    requires b.Gated? && Emitted(b, xs, draw, sched).Some?
    ensures Subsequence(Part(xs, b.startAfter, b.stopAfter, false, 0), Emitted(b, xs, draw, sched).value)
    ensures Subsequence(Run(b.stages, Part(xs, b.startAfter, b.stopAfter, true, 0), draw, 0).value,
                        Emitted(b, xs, draw, sched).value)
    ensures multiset(Emitted(b, xs, draw, sched).value) ==
            multiset(Part(xs, b.startAfter, b.stopAfter, false, 0)) +
            multiset(Run(b.stages, Part(xs, b.startAfter, b.stopAfter, true, 0), draw, 0).value)
  {
    var ys := Run(b.stages, Part(xs, b.startAfter, b.stopAfter, true, 0), draw, 0).value;
    InterleaveKeepsBoth(Part(xs, b.startAfter, b.stopAfter, false, 0), ys, sched);
  }

  /** A configuration whose operators are all skipped (or empty) and which is
      not gated leaves the topic's messages untouched. */
  lemma AllSkippedIsIdentity(cfg: TopicConfig, compile: seq<char> -> Mapper, xs: seq<Value>,
                             draw: (nat, nat) -> real, sched: seq<bool>)
    requires forall i | 0 <= i < |cfg.operators| :: Skipped(cfg.operators[i])
    requires !TruthyInt(cfg.startAfter) && !TruthyInt(cfg.stopAfter)
    ensures Emitted(ApplyOperators(cfg, compile), xs, draw, sched) == Some(xs)
  {
    AllSkippedIsShareOnly(cfg.operators, compile);
    assert [Share][1..] == [];
  }

  /** An unknown operator before randomDrop(1) does not stop the drop: every
      message of an ungated topic is dropped. */
  lemma UnknownThenDropAll(compile: seq<char> -> Mapper, xs: seq<Value>, draw: (nat, nat) -> real, sched: seq<bool>)
    requires UnitDraws(draw)
    ensures var cfg := TopicConfig("t", [UnknownOp("bogus"), RandomDropOp(Some(1.0))], None, None);
            Emitted(ApplyOperators(cfg, compile), xs, draw, sched) == Some([])
  {
    var ops := [UnknownOp("bogus"), RandomDropOp(Some(1.0))];
    SkippedOperatorAddsNothing([], UnknownOp("bogus"), [RandomDropOp(Some(1.0))], compile);
    assert [] + [UnknownOp("bogus")] + [RandomDropOp(Some(1.0))] == ops;
    assert [] + [RandomDropOp(Some(1.0))] == [RandomDropOp(Some(1.0))];
    assert [RandomDropOp(Some(1.0))][..0] == [];
    assert Pipeline(ops, compile) == [Drop(1.0), Share];
    assert [Drop(1.0), Share][1..] == [Share] && [Share][1..] == [];
    KeepNoneAtChanceOne(xs, 1.0, draw, 0, 0);
  }

  /** Range gating with startAfter = 2, stopAfter = 4 and randomDrop(1):
      of six messages, those at indices 2, 3 and 4 are dropped and those at
      0, 1 and 5 are delivered, in order, whatever the merge schedule. */
  lemma GatedDropTwoToFour(compile: seq<char> -> Mapper, xs: seq<Value>, draw: (nat, nat) -> real, sched: seq<bool>)
    requires UnitDraws(draw) && |xs| == 6
    ensures var cfg := TopicConfig("c", [RandomDropOp(Some(1.0))], Some(2), Some(4));
            Emitted(ApplyOperators(cfg, compile), xs, draw, sched) == Some([xs[0], xs[1], xs[5]])
  {
    var ops := [RandomDropOp(Some(1.0))];
    assert ops[..0] == [];
    assert Pipeline(ops, compile) == [Drop(1.0), Share];
    assert [Drop(1.0), Share][1..] == [Share] && [Share][1..] == [];
    var inside := Part(xs, Some(2), Some(4), true, 0);
    KeepNoneAtChanceOne(inside, 1.0, draw, 0, 0);
    assert Part(xs, Some(2), Some(4), false, 0) == [xs[0], xs[1], xs[5]] by {
      assert xs[5..][1..] == [];
      assert xs[4..][1..] == xs[5..];
      assert xs[3..][1..] == xs[4..];
      assert xs[2..][1..] == xs[3..];
      assert xs[1..][1..] == xs[2..];
      assert Part(xs[5..], Some(2), Some(4), false, 5) == [xs[5]];
      assert Part(xs[4..], Some(2), Some(4), false, 4) == [xs[5]];
      assert Part(xs[3..], Some(2), Some(4), false, 3) == [xs[5]];
      assert Part(xs[2..], Some(2), Some(4), false, 2) == [xs[5]];
      assert Part(xs[1..], Some(2), Some(4), false, 1) == [xs[1], xs[5]];
    }
  }

  /** bufferCount(3) with no time bound: six messages give exactly two
      batches of three, in input order, and the subscriber's handler is
      called once per message in order. */
  lemma BufferCountThreeOfSix(compile: seq<char> -> Mapper, xs: seq<Value>, draw: (nat, nat) -> real, sched: seq<bool>)
    requires |xs| == 6
    ensures var cfg := TopicConfig("b", [BufferOp(None, Some(3))], None, None);
            var out := Emitted(ApplyOperators(cfg, compile), xs, draw, sched);
            out == Some([Batch(xs[..3]), Batch(xs[3..])]) && Delivered(out.value) == xs
  {
    var ops := [BufferOp(None, Some(3))];
    assert ops[..0] == [];
    assert Pipeline(ops, compile) == [BufferCount(3), Share];
    assert [BufferCount(3), Share][1..] == [Share] && [Share][1..] == [];
    assert xs[3..][..3] == xs[3..];
    assert xs[3..][3..] == [];
    var c := Chunks(xs, 3);
    assert Chunks(xs[3..][3..], 3) == [];
    assert Chunks(xs[3..], 3) == [Batch(xs[3..])];
    assert c == [Batch(xs[..3])] + Chunks(xs[3..], 3);
    assert c == [Batch(xs[..3]), Batch(xs[3..])];
    assert Run([BufferCount(3), Share], xs, draw, 0) == Run([Share], c, draw, 1) == Some(c);
    assert [Batch(xs[..3]), Batch(xs[3..])][1..] == [Batch(xs[3..])];
    assert Delivered([Batch(xs[3..])]) == xs[3..] + Delivered([]);
    assert xs[..3] + xs[3..] == xs;
  }
}
