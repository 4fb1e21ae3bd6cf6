/**
 * The configuration side of the chaos engine (chaos_eng_config_parser.js):
 * the per-topic configuration map, the validation of operator records and
 * the construction of a topic's operator chain, and the decision whether
 * (and for which message indices) that chain is range-gated.
 *
 * A built stream is described by the list of stages it pipes through; what
 * such a list does to a finite sequence of messages is given in module
 * StreamSemantics.
 */
module ChaosConfigParser {
  import opened Wrappers

  /** A message on a topic's stream: a broker packet, or an ordered batch of
      messages produced by a buffer stage. */
  datatype Value = Packet(id: int) | Batch(items: seq<Value>)

  /** The transform a `map` operator applies to each message. Rx calls it
      with the message and the message's index among those the map stage
      has received. */
  type Mapper = (Value, nat) -> Value

  // JavaScript truthiness of an optional numeric or textual field: an absent
  // field and a field holding 0 (or the empty text) both count as missing.

  predicate Truthy(field: Option<real>) { field.Some? && field.value != 0.0 }

  predicate TruthyInt(field: Option<int>) { field.Some? && field.value != 0 }

  predicate TruthyText(field: Option<seq<char>>) { field.Some? && field.value != "" }

  /** One entry of a topic's `operators` list, as it appears in the
      configuration file: a type tag and the fields that type reads. Any tag
      other than the four known ones is an UnknownOp. */
  datatype OperatorRecord =
    | MapOp(func: Option<seq<char>>)
    | RandomDelayOp(min: Option<real>, max: Option<real>)
    | BufferOp(time: Option<real>, maxSize: Option<int>)
    | RandomDropOp(chance: Option<real>)
    | UnknownOp(typeName: seq<char>)

  /** One record of the configuration file. */
  datatype TopicConfig = TopicConfig(
    topic: seq<char>,
    operators: seq<OperatorRecord>,
    startAfter: Option<int>,
    stopAfter: Option<int>)

  /** One stage of a built stream, named after the Rx operator it pipes. */
  datatype Stage =
    | Map(f: Mapper)                            // map(f)
    | Delay(min: real, max: real)               // concatMap(of(pkt).pipe(delay(randomIntInRange(min, max))))
    | BufferTime(time: real)                    // bufferTime(time)
    | BufferTimeCount(time: real, maxSize: int) // bufferTime(time, time, maxSize)
    | BufferCount(size: int)                    // bufferCount(size)
    | Drop(chance: real)                        // filter(_ => Math.random() > chance)
    | Share                                     // share()

  /** The range gate and operator chain that applyOperators puts on a topic's subject. */
  datatype Built =
    | Ungated(stages: seq<Stage>)
    | Gated(startAfter: Option<int>, stopAfter: Option<int>, stages: seq<Stage>)

  // ---------------------------------------------------------------------------
  // parseConfig: the fold of the parsed records into a map
  // ---------------------------------------------------------------------------

  /** True when no record after index i and before index k names the same
      topic as records[i]; with k == |records|, records[i] is the last record
      for its topic. */
  ghost predicate LastBefore(records: seq<TopicConfig>, i: int, k: int)
    requires 0 <= i < k <= |records|
  {
    forall j | i < j < k :: records[j].topic != records[i].topic
  }

  /** The map from topic to configuration record, built by setting each record
      in list order: every topic of the list is a key, and it maps to the last
      record naming it. */
  method ParseConfig(records: seq<TopicConfig>) returns (operatorsMapPerTopic: map<seq<char>, TopicConfig>)
    ensures forall i | 0 <= i < |records| :: records[i].topic in operatorsMapPerTopic
    ensures forall t | t in operatorsMapPerTopic :: exists i | 0 <= i < |records| :: records[i].topic == t
    ensures forall i | 0 <= i < |records| && LastBefore(records, i, |records|) ::
              operatorsMapPerTopic[records[i].topic] == records[i]
  {
    operatorsMapPerTopic := map[];
    for k := 0 to |records|
      invariant forall i | 0 <= i < k :: records[i].topic in operatorsMapPerTopic
      invariant forall t | t in operatorsMapPerTopic :: exists i | 0 <= i < k :: records[i].topic == t
      invariant forall i | 0 <= i < k && LastBefore(records, i, k) ::
                  operatorsMapPerTopic[records[i].topic] == records[i]
    {
      operatorsMapPerTopic := operatorsMapPerTopic[records[k].topic := records[k]];
    }
  }

  // ---------------------------------------------------------------------------
  // doApplyOperators: validate each record and append its stage
  // ---------------------------------------------------------------------------

  /** The validation of doApplyOperators: a record it skips with an error
      message instead of piping a stage. */
  predicate Skipped(op: OperatorRecord)
    ensures op.UnknownOp? ==> Skipped(op)
    ensures op.MapOp? && op.func == Some("") ==> Skipped(op)
    ensures op.RandomDelayOp? && op.max == Some(0.0) ==> Skipped(op)
    ensures op.BufferOp? && op.time.None? && op.maxSize == Some(0) ==> Skipped(op)
    ensures op.RandomDropOp? && op.chance == Some(0.0) ==> Skipped(op)
    ensures op.RandomDropOp? && op.chance.Some? && 0.0 < op.chance.value <= 1.0 ==> !Skipped(op)
  {
    match op
    case MapOp(func) => !TruthyText(func)
    case RandomDelayOp(_, max) => !Truthy(max)
    case BufferOp(time, maxSize) => !Truthy(time) && !TruthyInt(maxSize)
    case RandomDropOp(chance) => !Truthy(chance) || chance.value > 1.0 || chance.value < 0.0
    case UnknownOp(_) => true
  }

  /** The stage one operator record pipes, or None when it is skipped. The
      text of a `map` function is turned into a transform by `compile`. */
  function StageFor(op: OperatorRecord, compile: seq<char> -> Mapper): (r: Option<Stage>)
    ensures r.None? <==> Skipped(op)
    ensures r.Some? ==> !r.value.Share?
    ensures r.Some? && op.MapOp? ==> r.value == Map(compile(op.func.value))
    ensures r.Some? && op.RandomDelayOp? ==>
              r.value == Delay(if op.min.Some? then op.min.value else 0.0, op.max.value)
    ensures r.Some? && op.BufferOp? ==>
              (r.value.BufferTimeCount? <==> Truthy(op.time) && TruthyInt(op.maxSize)) &&
              (r.value.BufferTime? <==> Truthy(op.time) && !TruthyInt(op.maxSize)) &&
              (r.value.BufferCount? <==> !Truthy(op.time)) &&
              (r.value.BufferTimeCount? ==> r.value.time == op.time.value && r.value.maxSize == op.maxSize.value) &&
              (r.value.BufferTime? ==> r.value.time == op.time.value) &&
              (r.value.BufferCount? ==> r.value.size == op.maxSize.value && r.value.size != 0)
    ensures r.Some? && op.RandomDropOp? ==>
              r.value == Drop(op.chance.value) && 0.0 < op.chance.value <= 1.0
  {
    match op
    case MapOp(func) =>
      if !TruthyText(func) then None else Some(Map(compile(func.value)))
    case RandomDelayOp(min, max) =>
      if !Truthy(max) then None
      else Some(Delay(if Truthy(min) then min.value else 0.0, max.value))
    case BufferOp(time, maxSize) =>
      if !Truthy(time) && !TruthyInt(maxSize) then None
      else if Truthy(time) && TruthyInt(maxSize) then Some(BufferTimeCount(time.value, maxSize.value))
      else if Truthy(time) then Some(BufferTime(time.value))
      else Some(BufferCount(maxSize.value))
    case RandomDropOp(chance) =>
      if !Truthy(chance) then None
      else if chance.value > 1.0 || chance.value < 0.0 then None
      else Some(Drop(chance.value))
    case UnknownOp(_) => None
  }

  /** The stages the operator records pipe, in list order, skipped records
      contributing none. */
  function Stages(ops: seq<OperatorRecord>, compile: seq<char> -> Mapper): (stages: seq<Stage>)
    ensures |stages| <= |ops|
    ensures forall i | 0 <= i < |stages| :: !stages[i].Share?
  {
    if ops == [] then []
    else
      var init := Stages(ops[..|ops| - 1], compile);
      match StageFor(ops[|ops| - 1], compile)
      case None => init
      case Some(st) => init + [st]
  }

  /** The full chain doApplyOperators builds: the validated stages followed
      by the share() that multicasts the result to every subscriber. */
  function Pipeline(ops: seq<OperatorRecord>, compile: seq<char> -> Mapper): (p: seq<Stage>)
    ensures |p| >= 1 && p[|p| - 1].Share?
    ensures forall i | 0 <= i < |p| - 1 :: !p[i].Share?
  {
    Stages(ops, compile) + [Share]
  }

  /** The loop of doApplyOperators, extending the chain operator by operator. */
  method DoApplyOperators(operatorList: seq<OperatorRecord>, compile: seq<char> -> Mapper)
    returns (modified: seq<Stage>)
    ensures modified == Pipeline(operatorList, compile)
  {
    modified := [];
    for i := 0 to |operatorList|
      invariant modified == Stages(operatorList[..i], compile)
    {
      assert operatorList[..i + 1][..i] == operatorList[..i];
      var stage := StageFor(operatorList[i], compile);
      if stage.Some? {
        modified := modified + [stage.value];
      }
    }
    assert operatorList[..|operatorList|] == operatorList;
    modified := modified + [Share];
  }

  /** Stage building distributes over concatenation of operator lists: each
      record is handled on its own and processing continues after it. */
  lemma {:induction false} StagesAppend(a: seq<OperatorRecord>, b: seq<OperatorRecord>, compile: seq<char> -> Mapper)
    ensures Stages(a + b, compile) == Stages(a, compile) + Stages(b, compile)
    decreases |b|
  {
    if b == [] {
      assert a + b == a;
    } else {
      var b' := b[..|b| - 1];
      assert (a + b)[..|a + b| - 1] == a + b';
      assert (a + b)[|a + b| - 1] == b[|b| - 1];
      StagesAppend(a, b', compile);
    }
  }

  /** A skipped record (invalid fields or unknown type) leaves the chain
      exactly as if it were not in the list. */
  lemma SkippedOperatorAddsNothing(pre: seq<OperatorRecord>, op: OperatorRecord, post: seq<OperatorRecord>,
                                   compile: seq<char> -> Mapper)
    requires Skipped(op)
    ensures Pipeline(pre + [op] + post, compile) == Pipeline(pre + post, compile)
  {
    StagesAppend(pre, [op], compile);
    StagesAppend(pre + [op], post, compile);
    StagesAppend(pre, post, compile);
    assert Stages([op], compile) == [] by {
      assert [op][..0] == [];
    }
  }

  /** When every record is skipped (including the empty list) the chain is a
      lone share(). */
  lemma {:induction false} AllSkippedIsShareOnly(ops: seq<OperatorRecord>, compile: seq<char> -> Mapper)
    requires forall i | 0 <= i < |ops| :: Skipped(ops[i])
    ensures Pipeline(ops, compile) == [Share]
    decreases |ops|
  {
    if ops != [] {
      AllSkippedIsShareOnly(ops[..|ops| - 1], compile);
    }
  }

  // ---------------------------------------------------------------------------
  // applyOperators: range gating
  // ---------------------------------------------------------------------------

  /** The partition predicate: (startAfter || -Infinity) <= idx <= (stopAfter || Infinity). */
  predicate InRange(startAfter: Option<int>, stopAfter: Option<int>, idx: int)
    ensures !TruthyInt(startAfter) && !TruthyInt(stopAfter) ==> InRange(startAfter, stopAfter, idx)
    ensures TruthyInt(startAfter) && TruthyInt(stopAfter) && stopAfter.value < startAfter.value ==>
              !InRange(startAfter, stopAfter, idx)
  {
    (!TruthyInt(startAfter) || startAfter.value <= idx) &&
    (!TruthyInt(stopAfter) || idx <= stopAfter.value)
  }

  /** The stream description applyOperators builds for a configured topic. */
  function ApplyOperators(cfg: TopicConfig, compile: seq<char> -> Mapper): (b: Built)
    ensures b.stages == Pipeline(cfg.operators, compile)
    ensures b.Gated? <==>
              (cfg.startAfter.Some? && cfg.startAfter.value != 0) ||
              (cfg.stopAfter.Some? && cfg.stopAfter.value != 0)
    ensures b.Gated? ==> b.startAfter == cfg.startAfter && b.stopAfter == cfg.stopAfter
  {
    if TruthyInt(cfg.startAfter) || TruthyInt(cfg.stopAfter) then
      Gated(cfg.startAfter, cfg.stopAfter, Pipeline(cfg.operators, compile))
    else
      Ungated(Pipeline(cfg.operators, compile))
  }

  /** startAfter = 2, stopAfter = 4 selects exactly the indices 2, 3 and 4. */
  lemma InRangeTwoToFour(idx: int)
    ensures InRange(Some(2), Some(4), idx) <==> 2 <= idx <= 4
  {
  }

  /** A stopAfter of 0 is falsy and therefore no upper bound at all: it gates
      exactly like an absent stopAfter. */
  lemma StopAfterZeroIsUnbounded(startAfter: Option<int>, idx: int)
    ensures InRange(startAfter, Some(0), idx) <==> InRange(startAfter, None, idx)
  {
  }

  // ---------------------------------------------------------------------------
  // randomIntInRange
  // ---------------------------------------------------------------------------

  /** Math.ceil on a real. */
  function Ceil(x: real): (c: int)
    ensures x <= c as real < x + 1.0
  {
    -((-x).Floor)
  }

  /** floor(r * (floor(max) - ceil(min) + 1)) + ceil(min), with the random
      draw r taken from [0, 1). When ceil(min) <= floor(max) the result lies
      in [ceil(min), floor(max)]; when the range is empty the formula yields
      a value in [floor(max) + 1, ceil(min)] instead. */
  function RandomIntInRange(min: real, max: real, r: real): (n: int)
    requires 0.0 <= r < 1.0
    ensures Ceil(min) <= max.Floor ==> Ceil(min) <= n <= max.Floor
    ensures max.Floor < Ceil(min) ==> max.Floor + 1 <= n <= Ceil(min)
  {
    var lo := Ceil(min);
    var hi := max.Floor;
    ScaledDrawBounds(r, hi - lo + 1);
    (r * ((hi - lo + 1) as real)).Floor + lo
  }

  /** floor(r * k) lies in [0, k - 1] for k >= 1 and in [k, 0] otherwise. */
  lemma ScaledDrawBounds(r: real, k: int)
    requires 0.0 <= r < 1.0
    ensures k >= 1 ==> 0 <= (r * k as real).Floor <= k - 1
    ensures k < 1 ==> k <= (r * k as real).Floor <= 0
  {
    var x := r * k as real;
    if k >= 1 {
      assert 0.0 <= x;
      assert x < k as real by {
        assert r * k as real < 1.0 * k as real;
      }
    } else {
      assert x <= 0.0;
      assert k as real <= x by {
        assert 1.0 * k as real <= r * k as real;
      }
    }
  }
}
