# Chaos engine for an MQTT broker, modelled in Dafny

The chaos engine sits between the broker's internal publish/subscribe emitter
(the "mq" bus) and the subscriptions of MQTT clients. It injects faults into
the messages of configured topics: mapping, random delay, buffering and random
dropping. A JSON configuration names the operators for each topic, optionally
only for a range of message indices.

The model covers two parts.

- **Configuration and operator chains** (`ChaosConfigParser`, `config_parser.dfy`):
  - the fold of the parsed configuration records into a topic map;
  - the validation of each operator record, following JavaScript truthiness: an absent field or a field equal to `0` (or `""`) counts as missing;
  - the construction of the stage list, which always ends in a single `share()`;
  - the range gate: which message indices are "in range", and when gating is on at all;
  - the integer range that `randomIntInRange` draws from.
- **Stream behaviour** (`StreamSemantics`, `stream_semantics.dfy`): what a built chain emits for a finite sequence of messages. This is defined only for the stages whose effect does not depend on timers:
  - `map`;
  - the order-keeping random delay;
  - `bufferCount`;
  - `randomDrop`, with the values of `Math.random()` supplied by an oracle;
  - `share`.

  A range-gated stream is the partition of the messages by index, with the chain applied to the in-range half. The two halves are then merged under a schedule oracle. The handler that a client subscription runs turns an array item into one call per element.
- **Subscription interception** (`ChaosEngine`, `chaos_eng.dfy`): the class `ChaosEng` and its state.
  - State the engine owns:
    - the topic registry (`topicRegistry`);
    - the subscription registry (`subjectSubscriptionRegistry`).
  - The collaborators it drives, modelled by their observable state:
    - the listeners on the bus (`mqListeners`);
    - the messages pushed into each Rx subject (`subjectInput`);
    - the subjects on which `complete()` was called (`completed`);
    - the Rx subscriptions not yet cancelled (`liveSubscriptions`).
  - `interceptSubscribe` builds a topic's subject and operator chain for the first subscriber only. `interceptUnsubscribe` tears the topic down when the last subscriber leaves. Topics containing `#` or `+` bypass the registries.
  - Every operation preserves two invariants:
    - `Valid`: at most one registration and one forwarding listener per topic, an open subject of its own for each registered topic, and no live subscription on a completed subject;
    - `Consistent`: a registered topic always has a subscriber, and every subscriber has a stored subscription.
  - Two client methods run the public operations end to end:
    - `RefCountScenario` for reference counting;
    - `SharedFunctionScenario` and `SharedFunctionOtherClientScenario` for the consequences of keying subscriptions by the client function alone.

`wrappers.dfy` holds the `Option` type.

Behaviours of the code that the model keeps:

- **Random delay keeps order.** The random delay is `concatMap` over a delayed `of(pkt)` (chaos_eng_config_parser.js:58-64). `concatMap` serialises the delayed re-emissions, so messages keep their order. `Delay` is the identity on the message sequence.
- **Subscriptions are keyed by the function alone.** The subscription registry is keyed by the client function only (chaos_eng.js:148, 206), not by (topic, function). When one function subscribes to two topics, the second subscription replaces the first in the registry. Leaving the first topic then cancels the second topic's subscription. When the function was the first topic's only client, completing that topic's subject ends the first subscription, and the second topic stays registered with no live subscription; `SharedFunctionScenario` proves this sequence of states. When another client remains on the first topic, its subject is not completed, so the overwritten first subscription stays live and keeps delivering the first topic's messages to the function; `SharedFunctionOtherClientScenario` proves this one.
- **Completing a subject ends its subscriptions.** When the last client leaves, `originalSubject.complete()` (chaos_eng.js:216) ends every subscription still attached to the subject, including one whose registry entry was overwritten. The teardown removes them from `liveSubscriptions`.
- **Unsubscribing unknown topics or functions throws.** A non-wildcard unsubscribe for an unregistered topic dereferences `undefined` and throws a TypeError at chaos_eng.js:204; one for a function with no stored subscription throws at chaos_eng.js:207. `InterceptUnsubscribe` requires both to be present.
- **A range bound of 0 counts as absent.** `startAfter` and `stopAfter` are combined with `||`, so 0 means "no bound", and `startAfter = stopAfter = 0` turns gating off (chaos_eng_config_parser.js:114-118).
- **`randomDrop` rejects a chance of 0.** A `randomDrop` with `chance: 0` is rejected as "no drop chance given", because 0 is falsy (chaos_eng_config_parser.js:84).

## Model

| member | source | states |
|---|---|---|
| ChaosConfigParser.ParseConfig | chaos_eng_config_parser.js:18-30 | every record's topic is a key of the result, every key is some record's topic, and a topic maps to the last record naming it (a later record overwrites an earlier one) |
| ChaosConfigParser.Skipped | chaos_eng_config_parser.js:44-101 | the records doApplyOperators skips with an error: a falsy `func`, `max` or `chance`, a buffer with neither `time` nor `maxSize`, a drop chance outside [0, 1], an unknown type. So `""`, `0` and a chance of 0 are skipped, while a chance in (0, 1] is kept |
| ChaosConfigParser.StageFor | chaos_eng_config_parser.js:42-101 | a record yields no stage exactly when it is invalid under the truthiness rules or of unknown type. `map` pipes the compiled function. `randomDelay` pipes `[min or 0, max]`. `buffer` pipes bufferTime(time, time, maxSize), bufferTime(time) or bufferCount(maxSize) according to which of time/maxSize are truthy. `randomDrop` pipes a drop with chance in (0, 1]. None of these is a share |
| ChaosConfigParser.Stages | chaos_eng_config_parser.js:41-103 | the validated stages are at most one per record and never a share |
| ChaosConfigParser.Pipeline | chaos_eng_config_parser.js:105-110 | the built chain ends with a share and has no other share |
| ChaosConfigParser.DoApplyOperators | chaos_eng_config_parser.js:38-111 | the loop over the operator list builds exactly Pipeline of the list |
| ChaosConfigParser.StagesAppend | chaos_eng_config_parser.js:41-103 | records are handled one at a time in list order: the stages of a concatenation are the concatenation of the stages |
| ChaosConfigParser.SkippedOperatorAddsNothing | chaos_eng_config_parser.js:41-103 | an invalid or unknown record contributes nothing and processing continues with the rest of the list |
| ChaosConfigParser.AllSkippedIsShareOnly | chaos_eng_config_parser.js:41-110 | an empty or all-invalid operator list builds a lone share() |
| ChaosConfigParser.ApplyOperators | chaos_eng_config_parser.js:113-125 | the chain is Pipeline of the operators; the stream is gated exactly when startAfter or stopAfter is nonzero, with the configured bounds |
| ChaosConfigParser.InRange | chaos_eng_config_parser.js:117-118 | the partition predicate: with neither bound truthy every index is in range, and a truthy stopAfter below a truthy startAfter selects no index |
| ChaosConfigParser.InRangeTwoToFour | chaos_eng_config_parser.js:117-118 | startAfter 2 with stopAfter 4 selects exactly indices 2, 3 and 4 |
| ChaosConfigParser.StopAfterZeroIsUnbounded | chaos_eng_config_parser.js:118 | a stopAfter of 0 gates every index exactly as an absent stopAfter does |
| ChaosConfigParser.Ceil | chaos_eng_config_parser.js:8 | Math.ceil: the least integer not below x |
| ChaosConfigParser.RandomIntInRange | chaos_eng_config_parser.js:7-11 | for a draw in [0, 1) the result lies in [ceil(min), floor(max)] when that range is non-empty, and in [floor(max) + 1, ceil(min)] when it is empty |
| ChaosConfigParser.ScaledDrawBounds | chaos_eng_config_parser.js:10 | floor(r * k) for r in [0, 1) lies in [0, k - 1] for k >= 1 and in [k, 0] otherwise |
| StreamSemantics.MapAll | chaos_eng_config_parser.js:51 | map keeps the length and transforms each message at its position, passing the transform the message and its index among the messages the map stage has received |
| StreamSemantics.Chunks | chaos_eng_config_parser.js:78 | every batch bufferCount emits has exactly maxSize messages, and there are no more batches than messages |
| StreamSemantics.ChunksFlatten | chaos_eng_config_parser.js:78 | the batches, flattened, are a prefix of the input, and fewer than maxSize messages are held back |
| StreamSemantics.Keep | chaos_eng_config_parser.js:96 | the messages `filter(_ => Math.random() > chance)` lets through, one draw per message; never more than its input |
| StreamSemantics.KeepNoneAtChanceOne | chaos_eng_config_parser.js:96 | with draws in [0, 1), a drop chance of 1 drops every message |
| StreamSemantics.KeepIsSubsequence | chaos_eng_config_parser.js:96 | a drop stage keeps a subsequence of its input, in order |
| StreamSemantics.RunStage | chaos_eng_config_parser.js:51-108 | what one piped operator emits: it has a finite-sequence meaning exactly for the untimed stages (not bufferTime, not a non-positive bufferCount); no stage emits more items than it receives, and map, delay and share emit exactly as many |
| StreamSemantics.Run | chaos_eng_config_parser.js:38-111 | the chain of piped operators has a finite-sequence meaning exactly when every stage has one, and never emits more items than it receives |
| StreamSemantics.Part | chaos_eng_config_parser.js:116-118 | one of partition's two outputs: the messages whose index is (or is not) in range, in order; every message it holds comes from the input |
| StreamSemantics.PartitionComplete | chaos_eng_config_parser.js:117-118 | the in-range and out-of-range halves together hold every message exactly once |
| StreamSemantics.Interleave | chaos_eng_config_parser.js:121 | merge of the two halves under a schedule; it emits exactly as many items as both halves together |
| StreamSemantics.Emitted | chaos_eng_config_parser.js:113-125 | what applyOperators' stream emits to a subscriber attached at creation: defined exactly when every stage is untimed, and never more items than were pushed |
| StreamSemantics.InterleaveKeepsBoth | chaos_eng_config_parser.js:121 | merge keeps every message of both halves and each half's order |
| StreamSemantics.OutOfRangePassThrough | chaos_eng_config_parser.js:114-121 | a gated stream emits every out-of-range message unchanged and in order, and the chain's output on the in-range messages in order; its output is exactly those two together |
| StreamSemantics.AllSkippedIsIdentity | chaos_eng_config_parser.js:113-125 | an ungated topic whose operators are all invalid emits its messages untouched |
| StreamSemantics.UnknownThenDropAll | chaos_eng_config_parser.js:83-101 | an unknown operator before randomDrop(1) is skipped and every message is dropped |
| StreamSemantics.GatedDropTwoToFour | chaos_eng_config_parser.js:113-121 | with startAfter 2, stopAfter 4 and randomDrop(1), six messages yield those at indices 0, 1 and 5, in order, under any merge schedule |
| StreamSemantics.BufferCountThreeOfSix | chaos_eng_config_parser.js:67-81 | bufferCount(3) turns six messages into two batches of three in order, and the handler is called once per message in order |
| StreamSemantics.Unbatch | chaos_eng.js:127-145 | the handler calls for one emitted item: none exactly for an empty array, and one call with the item itself for anything that is not an array |
| StreamSemantics.Delivered | chaos_eng.js:125-146 | the handler calls for a sequence of emitted items: every call carries a message from one of the items |
| StreamSemantics.DeliveredAppend | chaos_eng.js:125-146 | delivery of consecutive items is the concatenation of their deliveries |
| StreamSemantics.DeliveredPackets | chaos_eng.js:141-145 | a stream of plain packets calls the handler once per packet, in order |
| ChaosEngine.IsWildcard | chaos_eng.js:105 | a topic bypasses the registries exactly when some character of it is `#` or `+` (the same test recurs at chaos_eng.js:198) |
| ChaosEngine.StreamOutput | chaos_eng.js:186-195 | what the stream `#addOperators` returns emits for the messages pushed into the subject: the bare subject emits exactly the pushed messages, and no stream emits more items than were pushed |
| ChaosEngine.AttachedTo | chaos_eng.js:216 | the live subscriptions `complete()` on a subject ends: exactly those attached to that subject; no live subscription outside the set is on it |
| ChaosEngine.Deliver | chaos_eng.js:125-146 | an array item calls the client function once per element in order (none for an empty array); any other item calls it once |
| ChaosEngine.JoinKeepsRefCounted | chaos_eng.js:148-149 | storing the subscription and adding the function to the topic's client set restores the reference counting |
| ChaosEngine.LeaveKeepsRefCounted | chaos_eng.js:209-218 | removing a function from a client set keeps the reference counting when an emptied topic is deleted |
| ChaosEngine.AtMostOneForwarder | chaos_eng.js:160-184 | under the invariant a topic has at most one forwarding listener on the bus, and registered topics have distinct subjects |
| ChaosEngine.RegisterTopicKeepsInvariant | chaos_eng.js:168-181 | a new registration with a fresh subject, an empty client set and one forwarder keeps the invariant |
| ChaosEngine.ClientsUpdateKeepsInvariant | chaos_eng.js:149 | changing a topic's client set keeps the invariant |
| ChaosEngine.SubscribeKeepsInvariant | chaos_eng.js:125 | a new subscription is not yet live, and adding it keeps the invariant when its subject is not completed |
| ChaosEngine.StoreSubscriptionKeepsInvariant | chaos_eng.js:148 | storing a subscription under a function keeps the invariant |
| ChaosEngine.CancelKeepsInvariant | chaos_eng.js:206-207 | cancelling a subscription keeps the invariant |
| ChaosEngine.TeardownKeepsInvariant | chaos_eng.js:213-218 | removing the forwarder, completing the subject (which ends the subscriptions attached to it) and deleting the registration keeps the invariant |
| ChaosEngine.DirectListenerKeepsInvariant | chaos_eng.js:105-111 | adding or removing a client function on the bus directly keeps the invariant |
| ChaosEngine.PushKeepsInvariant | chaos_eng.js:171-175 | pushing into a registered subject keeps the invariant |
| ChaosEngine.ChaosEng.constructor | chaos_eng.js:96-102 | a new engine has empty registries and has touched no collaborator |
| ChaosEngine.ChaosEng.AddOperators | chaos_eng.js:186-195 | a configured topic gets the applyOperators chain for its record on the new subject; any other topic gets the bare subject |
| ChaosEngine.ChaosEng.UnconfiguredTopicPassesThrough | chaos_eng.js:189-194 | a subscriber of a topic missing from the configuration is called with exactly the published packets, in order |
| ChaosEngine.ChaosEng.GetTopicSubject | chaos_eng.js:160-184 | a registered topic's stream is returned and nothing changes. On first use the method adds exactly one registration (fresh subject, operators on it, empty client set) and exactly one forwarder for the topic. The invariant holds either way |
| ChaosEngine.ChaosEng.MqemitterListener | chaos_eng.js:171-175 | the packet is appended to the topic's subject and the bus callback is called exactly once |
| ChaosEngine.ChaosEng.SubscribeStream | chaos_eng.js:125-146 | subscribing opens exactly one new live subscription, to the stream's subject, for the function |
| ChaosEngine.ChaosEng.RegisterClient | chaos_eng.js:148-149 | the subscription is stored under the function (replacing an earlier one) and the function joins the topic's client set |
| ChaosEngine.ChaosEng.SubscribeToTopic | chaos_eng.js:122-149 | afterwards the topic is registered (created with its forwarder and fresh subject if new), the function is in its client set, and the function maps to a new live subscription to the topic's subject. No other registration changes |
| ChaosEngine.ChaosEng.InterceptSubscribe | chaos_eng.js:104-153 | a wildcard topic only adds the function to the bus and leaves both registries alone; otherwise as SubscribeToTopic. `done` is called exactly once and the invariants are kept |
| ChaosEngine.ChaosEng.CancelSubscription | chaos_eng.js:206-207 | the function's stored subscription stops being live; the registries are unchanged |
| ChaosEngine.ChaosEng.ReleaseClient | chaos_eng.js:209-218 | the function leaves the client set. If the set is now empty, the forwarder leaves the bus, the subject is completed, every subscription still attached to it stops being live, and the registration is deleted; otherwise only the client set changes |
| ChaosEngine.ChaosEng.InterceptUnsubscribe | chaos_eng.js:197-221 | a wildcard topic only removes the function from the bus. Otherwise the stored subscription is cancelled, the function leaves the client set, and the topic is torn down exactly when no client is left; the teardown also ends every other subscription on the completed subject. The subscription registry is never changed, `done` is called exactly once and the invariants are kept |
| ChaosEngine.RefCountScenario | chaos_eng.js:160-218 | two subscribers of one topic share a single forwarder; the topic survives the first leaving and is torn down, with its subject completed, when the second leaves |
| ChaosEngine.SharedFunctionScenario | chaos_eng.js:122-218 | one function subscribed to topics a and b, then unsubscribed from a: b's subscription is cancelled and a's ends when a's subject is completed, so no subscription is live, while b stays registered with the function as its only client |
| ChaosEngine.SharedFunctionOtherClientScenario | chaos_eng.js:122-218 | clients 7 and 9 on topic a, 7 also on b, then 7 leaves a: a stays registered with client 9 and its subject is not completed, so 7's overwritten subscription to a's subject is still live |

## Left out

- Logging, console output, the warning about a missing `client` and the `client` parameter itself (chaos_eng.js:114-120): no effect on state.
- The MQTT controller side of `ChaosEng` (`setBroker`, `connect`, `#createSubscriptions`, `#handleMessage`, `#log`, `emitPacket`), `hacky_start.js` and `types/client.d.ts` are not part of this model: network and start-up plumbing.
- File reading and `JSON.parse` in `parseConfig`: the model folds an already parsed list. Numeric fields are reals, `maxSize`, `startAfter` and `stopAfter` are integers. Values of other JSON types in those fields, such as strings, are not represented.
- `new Function(...)` on a map operator's text: a `compile` parameter turns the text into a transform of the message and its index, the two arguments Rx `map` passes. Text that fails to compile (an exception) is not modelled.
- A map transform that throws at run time errors the shared stream for every subscriber of the topic. `Mapper` is a total function, so the model has no error path for it.
- ChaosEngine.ChaosEng.AddOperators: a configuration record without an `operators` field makes the loop at chaos_eng_config_parser.js:41 throw, inside `#getTopicSubject`, before the topic is registered. `TopicConfig.operators` is always a list, so this exception is not modelled.
- ChaosEngine.ChaosEng.constructor: fixes the engine's `config` for its lifetime. In the source, `setConfig` (chaos_eng.js:39-41) replaces the configuration that `#addOperators` reads (chaos_eng.js:187), so a configuration change between subscriptions is not represented; the file reading inside `setConfig` is left out as above.
- `Math.random()`: an oracle `draw(k, i)` supplies the value for the i-th message at stage k. Floating-point rounding is not modelled: values are reals.
- Timer behaviour. `delay` is modelled only by the order it preserves, so `Delay` is the identity on messages. `RandomIntInRange` is not connected to the delay length. `bufferTime` with or without a size has no finite-sequence meaning (`RunStage` gives None). `bufferCount` with a negative size is likewise None.
- The interleaving `merge` produces is a schedule oracle; the model proves only what holds under every schedule.
- StreamSemantics describes what a stream has emitted once every pending delay has fired, with the subject still open. The flush of a held-back `bufferCount` batch on `complete()` is not modelled.
- StreamSemantics.Emitted: describes a subscriber attached when the subject was created. For a gated topic, `partition`'s index and the `merge` are per subscription, and `share()` sits only on the in-range branch (chaos_eng_config_parser.js:108, 117-121). A later subscriber counts indices from its own subscription, so it can see shifted ranges, duplicated operator output or missing messages. The model does not describe such subscribers.
- The bus is modelled as a set of (topic, listener) pairs. Registering the same function twice on a wildcard topic is therefore one entry, whereas mqemitter would keep two.
- TopicRegistration: a value held in the registry map rather than an object whose `clientFuncRegistry` Set is mutated in place. Nothing but the registry refers to it, so changing its client set is modelled by reassigning the map entry; aliasing of the registration object is not captured.
- ChaosEngine.ChaosEng.InterceptUnsubscribe: requires a non-wildcard topic to be registered and the function to have a stored subscription. The source throws a TypeError otherwise (chaos_eng.js:204-207), and that exception is not modelled.
- ChaosEngine.ChaosEng.MqemitterListener: requires the topic to be registered. A torn-down topic's forwarder is no longer on the bus, so the bus cannot call it.
- The model does not connect a subject's input (`subjectInput`) to the calls a live subscription receives. `Deliver` gives the calls for one item and `Delivered` those for a sequence, and `StreamOutput` gives what a topic's stream emits for a sequence of pushed messages; no invariant ties these to the engine's state.
