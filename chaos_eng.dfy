/**
 * The subscription interception of the chaos engine (chaos_eng.js): the
 * per-topic registry of shared streams, the registry of client
 * subscriptions, and the reference counting that builds a topic's stream on
 * its first subscriber and tears it down when the last one leaves.
 *
 * The collaborators the engine drives are modelled by the state it changes
 * in them: the broker's mq emitter by the set of (topic, listener) pairs
 * registered with on(), each Rx subject by the messages pushed into it with
 * next() and whether complete() was called, and Rx subscriptions by the set
 * of those not yet unsubscribed. Fresh subjects and subscriptions are told
 * apart by numbers drawn from a counter.
 */
module ChaosEngine {
  import opened Wrappers
  import opened ChaosConfigParser
  import opened StreamSemantics

  type Topic = seq<char>

  /** The identity of the deliver function the broker hands to the engine for a client. */
  type ClientFunc = nat

  /** The identity of an Rx subject created for a topic. */
  type SubjectId = nat

  /** A listener on the broker's mq emitter: the engine's forwarder into a
      topic's subject, or a client's deliver function registered directly. */
  datatype Listener = Forward(subject: SubjectId) | Direct(func: ClientFunc)

  /** The stream clients of a topic subscribe to: the bare subject for an
      unconfigured topic, or the subject with applyOperators' chain on it. */
  datatype SharedStream = Passthrough(source: SubjectId) | Operated(source: SubjectId, built: Built)

  /** An Rx subscription of a client's handler to a topic's shared stream. */
  datatype Subscription = Subscription(id: nat, source: SubjectId, func: ClientFunc)

  /** Topics with a multi-level or single-level wildcard are not intercepted. */
  predicate IsWildcard(topic: Topic)
    ensures IsWildcard(topic) <==> exists i | 0 <= i < |topic| :: topic[i] == '#' || topic[i] == '+'
  {
    '#' in topic || '+' in topic
  }

  /** What the subject of a topic emits for the messages pushed into it. */
  function StreamOutput(stream: SharedStream, xs: seq<Value>, draw: (nat, nat) -> real, sched: seq<bool>): (out: Option<seq<Value>>)
    ensures stream.Passthrough? ==> out == Some(xs)
    ensures out.Some? ==> |out.value| <= |xs|
  {
    match stream
    case Passthrough(_) => Some(xs)
    case Operated(_, built) => Emitted(built, xs, draw, sched)
  }

  /** The handler a client's subscription runs on each item of the shared
      stream: an array is delivered element by element in order (an empty one
      calls nothing), anything else is delivered once. Returns the packets the
      client's function is called with, in call order. */
  method Deliver(packet: Value) returns (calls: seq<Value>)
    ensures packet.Batch? ==> calls == packet.items
    ensures !packet.Batch? ==> calls == [packet]
    ensures calls == Unbatch(packet)
  {
    if packet.Batch? {
      calls := [];
      if |packet.items| == 0 {
        return;
      }
      for i := 0 to |packet.items|
        invariant calls == packet.items[..i]
      {
        calls := calls + [packet.items[i]];
      }
      return;
    }
    calls := [packet];
  }

  /** The record the engine keeps per intercepted topic. The source keeps it
      as an object in the registry map and adds to or removes from its client
      set in place; nothing but the registry holds it, so here it is a value
      and the registry map is reassigned. */
  datatype TopicRegistration = TopicRegistration(
    subject: SharedStream,
    mqemitterListener: Listener,
    originalSubject: SubjectId,
    /** The client functions subscribed to the topic, counted to know when to tear it down. */
    clientFuncRegistry: set<ClientFunc>)

  /** The registries agree with the collaborators' state: each registered
      topic is a non-wildcard topic with its own open subject (`owner` records
      the topic each subject was created for, so no two topics share one), its
      shared stream is built on that subject, and the one forwarder into that
      subject is on the bus for that topic; every forwarder on the bus belongs
      to a registered topic; no live subscription is on a completed subject;
      numbers in use are below `next`. */
  ghost predicate RegistryInvariant(
    reg: map<Topic, TopicRegistration>, mq: set<(Topic, Listener)>,
    input: map<SubjectId, seq<Value>>, completed: set<SubjectId>,
    live: set<Subscription>, subs: map<ClientFunc, Subscription>,
    owner: map<SubjectId, Topic>, next: nat)
  {
    && (forall t | t in reg ::
          && !IsWildcard(t)
          && reg[t].mqemitterListener == Forward(reg[t].originalSubject)
          && (t, reg[t].mqemitterListener) in mq
          && reg[t].subject.source == reg[t].originalSubject
          && reg[t].originalSubject in input
          && reg[t].originalSubject !in completed
          && reg[t].originalSubject in owner && owner[reg[t].originalSubject] == t)
    && (forall t, l | (t, l) in mq && l.Forward? :: t in reg && reg[t].mqemitterListener == l)
    && (forall s | s in input :: s < next)
    && (forall s | s in completed :: s < next)
    && (forall s | s in owner :: s < next)
    && (forall sub | sub in live :: sub.id < next && sub.source !in completed)
    && (forall f | f in subs :: subs[f].id < next)
  }

  /** The live subscriptions attached to a subject's stream: complete() on
      the subject ends each of them. */
  function AttachedTo(live: set<Subscription>, subject: SubjectId): (attached: set<Subscription>)
    ensures attached <= live
    ensures forall sub | sub in attached :: sub.source == subject
    ensures forall sub | sub in live - attached :: sub.source != subject
  {
    set sub | sub in live && sub.source == subject
  }

  /** The reference counting between calls: a topic is registered only while
      some client function is subscribed to it, and each such function has a
      stored subscription. */
  ghost predicate RefCounted(reg: map<Topic, TopicRegistration>, subs: map<ClientFunc, Subscription>)
  {
    forall t | t in reg ::
      reg[t].clientFuncRegistry != {} && forall f | f in reg[t].clientFuncRegistry :: f in subs
  }

  /** reg with the client set of topic t replaced by cs. */
  function WithClients(reg: map<Topic, TopicRegistration>, t: Topic, cs: set<ClientFunc>): (updated: map<Topic, TopicRegistration>)
    requires t in reg
  {
    reg[t := reg[t].(clientFuncRegistry := cs)]
  }

  /** Updating a key twice keeps only the second value. */
  lemma UpdateTwice<K, V>(m: map<K, V>, k: K, a: V, b: V)
    ensures m[k := a][k := b] == m[k := b]
  {
  }

  /** Updating a key with the value it already has changes nothing. */
  lemma UpdateSame<K, V>(m: map<K, V>, k: K)
    requires k in m
    ensures m[k := m[k]] == m
  {
  }

  /** A function joining a topic's client set, with its subscription stored,
      keeps the reference counting. */
  lemma JoinKeepsRefCounted(reg: map<Topic, TopicRegistration>, subs: map<ClientFunc, Subscription>,
                            t: Topic, f: ClientFunc, sub: Subscription)
    requires t in reg
    requires forall u | u in reg && u != t :: reg[u].clientFuncRegistry != {}
    requires forall u, g | u in reg && g in reg[u].clientFuncRegistry :: g in subs
    ensures RefCounted(WithClients(reg, t, reg[t].clientFuncRegistry + {f}), subs[f := sub])
  {
  }

  /** A function leaving a topic's client set keeps the reference counting,
      provided the topic is dropped when the set becomes empty. */
  lemma LeaveKeepsRefCounted(reg: map<Topic, TopicRegistration>, subs: map<ClientFunc, Subscription>,
                             t: Topic, f: ClientFunc)
    requires RefCounted(reg, subs) && t in reg
    ensures var remaining := reg[t].clientFuncRegistry - {f};
            RefCounted(if remaining == {} then reg - {t} else WithClients(reg, t, remaining), subs)
  {
  }

  /** Under the invariant, a topic has at most one forwarder on the bus, and
      no two registered topics share a subject. */
  lemma AtMostOneForwarder(
    reg: map<Topic, TopicRegistration>, mq: set<(Topic, Listener)>,
    input: map<SubjectId, seq<Value>>, completed: set<SubjectId>,
    live: set<Subscription>, subs: map<ClientFunc, Subscription>,
    owner: map<SubjectId, Topic>, next: nat,
    t: Topic, l1: Listener, l2: Listener)
    requires RegistryInvariant(reg, mq, input, completed, live, subs, owner, next)
    requires (t, l1) in mq && (t, l2) in mq && l1.Forward? && l2.Forward?
    ensures l1 == l2 && t in reg
    ensures forall u | u in reg && u != t :: reg[u].originalSubject != reg[t].originalSubject
  {
  }

  /** Registering a new topic with a fresh subject, an empty client set and
      one forwarder keeps the invariant. */
  lemma RegisterTopicKeepsInvariant(
    reg: map<Topic, TopicRegistration>, mq: set<(Topic, Listener)>,
    input: map<SubjectId, seq<Value>>, completed: set<SubjectId>,
    live: set<Subscription>, subs: map<ClientFunc, Subscription>,
    owner: map<SubjectId, Topic>, next: nat,
    t: Topic, stream: SharedStream)
    requires RegistryInvariant(reg, mq, input, completed, live, subs, owner, next)
    requires t !in reg && !IsWildcard(t) && stream.source == next
    ensures RegistryInvariant(reg[t := TopicRegistration(stream, Forward(next), next, {})],
                              mq + {(t, Forward(next))}, input[next := []], completed,
                              live, subs, owner[next := t], next + 1)
  {
  }

  /** Changing only a topic's client set keeps the invariant. */
  lemma ClientsUpdateKeepsInvariant(
    reg: map<Topic, TopicRegistration>, mq: set<(Topic, Listener)>,
    input: map<SubjectId, seq<Value>>, completed: set<SubjectId>,
    live: set<Subscription>, subs: map<ClientFunc, Subscription>,
    owner: map<SubjectId, Topic>, next: nat,
    t: Topic, cs: set<ClientFunc>)
    requires RegistryInvariant(reg, mq, input, completed, live, subs, owner, next)
    requires t in reg
    ensures RegistryInvariant(WithClients(reg, t, cs), mq, input, completed, live, subs, owner, next)
  {
  }

  /** A new live subscription with a fresh number, on a subject not yet
      completed, keeps the invariant. */
  lemma SubscribeKeepsInvariant(
    reg: map<Topic, TopicRegistration>, mq: set<(Topic, Listener)>,
    input: map<SubjectId, seq<Value>>, completed: set<SubjectId>,
    live: set<Subscription>, subs: map<ClientFunc, Subscription>,
    owner: map<SubjectId, Topic>, next: nat,
    sub: Subscription)
    requires RegistryInvariant(reg, mq, input, completed, live, subs, owner, next)
    requires sub.id == next && sub.source !in completed
    ensures sub !in live
    ensures RegistryInvariant(reg, mq, input, completed, live + {sub}, subs, owner, next + 1)
  {
  }

  /** Storing an existing subscription under a client function keeps the invariant. */
  lemma StoreSubscriptionKeepsInvariant(
    reg: map<Topic, TopicRegistration>, mq: set<(Topic, Listener)>,
    input: map<SubjectId, seq<Value>>, completed: set<SubjectId>,
    live: set<Subscription>, subs: map<ClientFunc, Subscription>,
    owner: map<SubjectId, Topic>, next: nat,
    f: ClientFunc, sub: Subscription)
    requires RegistryInvariant(reg, mq, input, completed, live, subs, owner, next)
    requires sub.id < next
    ensures RegistryInvariant(reg, mq, input, completed, live, subs[f := sub], owner, next)
  {
  }

  /** Cancelling a subscription keeps the invariant. */
  lemma CancelKeepsInvariant(
    reg: map<Topic, TopicRegistration>, mq: set<(Topic, Listener)>,
    input: map<SubjectId, seq<Value>>, completed: set<SubjectId>,
    live: set<Subscription>, subs: map<ClientFunc, Subscription>,
    owner: map<SubjectId, Topic>, next: nat,
    sub: Subscription)
    requires RegistryInvariant(reg, mq, input, completed, live, subs, owner, next)
    ensures RegistryInvariant(reg, mq, input, completed, live - {sub}, subs, owner, next)
  {
  }

  /** Removing a registered topic together with its forwarder, and completing
      its subject, which ends the subscriptions attached to it, keeps the
      invariant. */
  lemma TeardownKeepsInvariant(
    reg: map<Topic, TopicRegistration>, mq: set<(Topic, Listener)>,
    input: map<SubjectId, seq<Value>>, completed: set<SubjectId>,
    live: set<Subscription>, subs: map<ClientFunc, Subscription>,
    owner: map<SubjectId, Topic>, next: nat,
    t: Topic)
    requires RegistryInvariant(reg, mq, input, completed, live, subs, owner, next)
    requires t in reg
    ensures RegistryInvariant(reg - {t}, mq - {(t, reg[t].mqemitterListener)}, input,
                              completed + {reg[t].originalSubject},
                              live - AttachedTo(live, reg[t].originalSubject), subs, owner, next)
  {
  }

  /** Client functions registered on or removed from the bus directly (the
      wildcard path) do not touch the invariant. */
  lemma DirectListenerKeepsInvariant(
    reg: map<Topic, TopicRegistration>, mq: set<(Topic, Listener)>,
    input: map<SubjectId, seq<Value>>, completed: set<SubjectId>,
    live: set<Subscription>, subs: map<ClientFunc, Subscription>,
    owner: map<SubjectId, Topic>, next: nat,
    t: Topic, f: ClientFunc)
    requires RegistryInvariant(reg, mq, input, completed, live, subs, owner, next)
    ensures RegistryInvariant(reg, mq + {(t, Direct(f))}, input, completed, live, subs, owner, next)
    ensures RegistryInvariant(reg, mq - {(t, Direct(f))}, input, completed, live, subs, owner, next)
  {
  }

  /** Pushing a packet into a registered subject keeps the invariant. */
  lemma PushKeepsInvariant(
    reg: map<Topic, TopicRegistration>, mq: set<(Topic, Listener)>,
    input: map<SubjectId, seq<Value>>, completed: set<SubjectId>,
    live: set<Subscription>, subs: map<ClientFunc, Subscription>,
    owner: map<SubjectId, Topic>, next: nat,
    s: SubjectId, xs: seq<Value>)
    requires RegistryInvariant(reg, mq, input, completed, live, subs, owner, next)
    requires s in input
    ensures RegistryInvariant(reg, mq, input[s := xs], completed, live, subs, owner, next)
  {
  }

  class ChaosEng {
    /** The parsed configuration, topic to record. */
    const config: map<Topic, TopicConfig>
    /** Turns the source text of a map operator into its transform. */
    const compile: seq<char> -> Mapper

    /** topic -> registration (#topicRegistry) */
    var topicRegistry: map<Topic, TopicRegistration>
    /** client function -> its subscription (#subjectSubscriptionRegistry) */
    var subjectSubscriptionRegistry: map<ClientFunc, Subscription>

    /** The listeners registered on the broker's mq emitter. */
    var mqListeners: set<(Topic, Listener)>
    /** The messages pushed into each subject created so far. */
    var subjectInput: map<SubjectId, seq<Value>>
    /** The subjects on which complete() was called. */
    var completed: set<SubjectId>
    /** The Rx subscriptions not yet unsubscribed. */
    var liveSubscriptions: set<Subscription>
    /** The next unused subject or subscription number. */
    var nextId: nat
    /** The topic each subject was created for. */
    ghost var SubjectTopic: map<SubjectId, Topic>

    /** The registries agree with the collaborators' state (RegistryInvariant). */
    ghost predicate Valid()
      reads this
    {
      RegistryInvariant(topicRegistry, mqListeners, subjectInput, completed,
                        liveSubscriptions, subjectSubscriptionRegistry, SubjectTopic, nextId)
    }

    /** Valid, and the reference counting holds between calls (RefCounted). */
    ghost predicate Consistent()
      reads this
    {
      Valid() && RefCounted(topicRegistry, subjectSubscriptionRegistry)
    }

    /** An engine with the given configuration and nothing registered. */
    constructor (config: map<Topic, TopicConfig>, compile: seq<char> -> Mapper)
      ensures Consistent()
      ensures this.config == config && this.compile == compile
      ensures topicRegistry == map[] && subjectSubscriptionRegistry == map[]
      ensures mqListeners == {} && subjectInput == map[] && completed == {}
      ensures liveSubscriptions == {}
    {
      this.config := config;
      this.compile := compile;
      topicRegistry := map[];
      subjectSubscriptionRegistry := map[];
      mqListeners := {};
      subjectInput := map[];
      completed := {};
      liveSubscriptions := {};
      nextId := 0;
      SubjectTopic := map[];
    }

    /** The stream #addOperators builds on a topic's new subject: the
        configured chain (gated or not) for a configured topic, the subject
        itself otherwise. */
    function AddOperators(topic: Topic, subject: SubjectId): (stream: SharedStream)
      ensures stream.source == subject
      ensures stream.Operated? <==> topic in config
      ensures stream.Operated? ==> stream.built == ApplyOperators(config[topic], compile)
    {
      if topic in config then Operated(subject, ApplyOperators(config[topic], compile))
      else Passthrough(subject)
    }

    /** A topic missing from the configuration gets the bare subject: a
        subscriber's function is called with exactly the packets published on
        the topic, in publication order. */
    lemma UnconfiguredTopicPassesThrough(topic: Topic, subject: SubjectId, xs: seq<Value>,
                                         draw: (nat, nat) -> real, sched: seq<bool>)
      requires topic !in config
      requires forall i | 0 <= i < |xs| :: xs[i].Packet?
      ensures var out := StreamOutput(AddOperators(topic, subject), xs, draw, sched);
              out.Some? && Delivered(out.value) == xs
    {
      DeliveredPackets(xs);
    }

    /** #getTopicSubject: the registered stream of the topic, or, on its first
        use, a new subject with the operators on it, registered with an empty
        client set and with exactly one new forwarder on the bus. */
    method GetTopicSubject(topic: Topic) returns (stream: SharedStream)
      requires Valid() && !IsWildcard(topic)
      modifies this
      ensures Valid()
      ensures topic in topicRegistry && stream == topicRegistry[topic].subject
      ensures topic in old(topicRegistry) ==>
                && topicRegistry == old(topicRegistry)
                && mqListeners == old(mqListeners)
                && subjectInput == old(subjectInput)
                && nextId == old(nextId)
      ensures topic !in old(topicRegistry) ==>
                && old(nextId) !in old(subjectInput)
                && stream == AddOperators(topic, old(nextId))
                && topicRegistry == old(topicRegistry)[topic :=
                     TopicRegistration(stream, Forward(old(nextId)), old(nextId), {})]
                && mqListeners == old(mqListeners) + {(topic, Forward(old(nextId)))}
                && subjectInput == old(subjectInput)[old(nextId) := []]
                && nextId == old(nextId) + 1
      ensures subjectSubscriptionRegistry == old(subjectSubscriptionRegistry)
      ensures completed == old(completed) && liveSubscriptions == old(liveSubscriptions)
    {
      if topic in topicRegistry {
        return topicRegistry[topic].subject;
      }
      var subject := nextId;
      var operatedSubject := AddOperators(topic, subject);
      var mqemitterListener := Forward(subject);
      RegisterTopicKeepsInvariant(topicRegistry, mqListeners, subjectInput, completed,
                                  liveSubscriptions, subjectSubscriptionRegistry, SubjectTopic, nextId,
                                  topic, operatedSubject);
      nextId := nextId + 1;
      subjectInput := subjectInput[subject := []];
      var registration := TopicRegistration(operatedSubject, mqemitterListener, subject, {});
      topicRegistry := topicRegistry[topic := registration];
      SubjectTopic := SubjectTopic[subject := topic];
      mqListeners := mqListeners + {(topic, mqemitterListener)};
      stream := registration.subject;
    }

    /** The forwarder #getTopicSubject registers on the bus, invoked for a
        packet published on its topic: the packet is pushed into the topic's
        subject and the bus's callback is called once. Returns the number of
        callback calls. */
    method MqemitterListener(topic: Topic, packet: Value) returns (acks: nat)
      requires Valid() && topic in topicRegistry
      modifies this
      ensures Valid()
      ensures topicRegistry == old(topicRegistry) && mqListeners == old(mqListeners)
      ensures var s := topicRegistry[topic].originalSubject;
              s in old(subjectInput) && subjectInput == old(subjectInput)[s := old(subjectInput[s]) + [packet]]
      ensures acks == 1
      ensures subjectSubscriptionRegistry == old(subjectSubscriptionRegistry)
      ensures completed == old(completed) && liveSubscriptions == old(liveSubscriptions)
      ensures nextId == old(nextId)
    {
      var s := topicRegistry[topic].originalSubject;
      PushKeepsInvariant(topicRegistry, mqListeners, subjectInput, completed,
                         liveSubscriptions, subjectSubscriptionRegistry, SubjectTopic, nextId,
                         s, subjectInput[s] + [packet]);
      subjectInput := subjectInput[s := subjectInput[s] + [packet]];
      acks := 1;
    }

    /** The subscription interceptSubscribe opens on a topic's shared stream
        for a client function: a new live subscription to the stream's
        subject, which hands each delivered item to the function (Deliver). */
    method SubscribeStream(stream: SharedStream, func: ClientFunc) returns (subscription: Subscription)
      requires Valid() && stream.source !in completed
      modifies this
      ensures Valid()
      ensures subscription.source == stream.source && subscription.func == func
      ensures subscription !in old(liveSubscriptions)
      ensures liveSubscriptions == old(liveSubscriptions) + {subscription}
      ensures subscription.id < nextId
      ensures topicRegistry == old(topicRegistry) && subjectSubscriptionRegistry == old(subjectSubscriptionRegistry)
      ensures mqListeners == old(mqListeners) && subjectInput == old(subjectInput) && completed == old(completed)
    {
      subscription := Subscription(nextId, stream.source, func);
      SubscribeKeepsInvariant(topicRegistry, mqListeners, subjectInput, completed,
                              liveSubscriptions, subjectSubscriptionRegistry, SubjectTopic, nextId,
                              subscription);
      nextId := nextId + 1;
      liveSubscriptions := liveSubscriptions + {subscription};
    }

    /** The bookkeeping that ends interceptSubscribe: the subscription is
        stored under the client function (replacing any earlier one for the
        same function) and the function joins the topic's client set, which
        restores the reference counting. */
    method RegisterClient(topic: Topic, func: ClientFunc, subscription: Subscription)
      requires Valid() && topic in topicRegistry && subscription.id < nextId
      requires forall u | u in topicRegistry && u != topic :: topicRegistry[u].clientFuncRegistry != {}
      requires forall u, f | u in topicRegistry && f in topicRegistry[u].clientFuncRegistry :: f in subjectSubscriptionRegistry
      modifies this
      ensures Consistent()
      ensures subjectSubscriptionRegistry == old(subjectSubscriptionRegistry)[func := subscription]
      ensures topicRegistry == old(topicRegistry)[topic := old(topicRegistry[topic]).(clientFuncRegistry :=
                old(topicRegistry[topic].clientFuncRegistry) + {func})]
      ensures mqListeners == old(mqListeners) && subjectInput == old(subjectInput) && completed == old(completed)
      ensures liveSubscriptions == old(liveSubscriptions) && nextId == old(nextId)
    {
      JoinKeepsRefCounted(topicRegistry, subjectSubscriptionRegistry, topic, func, subscription);
      StoreSubscriptionKeepsInvariant(topicRegistry, mqListeners, subjectInput, completed,
                                      liveSubscriptions, subjectSubscriptionRegistry, SubjectTopic, nextId,
                                      func, subscription);
      subjectSubscriptionRegistry := subjectSubscriptionRegistry[func := subscription];
      var clients := topicRegistry[topic].clientFuncRegistry + {func};
      ClientsUpdateKeepsInvariant(topicRegistry, mqListeners, subjectInput, completed,
                                  liveSubscriptions, subjectSubscriptionRegistry, SubjectTopic, nextId,
                                  topic, clients);
      topicRegistry := WithClients(topicRegistry, topic, clients);
    }

    /** The non-wildcard path of interceptSubscribe: the topic's shared
        stream is fetched or built (GetTopicSubject), the function subscribes
        to it (SubscribeStream), then the subscription is stored under the
        function and the function joins the topic's client set
        (RegisterClient). */
    method SubscribeToTopic(topic: Topic, originalFunc: ClientFunc)
      requires Consistent() && !IsWildcard(topic)
      modifies this
      ensures Consistent()
      ensures completed == old(completed)
      ensures topic in topicRegistry && topicRegistry == old(topicRegistry)[topic := topicRegistry[topic]]
      ensures topic in old(topicRegistry) ==>
                && topicRegistry[topic] == old(topicRegistry[topic]).(clientFuncRegistry :=
                     old(topicRegistry[topic].clientFuncRegistry) + {originalFunc})
                && mqListeners == old(mqListeners) && subjectInput == old(subjectInput)
      ensures topic !in old(topicRegistry) ==>
                var s := topicRegistry[topic].originalSubject;
                && s !in old(subjectInput)
                && topicRegistry[topic] == TopicRegistration(AddOperators(topic, s), Forward(s), s, {originalFunc})
                && mqListeners == old(mqListeners) + {(topic, Forward(s))}
                && subjectInput == old(subjectInput)[s := []]
      ensures originalFunc in subjectSubscriptionRegistry
      ensures var sub := subjectSubscriptionRegistry[originalFunc];
              && subjectSubscriptionRegistry == old(subjectSubscriptionRegistry)[originalFunc := sub]
              && sub.source == topicRegistry[topic].originalSubject && sub.func == originalFunc
              && sub !in old(liveSubscriptions)
              && liveSubscriptions == old(liveSubscriptions) + {sub}
    {
      ghost var reg0 := topicRegistry;
      var subject := GetTopicSubject(topic);
      ghost var r0 := topicRegistry[topic];
      if topic in reg0 {
        UpdateSame(reg0, topic);
      }
      var subscription := SubscribeStream(subject, originalFunc);
      RegisterClient(topic, originalFunc, subscription);
      UpdateTwice(reg0, topic, r0, topicRegistry[topic]);
    }

    /** interceptSubscribe. A wildcard topic goes straight to the bus with the
        client's own function and leaves both registries alone. Otherwise the
        topic's shared stream is fetched or built, the function subscribes to
        it, the subscription is stored under the function and the function
        joins the topic's client set (SubscribeToTopic). Either way `done` is
        called once (by the bus on the wildcard path); the result counts those
        calls. */
    method InterceptSubscribe(topic: Topic, originalFunc: ClientFunc) returns (doneCalls: nat)
      requires Consistent()
      modifies this
      ensures Consistent()
      ensures doneCalls == 1
      ensures completed == old(completed)
      ensures IsWildcard(topic) ==>
                && mqListeners == old(mqListeners) + {(topic, Direct(originalFunc))}
                && topicRegistry == old(topicRegistry)
                && subjectSubscriptionRegistry == old(subjectSubscriptionRegistry)
                && liveSubscriptions == old(liveSubscriptions)
                && subjectInput == old(subjectInput)
      ensures !IsWildcard(topic) ==>
                && topic in topicRegistry
                && var r := topicRegistry[topic];
                   && topicRegistry == old(topicRegistry)[topic := r]
                   && (topic in old(topicRegistry) ==>
                         && r == old(topicRegistry[topic]).(clientFuncRegistry :=
                              old(topicRegistry[topic].clientFuncRegistry) + {originalFunc})
                         && mqListeners == old(mqListeners) && subjectInput == old(subjectInput))
                   && (topic !in old(topicRegistry) ==>
                         var s := r.originalSubject;
                         && s !in old(subjectInput)
                         && r == TopicRegistration(AddOperators(topic, s), Forward(s), s, {originalFunc})
                         && mqListeners == old(mqListeners) + {(topic, Forward(s))}
                         && subjectInput == old(subjectInput)[s := []])
                   && originalFunc in subjectSubscriptionRegistry
                   && var sub := subjectSubscriptionRegistry[originalFunc];
                      && subjectSubscriptionRegistry == old(subjectSubscriptionRegistry)[originalFunc := sub]
                      && sub.source == r.originalSubject && sub.func == originalFunc
                      && sub !in old(liveSubscriptions)
                      && liveSubscriptions == old(liveSubscriptions) + {sub}
    {
      if IsWildcard(topic) {
        DirectListenerKeepsInvariant(topicRegistry, mqListeners, subjectInput, completed,
                                     liveSubscriptions, subjectSubscriptionRegistry, SubjectTopic, nextId,
                                     topic, originalFunc);
        mqListeners := mqListeners + {(topic, Direct(originalFunc))};
        doneCalls := 1;
        return;
      }
      SubscribeToTopic(topic, originalFunc);
      doneCalls := 1;
    }

    /** The Rx subscription stored for a client function is unsubscribed; the
        registry entry itself stays. */
    method CancelSubscription(func: ClientFunc)
      requires Consistent() && func in subjectSubscriptionRegistry
      modifies this
      ensures Consistent()
      ensures liveSubscriptions == old(liveSubscriptions) - {old(subjectSubscriptionRegistry[func])}
      ensures topicRegistry == old(topicRegistry) && subjectSubscriptionRegistry == old(subjectSubscriptionRegistry)
      ensures mqListeners == old(mqListeners) && subjectInput == old(subjectInput) && completed == old(completed)
      ensures nextId == old(nextId)
    {
      var subscription := subjectSubscriptionRegistry[func];
      CancelKeepsInvariant(topicRegistry, mqListeners, subjectInput, completed,
                           liveSubscriptions, subjectSubscriptionRegistry, SubjectTopic, nextId,
                           subscription);
      liveSubscriptions := liveSubscriptions - {subscription};
    }

    /** The client function leaves the topic's client set; when no client is
        left, the forwarder leaves the bus, the subject is completed (which
        ends every subscription still attached to it) and the registration is
        deleted. */
    method ReleaseClient(topic: Topic, func: ClientFunc)
      requires Consistent() && topic in topicRegistry
      modifies this
      ensures Consistent()
      ensures var r := old(topicRegistry[topic]);
              var remaining := r.clientFuncRegistry - {func};
              && (remaining == {} ==>
                    && topicRegistry == old(topicRegistry) - {topic}
                    && mqListeners == old(mqListeners) - {(topic, r.mqemitterListener)}
                    && completed == old(completed) + {r.originalSubject}
                    && liveSubscriptions == old(liveSubscriptions) - AttachedTo(old(liveSubscriptions), r.originalSubject))
              && (remaining != {} ==>
                    && topicRegistry == old(topicRegistry)[topic := r.(clientFuncRegistry := remaining)]
                    && mqListeners == old(mqListeners)
                    && completed == old(completed)
                    && liveSubscriptions == old(liveSubscriptions))
      ensures subjectSubscriptionRegistry == old(subjectSubscriptionRegistry)
      ensures subjectInput == old(subjectInput)
      ensures nextId == old(nextId)
    {
      var registration := topicRegistry[topic];
      var clientFuncRegistry := registration.clientFuncRegistry - {func};
      LeaveKeepsRefCounted(topicRegistry, subjectSubscriptionRegistry, topic, func);
      if |clientFuncRegistry| < 1 {
        TeardownKeepsInvariant(topicRegistry, mqListeners, subjectInput, completed,
                               liveSubscriptions, subjectSubscriptionRegistry, SubjectTopic, nextId,
                               topic);
        mqListeners := mqListeners - {(topic, registration.mqemitterListener)};
        liveSubscriptions := liveSubscriptions - AttachedTo(liveSubscriptions, registration.originalSubject);
        completed := completed + {registration.originalSubject};
        topicRegistry := topicRegistry - {topic};
      } else {
        ClientsUpdateKeepsInvariant(topicRegistry, mqListeners, subjectInput, completed,
                                    liveSubscriptions, subjectSubscriptionRegistry, SubjectTopic, nextId,
                                    topic, clientFuncRegistry);
        topicRegistry := WithClients(topicRegistry, topic, clientFuncRegistry);
      }
    }

    /** interceptUnsubscribe. A wildcard topic only has the client's function
        removed from the bus. Otherwise the function's stored subscription is
        cancelled (CancelSubscription) and the function leaves the topic's
        client set; when that set becomes empty the forwarder leaves the bus,
        the subject is completed, ending every subscription still attached to
        it, and the registration is deleted, and otherwise the registration
        and forwarder stay (ReleaseClient). `done` is called once either way.
        The source dereferences the registration and the stored subscription
        without a check, so a non-wildcard topic must be registered and the
        function must have a stored subscription. */
    method InterceptUnsubscribe(topic: Topic, func: ClientFunc) returns (doneCalls: nat)
      requires Consistent()
      requires !IsWildcard(topic) ==> topic in topicRegistry && func in subjectSubscriptionRegistry
      modifies this
      ensures Consistent()
      ensures doneCalls == 1
      ensures subjectSubscriptionRegistry == old(subjectSubscriptionRegistry)
      ensures subjectInput == old(subjectInput) && nextId == old(nextId)
      ensures IsWildcard(topic) ==>
                && mqListeners == old(mqListeners) - {(topic, Direct(func))}
                && topicRegistry == old(topicRegistry)
                && liveSubscriptions == old(liveSubscriptions)
                && completed == old(completed)
      ensures !IsWildcard(topic) ==>
                && var cancelled := old(liveSubscriptions) - {old(subjectSubscriptionRegistry[func])};
                   var r := old(topicRegistry[topic]);
                   var remaining := r.clientFuncRegistry - {func};
                   && (remaining == {} ==>
                         && topicRegistry == old(topicRegistry) - {topic}
                         && mqListeners == old(mqListeners) - {(topic, r.mqemitterListener)}
                         && completed == old(completed) + {r.originalSubject}
                         && liveSubscriptions == cancelled - AttachedTo(cancelled, r.originalSubject))
                   && (remaining != {} ==>
                         && topicRegistry == old(topicRegistry)[topic := r.(clientFuncRegistry := remaining)]
                         && mqListeners == old(mqListeners)
                         && completed == old(completed)
                         && liveSubscriptions == cancelled)
    {
      if IsWildcard(topic) {
        DirectListenerKeepsInvariant(topicRegistry, mqListeners, subjectInput, completed,
                                     liveSubscriptions, subjectSubscriptionRegistry, SubjectTopic, nextId,
                                     topic, func);
        mqListeners := mqListeners - {(topic, Direct(func))};
        doneCalls := 1;
        return;
      }
      CancelSubscription(func);
      ReleaseClient(topic, func);
      doneCalls := 1;
    }
  }

  /** Clients 1 and 2 subscribe to "sensors/temp": one registration, one
      forwarder on the bus, both functions in the client set. */
  method TwoSubscribersOfOneTopic(config: map<Topic, TopicConfig>, compile: seq<char> -> Mapper)
    returns (eng: ChaosEng, subject: SubjectId)
    ensures fresh(eng) && eng.Consistent()
    ensures "sensors/temp" in eng.topicRegistry
    ensures eng.topicRegistry["sensors/temp"].clientFuncRegistry == {1, 2}
    ensures eng.topicRegistry["sensors/temp"].originalSubject == subject
    ensures eng.mqListeners == {("sensors/temp", Forward(subject))}
  {
    eng := new ChaosEng(config, compile);
    var topic: Topic := "sensors/temp";
    assert !IsWildcard(topic);
    var d := eng.InterceptSubscribe(topic, 1);
    subject := eng.topicRegistry[topic].originalSubject;
    assert eng.mqListeners == {(topic, Forward(subject))};
    assert eng.topicRegistry[topic].clientFuncRegistry == {1};
    d := eng.InterceptSubscribe(topic, 2);
  }

  /** Reference counting through the public operations: two client functions
      subscribe to one topic, which gets a single subject and forwarder; the
      first to leave keeps the topic alive, the second tears it down and
      completes the subject. */
  method RefCountScenario(config: map<Topic, TopicConfig>, compile: seq<char> -> Mapper)
    returns (subject: SubjectId, listenersWhileShared: set<(Topic, Listener)>,
             registeredAfterFirstLeaves: bool, registeredAfterBothLeave: bool, subjectCompleted: bool)
    ensures listenersWhileShared == {("sensors/temp", Forward(subject))}
    ensures registeredAfterFirstLeaves && !registeredAfterBothLeave && subjectCompleted
  {
    var eng: ChaosEng;
    var topic: Topic := "sensors/temp";
    eng, subject := TwoSubscribersOfOneTopic(config, compile);
    var s := subject;
    listenersWhileShared := eng.mqListeners;
    assert !IsWildcard(topic);
    assert {1, 2} - {1} == {2};
    var d := eng.InterceptUnsubscribe(topic, 1);
    assert eng.topicRegistry[topic].clientFuncRegistry == {2};
    assert eng.topicRegistry[topic].originalSubject == s;
    registeredAfterFirstLeaves := topic in eng.topicRegistry;
    d := eng.InterceptUnsubscribe(topic, 2);
    registeredAfterBothLeave := topic in eng.topicRegistry;
    subjectCompleted := s in eng.completed;
  }

  /** The subscription registry is keyed by the client function alone. When
      the broker passes the same function for two topics, the second topic's
      subscription replaces the first in the registry; leaving the first topic
      then cancels the second topic's subscription, and completing the first
      subject ends the first one. No subscription is left live, although the
      second topic stays registered with the function in its client set. */
  method SharedFunctionScenario(config: map<Topic, TopicConfig>, compile: seq<char> -> Mapper)
    returns (live: set<Subscription>, firstSubject: SubjectId, secondSubject: SubjectId,
             secondClients: Option<set<ClientFunc>>, firstCompleted: bool)
    ensures firstSubject != secondSubject
    ensures live == {}
    ensures secondClients == Some({7}) && firstCompleted
  {
    var eng := new ChaosEng(config, compile);
    var first: Topic := "a";
    var second: Topic := "b";
    assert !IsWildcard(first) && !IsWildcard(second) && first != second;
    var d := eng.InterceptSubscribe(first, 7);
    firstSubject := eng.topicRegistry[first].originalSubject;
    d := eng.InterceptSubscribe(second, 7);
    secondSubject := eng.topicRegistry[second].originalSubject;
    d := eng.InterceptUnsubscribe(first, 7);
    live := eng.liveSubscriptions;
    secondClients := if second in eng.topicRegistry then Some(eng.topicRegistry[second].clientFuncRegistry) else None;
    firstCompleted := firstSubject in eng.completed;
  }

  /** Clients 7 and 9 subscribe to topic "a", then 7 also to topic "b": the
      registry entry for 7 now holds the subscription to "b", while the one to
      "a" is still live. */
  method TwoClientsThenSharedFunction(config: map<Topic, TopicConfig>, compile: seq<char> -> Mapper)
    returns (eng: ChaosEng, firstSubject: SubjectId, firstSub: Subscription)
    ensures fresh(eng) && eng.Consistent()
    ensures "a" in eng.topicRegistry && eng.topicRegistry["a"].clientFuncRegistry == {7, 9}
    ensures eng.topicRegistry["a"].originalSubject == firstSubject
    ensures firstSub in eng.liveSubscriptions && firstSub.source == firstSubject && firstSub.func == 7
    ensures 7 in eng.subjectSubscriptionRegistry && eng.subjectSubscriptionRegistry[7] != firstSub
  {
    eng := new ChaosEng(config, compile);
    var first: Topic := "a";
    var second: Topic := "b";
    assert !IsWildcard(first) && !IsWildcard(second) && first != second;
    var d := eng.InterceptSubscribe(first, 7);
    firstSubject := eng.topicRegistry[first].originalSubject;
    firstSub := eng.subjectSubscriptionRegistry[7];
    assert eng.topicRegistry[first].clientFuncRegistry == {7};
    d := eng.InterceptSubscribe(first, 9);
    assert eng.topicRegistry[first].clientFuncRegistry == {7, 9};
    d := eng.InterceptSubscribe(second, 7);
  }

  /** As SharedFunctionScenario, but a second client stays on the first
      topic. The first topic's subject is then not completed, so the first
      subscription, overwritten in the registry, stays live on it. */
  method SharedFunctionOtherClientScenario(config: map<Topic, TopicConfig>, compile: seq<char> -> Mapper)
    returns (live: set<Subscription>, firstSubject: SubjectId, firstClients: Option<set<ClientFunc>>,
             firstCompleted: bool)
    ensures exists sub | sub in live :: sub.source == firstSubject && sub.func == 7
    ensures firstClients == Some({9}) && !firstCompleted
  {
    var eng, firstSub;
    eng, firstSubject, firstSub := TwoClientsThenSharedFunction(config, compile);
    var first: Topic := "a";
    assert !IsWildcard(first);
    assert {7, 9} - {7} == {9};
    var d := eng.InterceptUnsubscribe(first, 7);
    live := eng.liveSubscriptions;
    assert firstSub in live;
    firstClients := if first in eng.topicRegistry then Some(eng.topicRegistry[first].clientFuncRegistry) else None;
    firstCompleted := firstSubject in eng.completed;
  }
}
