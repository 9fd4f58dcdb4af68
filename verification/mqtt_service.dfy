/**
  `MqttService`: the registry of known client ids and the routing of
  publishes onto MQTT topics.

  The Paho client the service wraps is abstract here: a `connected` flag,
  the sequence of messages it has accepted for publication (`outbox`) and
  the subscriptions it has made. What the broker answers to one publish or
  subscribe call is a parameter `fault`: `None` when the call goes through,
  `Some(code)` when the client throws an `MqttException` with that reason
  code.

  The first half of the module states each operation as a function from the
  old state to an outcome and a new state, with what the source promises of
  it, and proves invariants of every sequence of operations. The class
  `MqttService` at the end is the service itself, each method proved to
  follow its function.
 */
module Services {
  import opened Optional
  import opened Topics

  /** One message handed to the transport: topic, payload, QoS, retained flag. */
  datatype Publication = Publication(topic: string, payload: string, qos: int, retained: bool)

  /** One subscription made on the transport: topic filter and QoS. */
  datatype Subscription = Subscription(filter: string, qos: int)

  /** The three topic strings injected from configuration. */
  datatype Config = Config(allClientsTopic: string, clientTopicPrefix: string, sysTopic: string)

  /** Why a call failed: the `IllegalArgumentException` for an unregistered
      client, the `MqttException(REASON_CODE_CLIENT_EXCEPTION)` thrown when the
      client is not connected, or an `MqttException` from the transport,
      rethrown with its reason code unchanged. */
  datatype MqttError = UnknownClient(user: string) | ClientException | TransportFailure(reason: int)

  datatype Outcome = Ok | Failed(error: MqttError)

  /** Everything a call can observe or change. */
  datatype ServiceState = ServiceState(
    knownClients: set<string>,
    connected: bool,
    outbox: seq<Publication>,
    subscriptions: seq<Subscription>)

  /** The outcome of a call and the state after it. */
  datatype Step = Step(outcome: Outcome, next: ServiceState)

  /** The demo ids registered at construction. */
  const SeedClients: set<string> := {"subscriber1", "subscriber2", "subscriber3"}

  /** Every publish the service makes uses QoS 1 and is not retained. */
  const PublishQos: int := 1
  const PublishRetained: bool := false

  /** The system topics are subscribed with QoS 0. */
  const SysSubscriptionQos: int := 0

  // ----- The operations, one call each -----

  /** The state right after construction. */
  function Init(connected: bool): (s: ServiceState)
    ensures s.knownClients == SeedClients
    ensures s.connected == connected && s.outbox == [] && s.subscriptions == []
  {
    ServiceState({"subscriber1", "subscriber2", "subscriber3"}, connected, [], [])
  }

  /** `addKnownClient`: an idempotent insert that publishes nothing. */
  function AfterAdd(s: ServiceState, client: string): (t: ServiceState)
    ensures client in t.knownClients
    ensures t.knownClients == s.knownClients + {client}
    ensures client in s.knownClients ==> t == s
    ensures t.connected == s.connected && t.outbox == s.outbox && t.subscriptions == s.subscriptions
  {
    s.(knownClients := s.knownClients + {client})
  }

  /** `publishMessage`: refused with a client exception when not connected,
      otherwise handed to the transport, whose failure is passed on as is.
      Only a publish that succeeds adds to the outbox, and it adds exactly
      the one message asked for. */
  function PublishMessageStep(s: ServiceState, topic: string, message: string, qos: int, retained: bool,
                              fault: Option<int>): (r: Step)
    requires 0 <= qos <= 2
    ensures r.outcome.Ok? <==> s.connected && fault.None?
    ensures !s.connected ==> r.outcome == Failed(ClientException)
    ensures s.connected && fault.Some? ==> r.outcome == Failed(TransportFailure(fault.value))
    ensures r.outcome.Failed? ==> r.next == s
    ensures r.outcome.Ok? ==> r.next == s.(outbox := s.outbox + [Publication(topic, message, qos, retained)])
  {
    if !s.connected then
      Step(Failed(ClientException), s)
    else
      match fault
      case Some(code) => Step(Failed(TransportFailure(code)), s)
      case None => Step(Ok, s.(outbox := s.outbox + [Publication(topic, message, qos, retained)]))
  }

  /** `publishToAllClients`: one message on the broadcast topic, whatever the payload. */
  function PublishToAllClientsStep(config: Config, s: ServiceState, message: string, fault: Option<int>): (r: Step)
    ensures r.outcome.Ok? <==> s.connected && fault.None?
    ensures !s.connected ==> r.outcome == Failed(ClientException)
    ensures s.connected && fault.Some? ==> r.outcome == Failed(TransportFailure(fault.value))
    ensures r.outcome.Failed? ==> r.next == s
    ensures r.outcome.Ok? ==>
      r.next == s.(outbox := s.outbox + [Publication(config.allClientsTopic, message, PublishQos, PublishRetained)])
  {
    PublishMessageStep(s, config.allClientsTopic, message, PublishQos, PublishRetained, fault)
  }

  /** `publishToClient`: the membership check comes first, so an
      unregistered user is refused even when the client is disconnected,
      and nothing changes; a registered user gets one message on the
      prefix followed by the user id. */
  function PublishToClientStep(config: Config, s: ServiceState, user: string, message: string,
                               fault: Option<int>): (r: Step)
    ensures user !in s.knownClients ==> r == Step(Failed(UnknownClient(user)), s)
    ensures r.outcome == Failed(UnknownClient(user)) <==> user !in s.knownClients
    ensures user in s.knownClients && !s.connected ==> r.outcome == Failed(ClientException)
    ensures user in s.knownClients && s.connected && fault.Some? ==>
      r.outcome == Failed(TransportFailure(fault.value))
    ensures r.outcome.Ok? <==> user in s.knownClients && s.connected && fault.None?
    ensures r.outcome.Failed? ==> r.next == s
    ensures r.outcome.Ok? ==>
      r.next == s.(outbox := s.outbox + [Publication(ClientTopic(config.clientTopicPrefix, user), message,
                                                     PublishQos, PublishRetained)])
  {
    var topic := ClientTopic(config.clientTopicPrefix, user);
    if user !in s.knownClients then
      Step(Failed(UnknownClient(user)), s)
    else
      PublishMessageStep(s, topic, message, PublishQos, PublishRetained, fault)
  }

  /** `subscribeToSystemTopics`: one subscription to the configured system
      topic at QoS 0. The service does not look at the connection itself;
      a refusal by the transport is passed on and subscribes nothing. */
  function SubscribeStep(config: Config, s: ServiceState, fault: Option<int>): (r: Step)
    ensures r.outcome.Ok? <==> fault.None?
    ensures fault.Some? ==> r == Step(Failed(TransportFailure(fault.value)), s)
    ensures r.outcome.Ok? ==>
      r.next == s.(subscriptions := s.subscriptions + [Subscription(config.sysTopic, SysSubscriptionQos)])
  {
    match fault
    case Some(code) => Step(Failed(TransportFailure(code)), s)
    case None => Step(Ok, s.(subscriptions := s.subscriptions + [Subscription(config.sysTopic, SysSubscriptionQos)]))
  }

  /** The broadcast topic does not depend on the payload. */
  lemma BroadcastTopicIndependentOfPayload(config: Config, s: ServiceState, m1: string, m2: string)
    requires s.connected
    ensures PublishToAllClientsStep(config, s, m1, None).next.outbox[|s.outbox|].topic
         == PublishToAllClientsStep(config, s, m2, None).next.outbox[|s.outbox|].topic
         == config.allClientsTopic
  {
  }

  // ----- Sequences of operations -----

  /** Anything that can happen to the service: a call to one of its public
      operations, an inbound message, or the transport losing or regaining
      its connection on its own. */
  datatype Op =
    | AddKnownClient(client: string)
    | GetKnownClients
    | PublishToAllClients(message: string, fault: Option<int>)
    | PublishToClient(user: string, message: string, fault: Option<int>)
    | SubscribeToSystemTopics(fault: Option<int>)
    | MessageArrived(topic: string, payload: string)
    | ConnectionChanged(up: bool)

  function Apply(config: Config, s: ServiceState, op: Op): ServiceState {
    match op
    case AddKnownClient(c) => AfterAdd(s, c)
    case GetKnownClients => s
    case PublishToAllClients(m, f) => PublishToAllClientsStep(config, s, m, f).next
    case PublishToClient(u, m, f) => PublishToClientStep(config, s, u, m, f).next
    case SubscribeToSystemTopics(f) => SubscribeStep(config, s, f).next
    case MessageArrived(_, _) => s
    case ConnectionChanged(up) => s.(connected := up)
  }

  function Run(config: Config, s: ServiceState, ops: seq<Op>): ServiceState
    decreases |ops|
  {
    if ops == [] then s else Run(config, Apply(config, s, ops[0]), ops[1..])
  }

  /** `p` is a message the service may have sent while `clients` were
      registered: QoS 1, not retained, and on the broadcast topic or on the
      topic of a registered client. */
  predicate Routed(config: Config, clients: set<string>, p: Publication) {
    && p.qos == PublishQos
    && p.retained == PublishRetained
    && (|| p.topic == config.allClientsTopic
        || (var user := UserOfTopic(config.clientTopicPrefix, p.topic);
            user.Some? && user.value in clients))
  }

  /** What holds of every state the service reaches: every message sent was
      routed to the broadcast topic or to a registered client, and every
      subscription is the system topic at QoS 0. */
  predicate Invariant(config: Config, s: ServiceState) {
    && (forall i :: 0 <= i < |s.outbox| ==> Routed(config, s.knownClients, s.outbox[i]))
    && (forall i :: 0 <= i < |s.subscriptions| ==>
          s.subscriptions[i] == Subscription(config.sysTopic, SysSubscriptionQos))
  }

  lemma InitEstablishes(config: Config, connected: bool)
    ensures Invariant(config, Init(connected))
  {
  }

  lemma ApplyPreserves(config: Config, s: ServiceState, op: Op)
    requires Invariant(config, s)
    ensures Invariant(config, Apply(config, s, op))
  {
    match op
    case PublishToClient(u, m, f) =>
      ClientTopicRoundTrip(config.clientTopicPrefix, u);
    case _ =>
  }

  /** Whatever the service is asked and whatever the transport does, it
      never sends to an unregistered client, never uses another QoS or the
      retained flag, and subscribes to nothing but the system topic. */
  lemma {:induction false} RunPreserves(config: Config, s: ServiceState, ops: seq<Op>)
    requires Invariant(config, s)
    ensures Invariant(config, Run(config, s, ops))
    decreases |ops|
  {
    if ops != [] {
      ApplyPreserves(config, s, ops[0]);
      RunPreserves(config, Apply(config, s, ops[0]), ops[1..]);
    }
  }

  /** No client is ever removed, and messages and subscriptions are only
      ever appended. */
  lemma {:induction false} RunGrows(config: Config, s: ServiceState, ops: seq<Op>)
    ensures s.knownClients <= Run(config, s, ops).knownClients
    ensures |s.outbox| <= |Run(config, s, ops).outbox|
    ensures Run(config, s, ops).outbox[..|s.outbox|] == s.outbox
    ensures |s.subscriptions| <= |Run(config, s, ops).subscriptions|
    ensures Run(config, s, ops).subscriptions[..|s.subscriptions|] == s.subscriptions
    decreases |ops|
  {
    if ops != [] {
      var t := Apply(config, s, ops[0]);
      RunGrows(config, t, ops[1..]);
      var u := Run(config, t, ops[1..]);
      assert u.outbox[..|s.outbox|] == u.outbox[..|t.outbox|][..|s.outbox|];
      assert u.subscriptions[..|s.subscriptions|] == u.subscriptions[..|t.subscriptions|][..|s.subscriptions|];
    }
  }

  /** The ids added by a run of add calls. */
  function AddedClients(ops: seq<Op>): set<string> {
    set i | 0 <= i < |ops| && ops[i].AddKnownClient? :: ops[i].client
  }

  /** After any run of add calls, every added id is registered, nothing else
      is added, and nothing is published or subscribed. */
  lemma {:induction false} RunOfAdds(config: Config, s: ServiceState, ops: seq<Op>)
    requires forall i :: 0 <= i < |ops| ==> ops[i].AddKnownClient?
    ensures Run(config, s, ops).knownClients == s.knownClients + AddedClients(ops)
    ensures Run(config, s, ops).outbox == s.outbox
    ensures Run(config, s, ops).subscriptions == s.subscriptions
    decreases |ops|
  {
    if ops != [] {
      RunOfAdds(config, Apply(config, s, ops[0]), ops[1..]);
      assert AddedClients(ops) == {ops[0].client} + AddedClients(ops[1..]) by {
        forall c | c in AddedClients(ops) ensures c in {ops[0].client} + AddedClients(ops[1..]) {
          var i :| 0 <= i < |ops| && ops[i].AddKnownClient? && ops[i].client == c;
          if i > 0 {
            assert ops[1..][i - 1] == ops[i];
          }
        }
        forall c | c in AddedClients(ops[1..]) ensures c in AddedClients(ops) {
          var i :| 0 <= i < |ops[1..]| && ops[1..][i].AddKnownClient? && ops[1..][i].client == c;
          assert ops[i + 1] == ops[1..][i];
        }
      }
    }
  }

  // ----- The service -----

  class MqttService {
    const config: Config
    var knownClients: set<string>
    /** The Paho client's `isConnected()`; the transport changes it on its own. */
    var connected: bool
    ghost var outbox: seq<Publication>
    ghost var subscriptions: seq<Subscription>

    ghost function View(): ServiceState
      reads this
    {
      ServiceState(knownClients, connected, outbox, subscriptions)
    }

    /** Built around an already connected (or not) client, with the demo ids registered. */
    constructor (config: Config, connected: bool)
      ensures this.config == config
      ensures View() == Init(connected)
    {
      this.config := config;
      this.connected := connected;
      knownClients := {};
      outbox := [];
      subscriptions := [];
      new;
      knownClients := knownClients + {"subscriber1"};
      knownClients := knownClients + {"subscriber2"};
      knownClients := knownClients + {"subscriber3"};
    }

    method AddKnownClient(client: string)
      modifies this`knownClients
      ensures View() == AfterAdd(old(View()), client)
    {
      knownClients := knownClients + {client};
    }

    /** A snapshot of the registry; reading it changes nothing. */
    method GetKnownClients() returns (clients: set<string>)
      ensures clients == knownClients
    {
      clients := knownClients;
    }

    method PublishMessage(topic: string, message: string, qos: int, retained: bool, fault: Option<int>)
      returns (outcome: Outcome)
      requires 0 <= qos <= 2
      modifies this`outbox
      ensures Step(outcome, View()) == PublishMessageStep(old(View()), topic, message, qos, retained, fault)
    {
      if !connected {
        return Failed(ClientException);
      }
      var publication := Publication(topic, message, qos, retained);
      match fault {
        case Some(code) =>
          outcome := Failed(TransportFailure(code));
        case None =>
          outbox := outbox + [publication];
          outcome := Ok;
      }
    }

    method PublishToAllClients(message: string, fault: Option<int>) returns (outcome: Outcome)
      modifies this`outbox
      ensures Step(outcome, View()) == PublishToAllClientsStep(config, old(View()), message, fault)
    {
      outcome := PublishMessage(config.allClientsTopic, message, PublishQos, PublishRetained, fault);
    }

    method PublishToClient(user: string, message: string, fault: Option<int>) returns (outcome: Outcome)
      modifies this`outbox
      ensures Step(outcome, View()) == PublishToClientStep(config, old(View()), user, message, fault)
    {
      var topic := ClientTopic(config.clientTopicPrefix, user);
      if user !in knownClients {
        return Failed(UnknownClient(user));
      }
      outcome := PublishMessage(topic, message, PublishQos, PublishRetained, fault);
    }

    method SubscribeToSystemTopics(fault: Option<int>) returns (outcome: Outcome)
      modifies this`subscriptions
      ensures Step(outcome, View()) == SubscribeStep(config, old(View()), fault)
    {
      match fault {
        case Some(code) =>
          outcome := Failed(TransportFailure(code));
        case None =>
          subscriptions := subscriptions + [Subscription(config.sysTopic, SysSubscriptionQos)];
          outcome := Ok;
      }
    }

    /** The level an inbound message is logged at; nothing else happens. */
    method MessageArrived(topic: string, payload: string) returns (level: LogLevel)
      ensures level == Info <==> StartsWith(topic, SysPrefix)
    {
      level := Classify(topic);
    }
  }

  /** A caller's view: with the demo registry, a publish to an id never
      added is refused as unknown, and the registry and the outbox stay as
      they were, connected or not. */
  method UnknownSubscriberIsRefused(config: Config, connected: bool)
  {
    var service := new MqttService(config, connected);
    var outcome := service.PublishToClient("subscriber4", "hi", None);
    assert outcome == Failed(UnknownClient("subscriber4"));
    assert service.knownClients == SeedClients && service.outbox == [];
    service.AddKnownClient("subscriber4");
    service.AddKnownClient("subscriber4");
    var clients := service.GetKnownClients();
    assert clients == SeedClients + {"subscriber4"};
  }
}
