# MQTT publisher service, modelled in Dafny

The MQTT publisher is a small HTTP-to-MQTT bridge. Its core is `MqttService`. The service keeps a registry of known client ids, seeded with three demo ids. It publishes a message either to a fixed broadcast topic or to a per-client topic, which is the configured prefix followed by the client id. A per-client publish is allowed only for a registered id. The service also subscribes to the broker's system topics. It logs each inbound message at Info level when its topic starts with `$SYS/`, and at Debug level otherwise. The request body of a publish, `MessageRequest`, carries the message, a QoS and a retained flag. Validation requires the message to be non-blank and 1 to 1000 characters long.

The project has four files:

- `optional.dfy`: `Option`, for a Java reference that may be null and for a builder field that may be left unset.
- `topics.dfy` (module `Topics`): the pure string logic. It covers per-client topic construction and its inverse, and the `$SYS/` classification.
- `message_request.dfy` (module `Dto`): the request datatype, its defaults and its two constraints. The `@NotBlank` constraint is decided the way Hibernate Validator's reference implementation decides it: the message is not null and `String.trim()` leaves something. So `String.trim()` is modelled too.
- `mqtt_service.dfy` (module `Services`): the service itself.
  - Each operation is first stated as a function from the old state to an outcome and a new state, together with what the source promises of it.
  - An operation trace `Run` applies any sequence of calls, inbound messages and connection changes. Lemmas prove invariants of every such trace.
  - The class `MqttService` has the registry as a `set<string>` field that its methods reassign. Each of its methods is proved to follow its function.
  - The method `UnknownSubscriberIsRefused` is a caller's scenario. It builds the service with its demo registry and publishes to the unregistered id "subscriber4". The publish is refused as unknown, and the registry and outbox stay unchanged. It uses only the class's contracts.

The Paho client is abstract. It is a `connected` flag, a ghost `outbox` of the `(topic, payload, qos, retained)` messages it accepted, and a ghost list of subscriptions. What the transport answers to one publish or subscribe call is the parameter `fault`. `None` means the call goes through. `Some(code)` means Paho throws an `MqttException` with that reason code. The service rethrows that exception unchanged.

## Model

| member | source | states |
|---|---|---|
| `Topics.StartsWith` | mqtt_publisher/src/main/java/cool/cfapps/mqtt_publisher/services/MqttService.java:142 | `topic.startsWith(prefix)` holds if and only if the topic is the prefix followed by some string |
| `Topics.ClientTopic` | mqtt_publisher/src/main/java/cool/cfapps/mqtt_publisher/services/MqttService.java:66 | the per-client topic starts with the prefix, and the rest of it is exactly the user id |
| `Topics.UserOfTopic` | mqtt_publisher/src/main/java/cool/cfapps/mqtt_publisher/services/MqttService.java:66 | the inverse of topic construction: a topic under the prefix gives back the user it was built for, and any other topic gives none |
| `Topics.ClientTopicRoundTrip` | mqtt_publisher/src/main/java/cool/cfapps/mqtt_publisher/services/MqttService.java:66 | taking a per-client topic apart returns the same user |
| `Topics.ClientTopicInjective` | mqtt_publisher/src/main/java/cool/cfapps/mqtt_publisher/services/MqttService.java:66 | under one prefix, two users share a topic if and only if they are the same user |
| `Topics.Classify` | mqtt_publisher/src/main/java/cool/cfapps/mqtt_publisher/services/MqttService.java:138-147 | an inbound message is logged at Info exactly when its topic starts with "$SYS/", and at Debug otherwise |
| `Topics.ClassifyInfoIff` | mqtt_publisher/src/main/java/cool/cfapps/mqtt_publisher/services/MqttService.java:142 | Info level if and only if the topic is "$SYS/" followed by some string |
| `Dto.Empty` | mqtt_publisher/src/main/java/cool/cfapps/mqtt_publisher/dto/MessageRequest.java:10-26 | a request bound with no fields has a null message, QoS 1 and retained false |
| `Dto.Build` | mqtt_publisher/src/main/java/cool/cfapps/mqtt_publisher/dto/MessageRequest.java:21-26 | a builder field left unset takes its default (QoS 1, retained false); a set field keeps its value; the message has no default |
| `Dto.Trim` | mqtt_publisher/src/main/java/cool/cfapps/mqtt_publisher/dto/MessageRequest.java:16 | `String.trim()`: the result is a contiguous piece of the message, and everything cut off before and after it is characters up to U+0020 |
| `Dto.TrimStart` | mqtt_publisher/src/main/java/cool/cfapps/mqtt_publisher/dto/MessageRequest.java:16 | drops exactly the leading characters up to U+0020; the result is empty if and only if every character is such a character |
| `Dto.TrimEnd` | mqtt_publisher/src/main/java/cool/cfapps/mqtt_publisher/dto/MessageRequest.java:16 | drops exactly the trailing characters up to U+0020; the result is empty if and only if every character is such a character |
| `Dto.TrimSpec` | mqtt_publisher/src/main/java/cool/cfapps/mqtt_publisher/dto/MessageRequest.java:16 | the trimmed message is empty if and only if every character is at or below U+0020; otherwise it starts and ends with a character above U+0020 |
| `Dto.NotBlank` | mqtt_publisher/src/main/java/cool/cfapps/mqtt_publisher/dto/MessageRequest.java:16 | `@NotBlank` holds if and only if the message is non-null and holds a character above U+0020 |
| `Dto.SizeInRange` | mqtt_publisher/src/main/java/cool/cfapps/mqtt_publisher/dto/MessageRequest.java:17 | `@Size(min = 1, max = 1000)`: a null message passes; a non-null one passes if and only if its length is 1 to 1000 |
| `Dto.IsValid` | mqtt_publisher/src/main/java/cool/cfapps/mqtt_publisher/dto/MessageRequest.java:16-18 | a request is accepted if and only if its message is non-blank and at most 1000 characters long; the lower size bound adds nothing |
| `Dto.Violations` | mqtt_publisher/src/main/java/cool/cfapps/mqtt_publisher/dto/MessageRequest.java:16-18 | Blank is reported if and only if the message is null or blank; SizeOutOfRange if and only if a non-null message has a length outside 1..1000 |
| `Dto.ValidIff` | mqtt_publisher/src/main/java/cool/cfapps/mqtt_publisher/dto/MessageRequest.java:16-18 | a request is accepted if and only if its message is non-null, at most 1000 characters long and holds a character above U+0020 |
| `Dto.NotBlankImpliesNonEmpty` | mqtt_publisher/src/main/java/cool/cfapps/mqtt_publisher/dto/MessageRequest.java:16-17 | a non-blank message has at least one character, so non-blank alone gives the lower size bound |
| `Dto.ValidBounds` | mqtt_publisher/src/main/java/cool/cfapps/mqtt_publisher/dto/MessageRequest.java:16-18 | every accepted message has length between 1 and 1000 and holds a character above U+0020 |
| `Dto.BlankRejected` | mqtt_publisher/src/main/java/cool/cfapps/mqtt_publisher/dto/MessageRequest.java:16 | a null message, or one whose characters are all at or below U+0020, is rejected as blank |
| `Dto.SizeRejected` | mqtt_publisher/src/main/java/cool/cfapps/mqtt_publisher/dto/MessageRequest.java:17 | a message shorter than 1 or longer than 1000 is rejected for its size; the empty message breaks both constraints |
| `Dto.ValidityIgnoresQosAndRetained` | mqtt_publisher/src/main/java/cool/cfapps/mqtt_publisher/dto/MessageRequest.java:20-26 | validity depends on the message only: any int QoS and either retained flag are accepted |
| `Services.Init` | mqtt_publisher/src/main/java/cool/cfapps/mqtt_publisher/services/MqttService.java:46-48 | right after construction the registry is exactly {subscriber1, subscriber2, subscriber3}, with nothing published or subscribed |
| `Services.AfterAdd` | mqtt_publisher/src/main/java/cool/cfapps/mqtt_publisher/services/MqttService.java:92-95 | after an add the id is registered and the registry is the old one plus that id; re-adding a registered id changes nothing; nothing is published |
| `Services.PublishMessageStep` | mqtt_publisher/src/main/java/cool/cfapps/mqtt_publisher/services/MqttService.java:107-124 | for a QoS of 0, 1 or 2: succeeds if and only if connected and the transport accepts; when disconnected, fails with the client exception; a transport failure is passed on unchanged; a failure changes nothing; a success appends exactly the one message asked for |
| `Services.PublishToAllClientsStep` | mqtt_publisher/src/main/java/cool/cfapps/mqtt_publisher/services/MqttService.java:56-60 | when disconnected, fails with the client exception; a transport failure is passed on unchanged; a success appends exactly (broadcast topic, message, QoS 1, not retained); a failure changes nothing |
| `Services.PublishToClientStep` | mqtt_publisher/src/main/java/cool/cfapps/mqtt_publisher/services/MqttService.java:65-77 | the call fails as unknown if and only if the user is unregistered, with no change, even when disconnected (the membership check comes first); a registered user gets the client exception when disconnected, or the transport failure unchanged; a success appends exactly (prefix + user, message, QoS 1, not retained) |
| `Services.SubscribeStep` | mqtt_publisher/src/main/java/cool/cfapps/mqtt_publisher/services/MqttService.java:82-87 | a success appends exactly one subscription to the system topic at QoS 0; a transport failure is passed on and subscribes nothing |
| `Services.BroadcastTopicIndependentOfPayload` | mqtt_publisher/src/main/java/cool/cfapps/mqtt_publisher/services/MqttService.java:56-58 | two broadcasts with different payloads go to the same topic, the broadcast topic |
| `Services.InitEstablishes` | mqtt_publisher/src/main/java/cool/cfapps/mqtt_publisher/services/MqttService.java:38-51 | the freshly built service satisfies the routing invariant |
| `Services.ApplyPreserves` | mqtt_publisher/src/main/java/cool/cfapps/mqtt_publisher/services/MqttService.java:56-124 | any single call, inbound message or connection change keeps the routing invariant |
| `Services.RunPreserves` | mqtt_publisher/src/main/java/cool/cfapps/mqtt_publisher/services/MqttService.java:56-124 | after any sequence of operations, every message sent went to the broadcast topic or to a client registered at that point, with QoS 1 and not retained, and every subscription is the system topic at QoS 0 |
| `Services.RunGrows` | mqtt_publisher/src/main/java/cool/cfapps/mqtt_publisher/services/MqttService.java:92-124 | no id is ever removed, and messages and subscriptions are only ever appended |
| `Services.RunOfAdds` | mqtt_publisher/src/main/java/cool/cfapps/mqtt_publisher/services/MqttService.java:92-95 | after any sequence of adds, the registry is the old one plus every added id, so every added id is present, and nothing is published |
| `Services.MqttService.constructor` | mqtt_publisher/src/main/java/cool/cfapps/mqtt_publisher/services/MqttService.java:38-51 | the registry is seeded with the three demo ids, and the outbox and subscriptions are empty |
| `Services.MqttService.AddKnownClient` | mqtt_publisher/src/main/java/cool/cfapps/mqtt_publisher/services/MqttService.java:92-95 | the new state is the one `AfterAdd` gives, and only the registry field may change |
| `Services.MqttService.GetKnownClients` | mqtt_publisher/src/main/java/cool/cfapps/mqtt_publisher/services/MqttService.java:100-102 | returns a snapshot equal to the registry and changes nothing |
| `Services.MqttService.PublishMessage` | mqtt_publisher/src/main/java/cool/cfapps/mqtt_publisher/services/MqttService.java:107-124 | outcome and new state are those of `PublishMessageStep` |
| `Services.MqttService.PublishToAllClients` | mqtt_publisher/src/main/java/cool/cfapps/mqtt_publisher/services/MqttService.java:56-60 | outcome and new state are those of `PublishToAllClientsStep` |
| `Services.MqttService.PublishToClient` | mqtt_publisher/src/main/java/cool/cfapps/mqtt_publisher/services/MqttService.java:65-77 | outcome and new state are those of `PublishToClientStep` |
| `Services.MqttService.SubscribeToSystemTopics` | mqtt_publisher/src/main/java/cool/cfapps/mqtt_publisher/services/MqttService.java:82-87 | outcome and new state are those of `SubscribeStep` |
| `Services.MqttService.MessageArrived` | mqtt_publisher/src/main/java/cool/cfapps/mqtt_publisher/services/MqttService.java:138-147 | logs at Info exactly for "$SYS/" topics and changes nothing |

## Left out

- Connection setup and teardown (`config/MqttConfig.java`) are not modelled. They are network I/O through the Paho library. The model takes the initial connection state as a constructor argument, and `ConnectionChanged` stands for the library connecting or disconnecting on its own.
- The HTTP controller and the response envelope (`controller/MqttController.java`, `dto/ApiResponse.java`) are not modelled. They are framework glue: status codes, timestamps and JSON serialisation. The `MqttError` cases keep the distinction they map from.
- The Paho client's internals (publish, subscribe, `isConnected`, auto-reconnect) are not modelled. The abstract client is described above. Paho's own refusal of a subscribe while disconnected is library code, so it reaches the model only through `fault`.
- The registry is a concurrent set in the source. The model is sequential, so interleavings of concurrent calls and the check-then-act window in `publishToClient` are not captured.
- The payload is `message.getBytes()` in the platform charset. The model keeps it as the string.
- The log-only callbacks `disconnected`, `mqttErrorOccurred`, `deliveryComplete`, `connectComplete` and `authPacketArrived` are not modelled. They have no effect beyond a log line. Log text is not modelled either: `messageArrived` is reduced to the chosen level.
- A publish that throws is modelled as delivering nothing. A partial send before a transport failure is not captured.
- Message lengths count Dafny characters (Unicode scalar values). Java's `String.length()` counts UTF-16 code units, so a message with characters outside the Basic Multilingual Plane is counted differently.
- Hibernate Validator is not part of this model. Its `@NotBlank` rule (`trim()` leaves something) and its `@Size` rule (null passes) are restated in `Dto`.
- The QoS comment on the request says "0, 1, or 2", but no constraint enforces it. The model follows the code and accepts any 32-bit int. The request's QoS and retained flag never reach the service, which always publishes with QoS 1 and retained false.
- Services.PublishToClientStep: Paho's `publish` also throws `IllegalArgumentException`, and the model does not capture it. It does so for a topic that holds the wildcard `+` or `#`. `addKnownClient` accepts any id, so a registered id such as `a+b` gives such a topic. In the source, that exception is then reported the same way as an unregistered client. The model treats every publish as accepted or failed with an `MqttException` code.
- Services.PublishMessageStep: `MqttMessage.setQos` rejects a QoS outside 0 to 2 with `IllegalArgumentException`. The model requires a QoS in that range instead; both callers in the source pass 1.
- `@NotBlank` as modelled only counts characters at or below U+0020 as blank, as `String.trim()` does. A message made only of Unicode spaces above U+0020, such as U+3000, passes. A message made only of control characters such as U+0001 is rejected.
