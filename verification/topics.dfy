/**
  The pure string logic of the MQTT service: how a per-client topic is built
  from the configured prefix, how a topic is taken apart again, and how an
  inbound message is classified for logging by the "$SYS/" namespace.
 */
module Topics {
  import opened Optional

  /** The broker's reserved namespace for system information. */
  const SysPrefix: string := "$SYS/"

  /** `s.startsWith(prefix)` in Java. */
  predicate StartsWith(s: string, prefix: string)
    ensures StartsWith(s, prefix) <==> exists rest :: s == prefix + rest
  {
    if |prefix| <= |s| && s[..|prefix|] == prefix then
      assert s == prefix + s[|prefix|..];
      true
    else
      assert forall rest :: (prefix + rest)[..|prefix|] == prefix;
      false
  }

  /** The topic a message for `user` is published on: the configured prefix
      followed by the user id, with no escaping and no separator. */
  function ClientTopic(prefix: string, user: string): (topic: string)
    ensures |topic| == |prefix| + |user|
    ensures StartsWith(topic, prefix)
    ensures topic[|prefix|..] == user
  {
    prefix + user
  }

  /** The user a per-client topic was built for, if the topic lies under the prefix. */
  function UserOfTopic(prefix: string, topic: string): (user: Option<string>)
    ensures user.Some? <==> StartsWith(topic, prefix)
    ensures user.Some? ==> ClientTopic(prefix, user.value) == topic
  {
    if StartsWith(topic, prefix) then
      assert topic == topic[..|prefix|] + topic[|prefix|..];
      Some(topic[|prefix|..])
    else
      None
  }

  /** Taking a per-client topic apart gives back the user it was built for. */
  lemma ClientTopicRoundTrip(prefix: string, user: string)
    ensures UserOfTopic(prefix, ClientTopic(prefix, user)) == Some(user)
  {
  }

  /** Under one prefix, distinct users are routed to distinct topics. */
  lemma ClientTopicInjective(prefix: string, user1: string, user2: string)
    ensures ClientTopic(prefix, user1) == ClientTopic(prefix, user2) <==> user1 == user2
  {
  }

  /** The log level an inbound message is reported at. */
  datatype LogLevel = Info | Debug

  /** The level `messageArrived` logs a message on `topic` at: system
      information at Info, everything else at Debug. */
  function Classify(topic: string): (level: LogLevel)
    ensures level == Info <==> StartsWith(topic, SysPrefix)
  {
    if StartsWith(topic, SysPrefix) then Info else Debug
  }

  /** A message is logged as system information exactly when its topic is
      "$SYS/" followed by something (possibly nothing). */
  lemma ClassifyInfoIff(topic: string)
    ensures Classify(topic) == Info <==> exists rest :: topic == SysPrefix + rest
  {
    if exists rest :: topic == SysPrefix + rest {
      var rest :| topic == SysPrefix + rest;
      assert topic[..|SysPrefix|] == SysPrefix;
    }
    if StartsWith(topic, SysPrefix) {
      assert topic == SysPrefix + topic[|SysPrefix|..];
    }
  }
}
