/** The MQTT client as the core uses it (publish and subscribe, recorded in
    logs), and the broker's topic-filter matching of MQTT 3.1.1 section 4.7,
    which decides which published messages reach a subscriber. */
module Mqtt {
  import Strings

  /** One `publish(topic, payload, {qos, retain})` call. */
  datatype Message = Message(topic: string, payload: string, qos: nat, retain: bool)

  /** One `subscribe(filter, {qos})` call. */
  datatype Subscription = Subscription(filter: string, qos: nat)

  /** The client connection, shared by all handlers. Its state is the log of
      the publish and subscribe calls made on it, in call order. */
  class MqttClient {
    var published: seq<Message>
    var subscriptions: seq<Subscription>

    constructor ()
      ensures published == [] && subscriptions == []
    {
      published := [];
      subscriptions := [];
    }

    method Publish(topic: string, payload: string, qos: nat, retain: bool)
      modifies this
      ensures published == old(published) + [Message(topic, payload, qos, retain)]
      ensures subscriptions == old(subscriptions)
    {
      published := published + [Message(topic, payload, qos, retain)];
    }

    method Subscribe(filter: string, qos: nat)
      modifies this
      ensures subscriptions == old(subscriptions) + [Subscription(filter, qos)]
      ensures published == old(published)
    {
      subscriptions := subscriptions + [Subscription(filter, qos)];
    }
  }

  /** Level-by-level matching: `+` matches exactly one level, `#` matches
      any number of remaining levels, including none (so `sport/#` also
      matches `sport`, section 4.7.1.2). */
  predicate LevelsMatch(filter: seq<string>, levels: seq<string>)
    decreases |filter|
  {
    if |filter| == 0 then |levels| == 0
    else if filter[0] == "#" then true
    else if filter[0] == "+" then |levels| > 0 && LevelsMatch(filter[1..], levels[1..])
    else |levels| > 0 && levels[0] == filter[0] && LevelsMatch(filter[1..], levels[1..])
  }

  /** Whether the broker delivers a message on `topic` to a subscription with
      `filter`. A filter starting with a wildcard does not match a topic
      starting with `$` (section 4.7.2). */
  predicate TopicMatches(filter: string, topic: string)
  {
    && !(|filter| > 0 && (filter[0] == '#' || filter[0] == '+') && |topic| > 0 && topic[0] == '$')
    && LevelsMatch(Strings.Split(filter, '/'), Strings.Split(topic, '/'))
  }

  /** `device/#` matches exactly the topics whose first level is `device`. */
  lemma DeviceWildcard(topic: string)
    ensures TopicMatches("device/#", topic) <==> Strings.Split(topic, '/')[0] == "device"
  {
    assert "device/#" == Strings.Join(["device", "#"], '/');
    Strings.SplitJoin(["device", "#"], '/');
    var levels := Strings.Split(topic, '/');
    assert LevelsMatch(["#"], levels[1..]);
  }
}
