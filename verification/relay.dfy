/** The telemetry relay (mqtt_subscribe.js): it subscribes to every device
    topic, picks out fan-speed and brightness pushes by topic position, and
    forwards each as one HTTP PUT of the raw payload to the openHAB item
    that mirrors the attribute. */
module Relay {
  import opened Wrappers
  import Strings
  import opened Config
  import opened Mqtt
  import Device
  import Endpoints

  /** The subscription made once at setup (MQTT 3.1.1 section 4.7.1.2). */
  const DeviceFilter: string := "device/#"

  /** The two attributes the relay forwards. */
  datatype Attribute = FanSpeed | Brightness

  /** The attribute's name as a topic level. */
  function TopicName(a: Attribute): string
  {
    match a
    case FanSpeed => "fan_speed"
    case Brightness => "brightness"
  }

  /** The attribute's name as the last part of an openHAB item name. */
  function ItemSuffix(a: Attribute): string
  {
    match a
    case FanSpeed => "fanspeed"
    case Brightness => "brightness"
  }

  /** A recognised push: the device identifier and the attribute. */
  datatype TelemetryEvent = TelemetryEvent(deviceId: string, attribute: Attribute)

  /** The message handler's filter. A topic is relayed iff it has at least
      five levels, the fifth is `push` and the fourth names one of the two
      attributes; the identifier is the second level, taken as it is. */
  function ParseTopic(topic: string): (e: Option<TelemetryEvent>)
    ensures var parts := Strings.Split(topic, '/');
      && (e.Some? <==> |parts| >= 5 && parts[4] == "push" &&
                       (parts[3] == "fan_speed" || parts[3] == "brightness"))
      && (e.Some? ==> e.value.deviceId == parts[1] && TopicName(e.value.attribute) == parts[3])
  {
    var parts := Strings.Split(topic, '/');
    if |parts| < 5 || parts[4] != "push" then None
    else if parts[3] == "fan_speed" then Some(TelemetryEvent(parts[1], FanSpeed))
    else if parts[3] == "brightness" then Some(TelemetryEvent(parts[1], Brightness))
    else None
  }

  /** Any topic made of `/`-free levels whose second level is the
      identifier, fourth the attribute and fifth `push` is relayed: the
      first and third levels are not looked at, and further levels do not
      matter. */
  lemma RelayedTopicShape(levels: seq<string>, a: Attribute)
    requires |levels| >= 5 && levels[3] == TopicName(a) && levels[4] == "push"
    requires forall i | 0 <= i < |levels| :: '/' !in levels[i]
    ensures ParseTopic(Strings.Join(levels, '/')) == Some(TelemetryEvent(levels[1], a))
  {
    Strings.SplitJoin(levels, '/');
  }

  /** The topic a device pushes an attribute change on. */
  function PushTopic(id: string, a: Attribute): string
  {
    "device/" + id + "/attribute/" + TopicName(a) + "/push"
  }

  /** A push topic is the five levels `device`, the id, `attribute`, the
      attribute's topic name and `push`, joined with `/`. */
  lemma PushTopicJoin(id: string, name: string)
    ensures "device/" + id + "/attribute/" + name + "/push"
         == Strings.Join(["device", id, "attribute", name, "push"], '/')
  {
    var t4 := [name, "push"];
    var t3 := ["attribute"] + t4;
    var t2 := [id] + t3;
    var t1 := ["device"] + t2;
    assert t4[1..] == ["push"] && t3[1..] == t4 && t2[1..] == t3 && t1[1..] == t2;
    var j4 := name + "/" + "push";
    var j3 := "attribute" + "/" + j4;
    var j2 := id + "/" + j3;
    assert Strings.Join(t4, '/') == j4;
    assert Strings.Join(t3, '/') == j3;
    assert Strings.Join(t2, '/') == j2;
    assert Strings.Join(t1, '/') == "device" + "/" + j2;
    assert t1 == ["device", id, "attribute", name, "push"];
  }

  /** A device's push is delivered under the subscription and relayed with
      its own identifier and attribute. */
  lemma DevicePushRelayed(id: string, a: Attribute)
    requires '/' !in id
    ensures TopicMatches(DeviceFilter, PushTopic(id, a))
    ensures ParseTopic(PushTopic(id, a)) == Some(TelemetryEvent(id, a))
  {
    var parts := ["device", id, "attribute", TopicName(a), "push"];
    PushTopicJoin(id, TopicName(a));
    assert PushTopic(id, a) == Strings.Join(parts, '/');
    assert '/' !in TopicName(a);
    RelayedTopicShape(parts, a);
    Strings.SplitJoin(parts, '/');
    DeviceWildcard(PushTopic(id, a));
  }

  /** The gateway's own publishes come back to it under `device/#`, but none
      is relayed: their topics have fewer than five levels. */
  lemma GatewayPublishesNotRelayed(id: string, attribute: string)
    requires Device.IsValidDeviceId(id) && '/' !in attribute
    ensures TopicMatches(DeviceFilter, Endpoints.HelloTopic(id))
    ensures TopicMatches(DeviceFilter, Endpoints.AttributeTopic(id, attribute))
    ensures ParseTopic(Endpoints.HelloTopic(id)).None?
    ensures ParseTopic(Endpoints.AttributeTopic(id, attribute)).None?
  {
    Device.ValidIdSeparators(id);
    Endpoints.TopicLevels(id, attribute);
    DeviceWildcard(Endpoints.HelloTopic(id));
    DeviceWildcard(Endpoints.AttributeTopic(id, attribute));
  }

  /** `updateOpenHABItem`'s item name; `None` is its "unsupported attribute"
      branch, which sends nothing. */
  function ItemName(deviceId: string, attribute: string): Option<string>
  {
    if attribute == "fan_speed" then Some("BlueAir_" + deviceId + "_fanspeed")
    else if attribute == "brightness" then Some("BlueAir_" + deviceId + "_brightness")
    else None
  }

  /** Exactly the two attribute names have an item, `BlueAir_{id}_{suffix}`. */
  lemma ItemNameOfAttribute(deviceId: string, attribute: string)
    ensures ItemName(deviceId, attribute).Some? <==>
            attribute == TopicName(FanSpeed) || attribute == TopicName(Brightness)
    ensures forall a :: attribute == TopicName(a) ==>
              ItemName(deviceId, attribute) == Some("BlueAir_" + deviceId + "_" + ItemSuffix(a))
  {
    var prefix := "BlueAir_" + deviceId;
    assert prefix + "_fanspeed" == "BlueAir_" + deviceId + "_" + ItemSuffix(FanSpeed);
    assert prefix + "_brightness" == "BlueAir_" + deviceId + "_" + ItemSuffix(Brightness);
  }

  /** Every relayed topic names an item: the handler's filter lets through
      only the two attributes `updateOpenHABItem` knows, so its
      unsupported-attribute branch is never taken from the handler. */
  lemma RelayedTopicHasItem(topic: string)
    ensures var parts := Strings.Split(topic, '/');
      ParseTopic(topic).Some? ==>
        |parts| >= 5 && ItemName(parts[1], parts[3]) == Some(EventItem(ParseTopic(topic).value))
  {
    var parts := Strings.Split(topic, '/');
    if ParseTopic(topic).Some? {
      ItemNameOfAttribute(parts[1], parts[3]);
    }
  }

  /** Splitting an item name on `_`, as the openHAB control rule does, gives
      back the identifier and the attribute suffix, provided the identifier
      has no `_` (no valid identifier has one). */
  lemma ItemNameParts(id: string, a: Attribute)
    requires '_' !in id
    ensures ItemName(id, TopicName(a)).Some?
    ensures Strings.Split(ItemName(id, TopicName(a)).value, '_') == ["BlueAir", id, ItemSuffix(a)]
  {
    ItemNameOfAttribute(id, TopicName(a));
    var parts := ["BlueAir", id, ItemSuffix(a)];
    assert parts[1..][1..] == [ItemSuffix(a)];
    assert Strings.Join(parts[1..], '_') == id + "_" + ItemSuffix(a);
    assert Strings.Join(parts, '_') == "BlueAir_" + id + "_" + ItemSuffix(a);
    assert '_' !in ItemSuffix(a);
    Strings.SplitJoin(parts, '_');
  }

  /** One outbound HTTP request to openHAB. */
  datatype HttpRequest = HttpRequest(
    hostname: Option<string>,
    port: Option<string>,
    path: string,
    verb: string,
    headers: seq<(string, string)>,
    body: string)

  /** The item a relayed push updates: `updateOpenHABItem`'s name for the
      event's identifier and attribute, `BlueAir_{id}_{suffix}`. */
  function EventItem(e: TelemetryEvent): (item: string)
    ensures item == "BlueAir_" + e.deviceId + "_" + ItemSuffix(e.attribute)
  {
    ItemNameOfAttribute(e.deviceId, TopicName(e.attribute));
    ItemName(e.deviceId, TopicName(e.attribute)).value
  }

  /** The REST path of an item's state. */
  function ItemPath(itemName: string): string
  {
    "/rest/items/" + itemName + "/state"
  }

  /** Node's `http.request` accepts a path only when every character lies in
      U+0021..U+00FF; any other path makes it throw before anything is sent. */
  predicate PathAccepted(path: string)
  {
    forall i | 0 <= i < |path| :: '!' <= path[i] <= '\U{FF}'
  }

  /** The item-state update: `PUT /rest/items/{item}/state` with the value as
      a plain-text body (section 4.3.4 of RFC 7231). */
  function ItemStateRequest(config: AppConfig, itemName: string, value: string): HttpRequest
  {
    HttpRequest(config.openHabServerIp, config.openHabServerPort,
      ItemPath(itemName), "PUT",
      [("Content-Type", "text/plain"), ("Accept", "application/json")], value)
  }

  /** The requests one message gives rise to: none for a topic the filter
      drops or a path `http.request` refuses, otherwise the one update. Every
      request sent is a PUT of the payload on an accepted path. */
  function RequestsFor(config: AppConfig, topic: string, payload: string): (reqs: seq<HttpRequest>)
    ensures |reqs| <= 1
    ensures forall q | q in reqs :: q.verb == "PUT" && q.body == payload && PathAccepted(q.path)
  {
    match ParseTopic(topic)
    case None => []
    case Some(e) =>
      if PathAccepted(ItemPath(EventItem(e))) then [ItemStateRequest(config, EventItem(e), payload)]
      else []
  }

  /** Acceptance of a concatenation is acceptance of both halves. */
  lemma AcceptedConcat(x: string, y: string)
    ensures PathAccepted(x + y) <==> PathAccepted(x) && PathAccepted(y)
  {
    if PathAccepted(x + y) {
      forall i | 0 <= i < |x| ensures '!' <= x[i] <= '\U{FF}' {
        assert x[i] == (x + y)[i];
      }
      forall i | 0 <= i < |y| ensures '!' <= y[i] <= '\U{FF}' {
        assert y[i] == (x + y)[|x| + i];
      }
    }
    if PathAccepted(x) && PathAccepted(y) {
      forall i | 0 <= i < |x + y| ensures '!' <= (x + y)[i] <= '\U{FF}' {
        if i < |x| { assert (x + y)[i] == x[i]; } else { assert (x + y)[i] == y[i - |x|]; }
      }
    }
  }

  /** The item path is accepted exactly when the identifier's characters all
      lie in U+0021..U+00FF: the fixed parts of the path always do. */
  lemma ItemPathAccepted(e: TelemetryEvent)
    ensures PathAccepted(ItemPath(EventItem(e))) <==> PathAccepted(e.deviceId)
  {
    var suffix := "_" + ItemSuffix(e.attribute);
    assert PathAccepted("/rest/items/BlueAir_") && PathAccepted(suffix) && PathAccepted("/state");
    assert ItemPath(EventItem(e)) == "/rest/items/BlueAir_" + e.deviceId + suffix + "/state";
    AcceptedConcat("/rest/items/BlueAir_", e.deviceId);
    AcceptedConcat("/rest/items/BlueAir_" + e.deviceId, suffix);
    AcceptedConcat("/rest/items/BlueAir_" + e.deviceId + suffix, "/state");
  }

  /** An item-state path has exactly the levels `rest`, `items`, the item
      and `state`, whenever the item name has no `/`. */
  lemma ItemPathLevels(item: string)
    requires '/' !in item
    ensures Strings.Split(ItemPath(item), '/') == ["", "rest", "items", item, "state"]
  {
    var parts := ["", "rest", "items", item, "state"];
    assert parts[1..][1..][1..][1..] == ["state"];
    assert Strings.Join(parts[1..][1..][1..], '/') == item + "/" + "state";
    assert Strings.Join(parts[1..][1..], '/') == "items" + "/" + item + "/" + "state";
    assert Strings.Join(parts[1..], '/') == "rest" + "/" + "items" + "/" + item + "/" + "state";
    assert Strings.Join(parts, '/') == ItemPath(item);
    Strings.SplitJoin(parts, '/');
  }

  /** What a message sends: nothing when the filter drops the topic; for a
      relayed topic, nothing when the identifier holds a character that
      `http.request` refuses, and otherwise one PUT of the payload as plain
      text whose path has exactly the levels `rest`, `items`, the item for
      the topic's identifier and attribute, and `state`. */
  lemma RelayedRequest(config: AppConfig, topic: string, payload: string)
    ensures ParseTopic(topic).None? ==> RequestsFor(config, topic, payload) == []
    ensures ParseTopic(topic).Some? && !PathAccepted(ParseTopic(topic).value.deviceId) ==>
      RequestsFor(config, topic, payload) == []
    ensures ParseTopic(topic).Some? && PathAccepted(ParseTopic(topic).value.deviceId) ==>
      var e := ParseTopic(topic).value;
      var reqs := RequestsFor(config, topic, payload);
      && |reqs| == 1
      && reqs[0].verb == "PUT" && reqs[0].body == payload
      && ("Content-Type", "text/plain") in reqs[0].headers
      && Strings.Split(reqs[0].path, '/') == ["", "rest", "items", EventItem(e), "state"]
  {
    if ParseTopic(topic).Some? {
      var e := ParseTopic(topic).value;
      ItemPathAccepted(e);
      assert '/' !in ItemSuffix(e.attribute);
      assert '/' !in EventItem(e);
      ItemPathLevels(EventItem(e));
    }
  }

  /** Every push from a device with a valid identifier is forwarded: a hex
      identifier passes the path check. */
  lemma ValidDevicePushForwarded(config: AppConfig, id: string, a: Attribute, payload: string)
    requires Device.IsValidDeviceId(id)
    ensures RequestsFor(config, PushTopic(id, a), payload)
         == [ItemStateRequest(config, "BlueAir_" + id + "_" + ItemSuffix(a), payload)]
  {
    Device.ValidIdSeparators(id);
    DevicePushRelayed(id, a);
    ItemPathAccepted(TelemetryEvent(id, a));
  }

  /** A push whose identifier level holds a space passes the topic filter,
      but its item path is refused, so nothing is sent. */
  lemma SpacedIdNotForwarded(config: AppConfig, id: string, a: Attribute, payload: string)
    requires '/' !in id && ' ' in id
    ensures ParseTopic(PushTopic(id, a)) == Some(TelemetryEvent(id, a))
    ensures RequestsFor(config, PushTopic(id, a), payload) == []
  {
    DevicePushRelayed(id, a);
    ItemPathAccepted(TelemetryEvent(id, a));
  }

  /** The relay's state: the log of HTTP requests it has issued. */
  class TelemetryRelay {
    const mqttClient: MqttClient
    const appConfig: AppConfig
    var requests: seq<HttpRequest>

    /** `setupMqttSubscription`: subscribes once, to `device/#` at QoS 1, and
        registers the message handler. */
    constructor Setup(mqttClient: MqttClient, appConfig: AppConfig)
      modifies mqttClient
      ensures this.mqttClient == mqttClient && this.appConfig == appConfig
      ensures mqttClient.subscriptions == old(mqttClient.subscriptions) + [Subscription(DeviceFilter, 1)]
      ensures mqttClient.published == old(mqttClient.published)
      ensures requests == []
    {
      this.mqttClient := mqttClient;
      this.appConfig := appConfig;
      requests := [];
      new;
      mqttClient.Subscribe(DeviceFilter, 1);
    }

    /** The `message` handler: a topic that fails the filter is ignored;
        otherwise the attribute goes to `UpdateOpenHABItem`, whose exception
        (`thrown`) leaves the handler uncaught. */
    method OnMessage(topic: string, message: string) returns (thrown: bool)
      modifies this
      ensures requests == old(requests) + RequestsFor(appConfig, topic, message)
      ensures thrown <==> ParseTopic(topic).Some? && !PathAccepted(ParseTopic(topic).value.deviceId)
    {
      var topicParts := Strings.Split(topic, '/');
      if |topicParts| < 5 || topicParts[4] != "push" ||
         (topicParts[3] != "fan_speed" && topicParts[3] != "brightness") {
        return false;
      }
      var e := ParseTopic(topic).value;
      ItemNameOfAttribute(topicParts[1], topicParts[3]);
      ItemPathAccepted(e);
      thrown := UpdateOpenHABItem(topicParts[1], topicParts[3], message);
    }

    /** `updateOpenHABItem`: nothing for an unknown attribute; otherwise one
        PUT, unless `http.request` refuses the path and throws (`thrown`),
        in which case nothing is sent. */
    method UpdateOpenHABItem(deviceId: string, attribute: string, value: string) returns (thrown: bool)
      modifies this
      ensures ItemName(deviceId, attribute).None? ==> !thrown && requests == old(requests)
      ensures ItemName(deviceId, attribute).Some? ==>
        (thrown <==> !PathAccepted(ItemPath(ItemName(deviceId, attribute).value)))
      ensures thrown ==> requests == old(requests)
      ensures ItemName(deviceId, attribute).Some? && !thrown ==>
        requests == old(requests) + [ItemStateRequest(appConfig, ItemName(deviceId, attribute).value, value)]
    {
      var openHABItemName := ItemName(deviceId, attribute);
      if openHABItemName.None? {
        return false;
      }
      var path := ItemPath(openHABItemName.value);
      if !PathAccepted(path) {
        return true;
      }
      requests := requests + [ItemStateRequest(appConfig, openHABItemName.value, value)];
      thrown := false;
    }

    /** The response callback: status 202 (section 6.3.3 of RFC 7231) is
        success, anything else a failure; either is only logged, so nothing
        changes and no further request is sent. */
    method OnResponse(status: int) returns (succeeded: bool)
      ensures succeeded <==> status == 202
    {
      succeeded := status == 202;
    }
  }
}
