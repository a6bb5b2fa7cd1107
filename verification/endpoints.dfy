/** The HTTP command bridge (endpoints.js): validation of device requests,
    their translation into MQTT publishes, the registration write into the
    device directory, and the read-only listing of that directory. */
module Endpoints {
  import opened Wrappers
  import opened Json
  import Strings
  import opened Config
  import opened Mqtt
  import opened Device
  import opened Directory

  /** A response body: a string sent as it is (`res.send(text)`), a JSON
      value (`res.json(v)`), or the page of Express's default error handler
      for an exception a handler throws. */
  datatype Body = Text(text: string) | JsonBody(value: Json) | ErrorPage

  datatype Response = Response(status: int, body: Body)

  /** The `{state, message}` object most handlers answer with. */
  function StateMessage(state: int, message: Json): Json
  {
    JObj(map["state" := JNum(state), "message" := message])
  }

  /** `{state: 200, message: null}` with status 200. */
  const Success: Response := Response(200, JsonBody(StateMessage(200, JNull)))

  /** Express's answer when a handler throws: status 500 and its error page. */
  const UncaughtError: Response := Response(500, ErrorPage)

  /** Status 400 with `{state: 400, message}`. */
  function JsonError(message: string): Response
  {
    Response(400, JsonBody(StateMessage(400, JStr(message))))
  }

  // ---------------------------------------------------------------------
  // Topics and payloads published to the broker

  /** The handshake a registered device receives, retained by the broker. */
  const HandshakePayload: string := "1;10;2"

  function HelloTopic(id: string): string
  {
    "device/" + id + "/patate"
  }

  function AttributeTopic(id: string, attribute: string): string
  {
    "device/" + id + "/attribute/" + attribute
  }

  /** The published topics have the levels their template shows, whenever the
      identifier and attribute contain no `/` (true of every valid identifier). */
  lemma TopicLevels(id: string, attribute: string)
    requires '/' !in id && '/' !in attribute
    ensures Strings.Split(HelloTopic(id), '/') == ["device", id, "patate"]
    ensures Strings.Split(AttributeTopic(id, attribute), '/') == ["device", id, "attribute", attribute]
  {
    var hello := ["device", id, "patate"];
    assert hello[1..][1..] == ["patate"];
    assert Strings.Join(hello[1..], '/') == id + "/" + "patate";
    assert HelloTopic(id) == Strings.Join(hello, '/');
    Strings.SplitJoin(hello, '/');
    var attr := ["device", id, "attribute", attribute];
    assert attr[1..][1..][1..] == [attribute];
    assert Strings.Join(attr[1..][1..], '/') == "attribute" + "/" + attribute;
    assert Strings.Join(attr[1..], '/') == id + "/" + "attribute" + "/" + attribute;
    assert AttributeTopic(id, attribute) == Strings.Join(attr, '/');
    Strings.SplitJoin(attr, '/');
  }

  // ---------------------------------------------------------------------
  // The legacy connections CSV

  /** `Array.prototype.join` prints an `undefined` element as the empty string. */
  function OrEmpty(v: Option<string>): string
  {
    match v
    case None => ""
    case Some(s) => s
  }

  const ConnectionsLine1: seq<string> :=
    ["localhost", "/123456789123/deprecated", "deprecated", "deprecated",
     "2024-03-27T10%3A39%3A15.354Z", "127.0.0.1:8080",
     "http%3A%2F%2F" + "localhost%2F" + "123456789123%2Fdeprecated"]

  function ConnectionsLine2(c: AppConfig): seq<string>
  {
    [OrEmpty(c.mqttBrokerApiUrl), OrEmpty(c.mqttBrokerApiPort),
     OrEmpty(c.mqttBrokerUsername), OrEmpty(c.mqttBrokerPassword), "false"]
  }

  /** The two `;`-joined lines, separated by a line feed. */
  function ConnectionsCsvText(c: AppConfig): string
  {
    Strings.Join(ConnectionsLine1, ';') + "\n" + Strings.Join(ConnectionsLine2(c), ';')
  }

  /** A setting that can be carried in one CSV field. */
  predicate CsvSafe(v: Option<string>)
  {
    v.Some? ==> ';' !in v.value && '\n' !in v.value
  }

  /** No field of the fixed first line holds `;` or a line feed. */
  lemma FixedLineFieldsPlain()
    ensures forall i | 0 <= i < |ConnectionsLine1| :: CsvSafe(Some(ConnectionsLine1[i]))
  {
    forall i | 0 <= i < |ConnectionsLine1| ensures CsvSafe(Some(ConnectionsLine1[i])) {
      if i < 4 { ShortFieldsPlain(i); } else if i == 4 { TimestampFieldPlain(); } else { AddressFieldsPlain(i); }
    }
  }

  lemma ShortFieldsPlain(i: nat)
    requires i < 4
    ensures CsvSafe(Some(ConnectionsLine1[i]))
  {
    assert CsvSafe(Some("localhost")) && CsvSafe(Some("/123456789123/deprecated"));
    assert CsvSafe(Some("deprecated"));
  }

  lemma TimestampFieldPlain()
    ensures CsvSafe(Some(ConnectionsLine1[4]))
  {
  }

  lemma AddressFieldsPlain(i: nat)
    requires 5 <= i < 7
    ensures CsvSafe(Some(ConnectionsLine1[i]))
  {
    if i == 5 {
      assert CsvSafe(Some("127.0.0.1:8080"));
    } else {
      UrlFieldPlain();
    }
  }

  lemma UrlFieldPlain()
    ensures CsvSafe(Some(ConnectionsLine1[6]))
  {
    var a, b, c := "http%3A%2F%2F", "localhost%2F", "123456789123%2Fdeprecated";
    assert CsvSafe(Some(a)) && CsvSafe(Some(b)) && CsvSafe(Some(c));
  }

  /** Two lines of `;`-joined plain fields, joined by a line feed, read back
      as the same two lines of the same fields. */
  lemma {:induction false} TwoLineCsvRoundTrip(l1: seq<string>, l2: seq<string>)
    requires |l1| >= 1 && |l2| >= 1
    requires forall i | 0 <= i < |l1| :: CsvSafe(Some(l1[i]))
    requires forall i | 0 <= i < |l2| :: CsvSafe(Some(l2[i]))
    ensures var lines := Strings.Split(Strings.Join(l1, ';') + "\n" + Strings.Join(l2, ';'), '\n');
      && |lines| == 2
      && Strings.Split(lines[0], ';') == l1
      && Strings.Split(lines[1], ';') == l2
  {
    var a, b := Strings.Join(l1, ';'), Strings.Join(l2, ';');
    Strings.JoinAvoids(l1, ';', '\n');
    Strings.JoinAvoids(l2, ';', '\n');
    Strings.SplitAfterPiece(a, b, '\n');
    Strings.SplitNoSep(b, '\n');
    assert Strings.Split(a + "\n" + b, '\n') == [a, b];
    Strings.SplitJoin(l1, ';');
    Strings.SplitJoin(l2, ';');
  }

  /** A device reading the CSV back gets two lines, the seven fixed fields and
      the broker URL, port, user name, password and `false`, provided no
      setting contains `;` or a line feed. */
  lemma ConnectionsCsvParses(c: AppConfig)
    requires CsvSafe(c.mqttBrokerApiUrl) && CsvSafe(c.mqttBrokerApiPort)
    requires CsvSafe(c.mqttBrokerUsername) && CsvSafe(c.mqttBrokerPassword)
    ensures var lines := Strings.Split(ConnectionsCsvText(c), '\n');
      && |lines| == 2
      && Strings.Split(lines[0], ';') == ConnectionsLine1
      && Strings.Split(lines[1], ';') == ConnectionsLine2(c)
  {
    FixedLineFieldsPlain();
    var l2 := ConnectionsLine2(c);
    assert CsvSafe(Some(l2[4]));
    TwoLineCsvRoundTrip(ConnectionsLine1, l2);
  }

  // ---------------------------------------------------------------------
  // The owner user-name check `/\S+@\S+\.\S+/`

  /** JavaScript's `\s`: the ASCII white-space controls, the space, and the
      Unicode space separators, line and paragraph separators and BOM. */
  predicate IsSpace(c: char)
  {
    var n := c as int;
    || (9 <= n <= 13) || n == 32 || n == 0xA0 || n == 0x1680
    || (0x2000 <= n <= 0x200A) || n == 0x2028 || n == 0x2029
    || n == 0x202F || n == 0x205F || n == 0x3000 || n == 0xFEFF
  }

  predicate NoSpaceIn(s: string, lo: int, hi: int)
    requires 0 <= lo <= hi <= |s|
  {
    forall k | lo <= k < hi :: !IsSpace(s[k])
  }

  /** A match with its `@` at `p` and its `.` at `d`: a non-space before the
      `@`, at least one character, all non-space, between them, and a
      non-space after the `.`. */
  predicate EmailAt(s: string, p: int, d: int)
  {
    && 0 < p && p + 1 < d && d + 1 < |s|
    && s[p] == '@' && s[d] == '.'
    && !IsSpace(s[p - 1]) && !IsSpace(s[d + 1])
    && NoSpaceIn(s, p + 1, d)
  }

  /** The unanchored pattern matches somewhere in `s`. */
  predicate EmailShaped(s: string)
    ensures EmailShaped(s) ==> |s| >= 5 && '@' in s[1..] && '.' in s
  {
    exists p, d | 0 <= p < |s| && 0 <= d < |s| :: EmailAt(s, p, d)
  }

  /** The pattern is not anchored: surrounding text never stops a match. */
  lemma EmailShapedUnanchored(before: string, s: string, after: string)
    requires EmailShaped(s)
    ensures EmailShaped(before + s + after)
  {
    var t := before + s + after;
    var p, d :| 0 <= p < |s| && 0 <= d < |s| && EmailAt(s, p, d);
    var o := |before|;
    assert forall k | 0 <= k < |s| :: t[o + k] == s[k];
    forall k | o + p + 1 <= k < o + d ensures !IsSpace(t[k]) {
      assert t[k] == s[k - o];
    }
    assert EmailAt(t, o + p, o + d);
  }

  /** The user name the openHAB discovery rule sends is accepted. */
  lemma DiscoveryUserNameAccepted()
    ensures EmailShaped("anyone@email.com")
  {
    var s := "anyone@email.com";
    assert EmailAt(s, 6, 12);
  }

  /** A name without `@`, or with white space around every `@`, is refused. */
  lemma EmailShapedNeedsAt(s: string)
    requires forall p | 0 < p < |s| :: s[p] == '@' ==> IsSpace(s[p - 1])
    ensures !EmailShaped(s)
  {
  }

  // ---------------------------------------------------------------------
  // Attribute values `/^[0-3]$/` and `/^[0-4]$/`

  /** The single-character class `^[0-max]$` on the string form of `v`, for
      a value whose conversion does not throw. */
  function IsDigitUpTo(v: Option<Json>, max: char): (b: bool)
    requires !StringThrowsOpt(v)
    ensures b ==> v.Some? && (v.value.JStr? || v.value.JNum? || v.value.JArr?)
  {
    var t := ToJsStringOpt(v);
    |t| == 1 && '0' <= t[0] <= max
  }

  /** Which values pass the digit test: a one-character string `"0"`..`max`,
      an integer 0..`max`, or an array whose only element is not `null` and
      passes; never a missing value, `null`, a boolean or an object. */
  lemma AcceptedValues(v: Option<Json>, max: char)
    requires '0' <= max <= '9' && !StringThrowsOpt(v)
    ensures v.None? || v == Some(JNull) || (v.Some? && (v.value.JBool? || v.value.JObj?))
            ==> !IsDigitUpTo(v, max)
    ensures forall s :: v == Some(JStr(s)) ==>
              (IsDigitUpTo(v, max) <==> |s| == 1 && '0' <= s[0] <= max)
    ensures forall n :: v == Some(JNum(n)) ==>
              (IsDigitUpTo(v, max) <==> 0 <= n <= DigitValue(max))
    ensures forall items: seq<Json> :: v == Some(JArr(items)) ==>
              (IsDigitUpTo(v, max) <==>
                 |items| == 1 && !items[0].JNull? && IsDigitUpTo(Some(items[0]), max))
  {
    SingleCharForms(v);
    if v.Some? && v.value.JNum? {
      var n := v.value.n;
      if 0 <= n < 10 {
        assert DigitValue(DigitChar(n)) == n;
      }
    }
    if v.Some? && v.value.JArr? {
      var items := v.value.items;
      var t := ToJsString(v.value);
      if |items| == 0 {
        assert t == Strings.Join([], ',');
      } else if |items| == 1 && items[0].JNull? {
        assert t == Strings.Join([""], ',');
      } else if |items| >= 2 && |t| == 1 {
        assert t[0] == ',';
      }
    }
  }

  /** A `currentValue` object with its own `toString` key makes the value
      tests throw, alone or inside arrays. */
  lemma OwnToStringThrows(x: Json)
    ensures var obj := JObj(map["toString" := x]);
      && StringThrowsOpt(Get(JObj(map["currentValue" := obj]), "currentValue"))
      && StringThrowsOpt(Get(JObj(map["currentValue" := JArr([JNum(1), JArr([obj])])]), "currentValue"))
  {
    var obj := JObj(map["toString" := x]);
    assert StringThrows(obj);
    assert JArr([obj]).items[0] == obj;
    assert StringThrows(JArr([obj]));
    assert JArr([JNum(1), JArr([obj])]).items[1] == JArr([obj]);
  }

  /** `/^[0-3]$/.test(fanSpeed)`: the strings `"0"`..`"3"` and the integers
      0..3 pass, and arrays as `AcceptedValues` describes. The test throws
      instead for the values `StringThrowsOpt` names. */
  function IsValidFanSpeed(v: Option<Json>): (b: bool)
    requires !StringThrowsOpt(v)
    ensures v.Some? && v.value.JStr? ==> (b <==> |v.value.s| == 1 && '0' <= v.value.s[0] <= '3')
    ensures v.Some? && v.value.JNum? ==> (b <==> 0 <= v.value.n <= 3)
  {
    AcceptedValues(v, '3');
    IsDigitUpTo(v, '3')
  }

  /** `/^[0-4]$/.test(brightness)`: the strings `"0"`..`"4"` and the
      integers 0..4 pass, and arrays as `AcceptedValues` describes. The
      test throws instead for the values `StringThrowsOpt` names. */
  function IsValidBrightness(v: Option<Json>): (b: bool)
    requires !StringThrowsOpt(v)
    ensures v.Some? && v.value.JStr? ==> (b <==> |v.value.s| == 1 && '0' <= v.value.s[0] <= '4')
    ensures v.Some? && v.value.JNum? ==> (b <==> 0 <= v.value.n <= 4)
  {
    AcceptedValues(v, '4');
    IsDigitUpTo(v, '4')
  }

  // ---------------------------------------------------------------------
  // The owner device listing

  /** The fixed owner number every listed device carries. */
  const OwnerUserId: int := 86471

  /** One listed device: `{uuid, userId, mac, name}`. */
  datatype DeviceSummary = DeviceSummary(uuid: string, userId: int, mac: Json, name: string)

  function SummaryJson(d: DeviceSummary): Json
  {
    JObj(map["uuid" := JStr(d.uuid), "userId" := JNum(d.userId), "mac" := d.mac, "name" := JStr(d.name)])
  }

  function Summarize(id: string, rec: DeviceRecord): DeviceSummary
  {
    DeviceSummary(id, OwnerUserId, rec.mac, "")
  }

  /** The projection of every directory entry, in the directory's key order. */
  function Listing(order: seq<string>, entries: map<string, DeviceRecord>): seq<DeviceSummary>
    requires forall k | k in order :: k in entries
  {
    seq(|order|, i requires 0 <= i < |order| => Summarize(order[i], entries[order[i]]))
  }

  /** The listing shows each registered device exactly once, with its own MAC,
      the fixed owner number and an empty name; an empty directory lists
      nothing. */
  lemma ListingCoversDirectory(order: seq<string>, entries: map<string, DeviceRecord>)
    requires Consistent(order, entries)
    ensures var l := Listing(order, entries);
      && |l| == |entries|
      && (forall k :: k in entries <==> exists i | 0 <= i < |l| :: l[i].uuid == k)
      && (forall i, j | 0 <= i < j < |l| :: l[i].uuid != l[j].uuid)
      && (forall i | 0 <= i < |l| ::
            l[i].uuid in entries && l[i].mac == entries[l[i].uuid].mac &&
            l[i].userId == OwnerUserId && l[i].name == "")
  {
    ConsistentSize(order, entries);
    var l := Listing(order, entries);
    forall k | k in entries ensures exists i | 0 <= i < |l| :: l[i].uuid == k {
      var i :| 0 <= i < |order| && order[i] == k;
      assert l[i].uuid == k;
    }
  }

  /** Registering `id` with `rec`: a new device is listed last; a known one
      keeps its place and its entry is wholly replaced, so only the new MAC
      is visible for it; every other entry is as before. */
  lemma ListingAfterSet(order: seq<string>, entries: map<string, DeviceRecord>,
                        id: string, rec: DeviceRecord)
    requires Consistent(order, entries)
    ensures Consistent(OrderAfterSet(order, entries.Keys, id), entries[id := rec])
    ensures var before := Listing(order, entries);
      var after := Listing(OrderAfterSet(order, entries.Keys, id), entries[id := rec]);
      && (id !in entries ==> after == before + [Summarize(id, rec)])
      && (id in entries ==>
            && |after| == |before|
            && forall i | 0 <= i < |after| ::
                 after[i] == if order[i] == id then Summarize(id, rec) else before[i])
      && (forall i | 0 <= i < |after| && after[i].uuid == id :: after[i].mac == rec.mac)
      && (exists i | 0 <= i < |after| :: after[i] == Summarize(id, rec))
  {
    SetKeepsConsistent(order, entries, id, rec);
    if id in entries {
      ListingAfterReplace(order, entries, id, rec);
    } else {
      ListingAfterAppend(order, entries, id, rec);
      assert OrderAfterSet(order, entries.Keys, id) == order + [id];
      assert Listing(order + [id], entries[id := rec])[|order|] == Summarize(id, rec);
    }
  }

  lemma ListingAfterReplace(order: seq<string>, entries: map<string, DeviceRecord>,
                            id: string, rec: DeviceRecord)
    requires Consistent(order, entries) && id in entries
    ensures var before := Listing(order, entries);
      var after := Listing(order, entries[id := rec]);
      && |after| == |before|
      && (forall i | 0 <= i < |after| ::
            after[i] == if order[i] == id then Summarize(id, rec) else before[i])
      && (exists i | 0 <= i < |after| :: after[i] == Summarize(id, rec))
  {
    var i :| 0 <= i < |order| && order[i] == id;
    assert Listing(order, entries[id := rec])[i] == Summarize(id, rec);
  }

  lemma ListingAfterAppend(order: seq<string>, entries: map<string, DeviceRecord>,
                           id: string, rec: DeviceRecord)
    requires Consistent(order, entries) && id !in entries
    ensures Listing(order + [id], entries[id := rec]) == Listing(order, entries) + [Summarize(id, rec)]
  {
  }

  // ---------------------------------------------------------------------
  // The router: one method per route

  /** The routes, closed over the shared directory, MQTT client and
      configuration. */
  class Router {
    const deviceCache: DeviceCache
    const mqttClient: MqttClient
    const appConfig: AppConfig

    constructor (deviceCache: DeviceCache, mqttClient: MqttClient, appConfig: AppConfig)
      ensures this.deviceCache == deviceCache && this.mqttClient == mqttClient
      ensures this.appConfig == appConfig
    {
      this.deviceCache := deviceCache;
      this.mqttClient := mqttClient;
      this.appConfig := appConfig;
    }

    /** `GET /v2/apidomain`: the broker URL handed to devices as plain text
        (an empty body when it is not configured). */
    method ApiDomain() returns (resp: Response)
      ensures resp.status == 200
      ensures appConfig.mqttBrokerApiUrl.Some? ==> resp.body == Text(appConfig.mqttBrokerApiUrl.value)
      ensures appConfig.mqttBrokerApiUrl.None? ==> resp.body == Text("")
    {
      resp := Response(200, Text(OrEmpty(appConfig.mqttBrokerApiUrl)));
    }

    /** `GET /v2/device/:device_id/connections/csv/`. */
    method ConnectionsCsv(deviceId: string) returns (resp: Response)
      ensures !IsValidDeviceId(deviceId) ==> resp == Response(400, Text("Invalid device ID"))
      ensures IsValidDeviceId(deviceId) ==> resp == Response(200, Text(ConnectionsCsvText(appConfig)))
    {
      if !IsValidDeviceId(deviceId) {
        return Response(400, Text("Invalid device ID"));
      }
      resp := Response(200, Text(ConnectionsCsvText(appConfig)));
    }

    /** `GET /v2/device/:device_id/firmware/update/csv/` and
        `.../mcufirmware/update/csv/`: never offers an update. */
    method FirmwareUpdate(deviceId: string) returns (resp: Response)
      ensures !IsValidDeviceId(deviceId) ==> resp == JsonError("Invalid device ID")
      ensures IsValidDeviceId(deviceId) ==> resp == Response(200, Text(""))
    {
      if !IsValidDeviceId(deviceId) {
        return JsonError("Invalid device ID");
      }
      resp := Response(200, Text(""));
    }

    /** `POST /v2/device/:device_id/hello/`. The identifier is checked before
        the body, and nothing changes unless both pass. Then the record
        replaces any earlier one and the retained handshake is published at
        QoS 1; a failed publish answers 500 but leaves the record in place. */
    method Hello(deviceId: string, body: Json, publishFails: bool) returns (resp: Response)
      requires deviceCache.Valid()
      modifies deviceCache, mqttClient
      ensures deviceCache.Valid()
      ensures mqttClient.subscriptions == old(mqttClient.subscriptions)
      ensures !IsValidDeviceId(deviceId) ==> resp == Response(400, Text("Invalid device ID"))
      ensures IsValidDeviceId(deviceId) && Structure(body).None? ==>
                resp == Response(400, Text("Invalid device data"))
      ensures resp.status == 400 ==>
                && deviceCache.entries == old(deviceCache.entries)
                && deviceCache.order == old(deviceCache.order)
                && mqttClient.published == old(mqttClient.published)
      ensures IsValidDeviceId(deviceId) && Structure(body).Some? ==>
                && deviceCache.entries == old(deviceCache.entries)[deviceId := Structure(body).value]
                && deviceCache.order == OrderAfterSet(old(deviceCache.order), old(deviceCache.entries).Keys, deviceId)
                && mqttClient.published == old(mqttClient.published) +
                     [Message(HelloTopic(deviceId), HandshakePayload, 1, true)]
                && resp == if publishFails
                           then Response(500, JsonBody(StateMessage(500, JStr("Error sending MQTT message"))))
                           else Success
    {
      if !IsValidDeviceId(deviceId) {
        return Response(400, Text("Invalid device ID"));
      }
      var structured := StructureDeviceData(body);
      if structured.None? {
        return Response(400, Text("Invalid device data"));
      }
      deviceCache.Set(deviceId, structured.value);
      mqttClient.Publish(HelloTopic(deviceId), HandshakePayload, 1, true);
      if publishFails {
        resp := Response(500, JsonBody(StateMessage(500, JStr("Error sending MQTT message"))));
      } else {
        resp := Success;
      }
    }

    /** `POST /v2/device/:device_id/attribute/fanspeed/`. On success the speed
        and then `manual` mode are published at QoS 1, not retained, and the
        answer does not wait for either. A value whose `String()` conversion
        throws makes the test throw, and Express answers 500. */
    method SetFanSpeed(deviceId: string, body: Json) returns (resp: Response)
      modifies mqttClient
      ensures mqttClient.subscriptions == old(mqttClient.subscriptions)
      ensures !IsValidDeviceId(deviceId) ==> resp == JsonError("Invalid device ID")
      ensures IsValidDeviceId(deviceId) && StringThrowsOpt(Get(body, "currentValue")) ==>
                resp == UncaughtError
      ensures IsValidDeviceId(deviceId) && !StringThrowsOpt(Get(body, "currentValue")) &&
              !IsValidFanSpeed(Get(body, "currentValue")) ==>
                resp == JsonError("Invalid fan speed")
      ensures resp != Success ==> mqttClient.published == old(mqttClient.published)
      ensures IsValidDeviceId(deviceId) && !StringThrowsOpt(Get(body, "currentValue")) &&
              IsValidFanSpeed(Get(body, "currentValue")) ==>
                && resp == Success
                && mqttClient.published == old(mqttClient.published) +
                     [Message(AttributeTopic(deviceId, "fan_speed"), ToJsStringOpt(Get(body, "currentValue")), 1, false),
                      Message(AttributeTopic(deviceId, "mode"), "manual", 1, false)]
    {
      var fanSpeed := Get(body, "currentValue");
      if !IsValidDeviceId(deviceId) {
        return JsonError("Invalid device ID");
      }
      if StringThrowsOpt(fanSpeed) {
        return UncaughtError;
      }
      if !IsValidFanSpeed(fanSpeed) {
        return JsonError("Invalid fan speed");
      }
      mqttClient.Publish(AttributeTopic(deviceId, "fan_speed"), ToJsStringOpt(fanSpeed), 1, false);
      mqttClient.Publish(AttributeTopic(deviceId, "mode"), "manual", 1, false);
      resp := Success;
    }

    /** `POST /v2/device/:device_id/attribute/brightness/`: one publish at
        QoS 1 on success, without waiting for it; a 500 when the test throws. */
    method SetBrightness(deviceId: string, body: Json) returns (resp: Response)
      modifies mqttClient
      ensures mqttClient.subscriptions == old(mqttClient.subscriptions)
      ensures !IsValidDeviceId(deviceId) ==> resp == JsonError("Invalid device ID")
      ensures IsValidDeviceId(deviceId) && StringThrowsOpt(Get(body, "currentValue")) ==>
                resp == UncaughtError
      ensures IsValidDeviceId(deviceId) && !StringThrowsOpt(Get(body, "currentValue")) &&
              !IsValidBrightness(Get(body, "currentValue")) ==>
                resp == JsonError("Invalid brightness")
      ensures resp != Success ==> mqttClient.published == old(mqttClient.published)
      ensures IsValidDeviceId(deviceId) && !StringThrowsOpt(Get(body, "currentValue")) &&
              IsValidBrightness(Get(body, "currentValue")) ==>
                && resp == Success
                && mqttClient.published == old(mqttClient.published) +
                     [Message(AttributeTopic(deviceId, "brightness"), ToJsStringOpt(Get(body, "currentValue")), 1, false)]
    {
      var brightness := Get(body, "currentValue");
      if !IsValidDeviceId(deviceId) {
        return JsonError("Invalid device ID");
      }
      if StringThrowsOpt(brightness) {
        return UncaughtError;
      }
      if !IsValidBrightness(brightness) {
        return JsonError("Invalid brightness");
      }
      mqttClient.Publish(AttributeTopic(deviceId, "brightness"), ToJsStringOpt(brightness), 1, false);
      resp := Success;
    }

    /** `GET /v2/owner/:username/device/`: every registered device, whatever
        the user name, once the name passes the e-mail shape check. */
    method OwnerDevices(username: string) returns (resp: Response)
      requires deviceCache.Valid()
      ensures !EmailShaped(username) ==> resp == JsonError("Invalid username")
      ensures EmailShaped(username) ==>
        var l := Listing(deviceCache.order, deviceCache.entries);
        resp == Response(200, JsonBody(JArr(seq(|l|, i requires 0 <= i < |l| => SummaryJson(l[i])))))
    {
      if !EmailShaped(username) {
        return JsonError("Invalid username");
      }
      var l := Listing(deviceCache.order, deviceCache.entries);
      resp := Response(200, JsonBody(JArr(seq(|l|, i requires 0 <= i < |l| => SummaryJson(l[i])))));
    }
  }

  /** Two identical fan-speed calls answer alike and publish the same pair
      twice: the handler reads no state that its first call could change. */
  method RepeatedFanSpeed(router: Router, deviceId: string, body: Json)
    returns (first: Response, second: Response)
    modifies router.mqttClient
    ensures first == second
    ensures |router.mqttClient.published| >= |old(router.mqttClient.published)|
    ensures var sent := router.mqttClient.published[|old(router.mqttClient.published)|..];
      && |sent| % 2 == 0
      && sent[..|sent| / 2] == sent[|sent| / 2..]
  {
    ghost var start := router.mqttClient.published;
    first := router.SetFanSpeed(deviceId, body);
    ghost var mid := router.mqttClient.published;
    ghost var added := mid[|start|..];
    assert mid == start + added;
    second := router.SetFanSpeed(deviceId, body);
    assert router.mqttClient.published == mid + added;
  }
}
