# blueair-local: a Dafny model of the local BlueAir gateway

blueair-local stands in for the BlueAir cloud on a home network. BlueAir air
purifiers send their HTTP calls to it: API domain discovery, the legacy
connections CSV, firmware checks and the `hello` registration. openHAB rules
request the owner's device listing for discovery and send the fan-speed and
brightness `POST`s. It keeps the registered devices in an in-memory `Map` and speaks to
the purifiers over an MQTT broker. A second component subscribes to `device/#`
and forwards the fan-speed and brightness values that the purifiers `push` to
openHAB items through openHAB's REST API.

This project models both components in Dafny. The model follows the code
branch by branch, with the same messages, status codes, topics, QoS and retain
flags, and proves properties about them.

- `Strings` (`strings.dfy`): JavaScript `split` on one character and `join`, with their round-trip lemmas.
- `Json` (`json.dfy`): request bodies as JSON values. `ToJsString` is the `String()` coercion that a regular expression's `test` applies to its argument, so the number `2` passes `/^[0-3]$/` and a missing value reads as `"undefined"`. `StringThrows` names the values for which that coercion throws: an object with its own `toString` key, alone or at any depth inside arrays.
- `Config` (`config.dfy`): the application configuration. Every entry may be absent.
- `Mqtt` (`mqtt.dfy`): the MQTT client as a class that logs publishes and subscriptions. It also holds topic-filter matching as defined in sections 4.7.1 and 4.7.2 of MQTT 3.1.1.
- `Device` (`device.dfy`): the device-identifier check and the nine-field device record that `structureDeviceData` builds.
- `Directory` (`directory.dfy`): the shared `deviceCache` as a class. It holds a map and the key insertion order that a JavaScript `Map` keeps.
- `Endpoints` (`endpoints.dfy`): one `Router` method per route of `endpoints.js`, plus the pure pieces they use: topics, the CSV text, the user-name check, the value checks and the listing.
- `Relay` (`relay.dfy`): `mqtt_subscribe.js`. This covers the topic filter of the message handler, the openHAB item naming, the `PUT` request, and a `TelemetryRelay` class that subscribes once and logs the requests it issues.

Inputs the program takes from outside are parameters:
- Whether the broker acknowledges the `hello` publish is a `publishFails` flag.
- The status code of openHAB's answer is an integer.
- An incoming MQTT payload is its decoded string.

## Model

| member | source | states |
|---|---|---|
| Device.IsValidDeviceId | endpoints.js:13-14 | an identifier is accepted iff it has exactly 16 characters, each a digit or a letter A-F in either case |
| Device.IsHexChar | endpoints.js:14 | the case-insensitive class `[A-F0-9]` is exactly the digits and the letters a-f and A-F |
| Device.HexRun | endpoints.js:14 | the length of the longest leading run of hex characters: every character before it is hex and the next one is not |
| Device.ValidIdSeparators | endpoints.js:14 | a valid identifier contains none of `/`, `_`, `#`, `+`, `;`, so it is one topic level, one item-name segment and one CSV field |
| Device.Structure | endpoints.js:64-88 | the body yields a record iff all nine keys are present (null counts as present), and the record then agrees with the body on each of the nine keys |
| Device.StructureDeviceData | endpoints.js:63-88 | the loop over the nine candidate values returns null at the first missing one and otherwise the record of all nine, which is the `Structure` of the body |
| Device.StructureObject | endpoints.js:64-87 | an object body yields a record iff it has all nine keys |
| Device.StructureFields | endpoints.js:66-76 | an accepted body's record holds the body's nine values unchanged, `null` included, under the renamed fields (`mcu_firmware`, `wlan_ver`, `reset_reason`) |
| Device.StructureToBody | endpoints.js:64-87 | a body that carries exactly a record's fields gives that record back |
| Device.ExtraKeysIgnored | endpoints.js:66-76 | adding a key outside the nine to the body does not change the result |
| Device.NonObjectRejected | endpoints.js:80-84 | a body that is not an object (an array, say) has no properties, so it yields null |
| Directory.DeviceCache.constructor | index.js:72 | the cache starts as an empty map with no keys in its order |
| Directory.DeviceCache.Set | endpoints.js:103 | `set` replaces or adds the entry for the key, appends a new key at the end of the order, keeps an existing key in place, and keeps the map and order consistent |
| Directory.OrderAfterSet | endpoints.js:103 | the `Map`'s key order after `set`: the old order stays a prefix; when the keys are those of the order, the new order holds exactly the old keys and the id, and it grows by one iff the id was new |
| Directory.SetKeepsConsistent | endpoints.js:103 | setting a key keeps the order distinct and equal to the map's keys |
| Directory.ConsistentSize | endpoints.js:172 | a consistent directory has as many entries as keys in its order |
| Directory.DistinctCard | endpoints.js:172 | a sequence without repetitions has as many distinct elements as positions |
| Mqtt.MqttClient.constructor | index.js:48 | a new client has published nothing and subscribed to nothing |
| Mqtt.MqttClient.Publish | endpoints.js:113 | a publish appends exactly one message with its topic, payload, QoS and retain flag, and leaves the subscriptions alone |
| Mqtt.MqttClient.Subscribe | mqtt_subscribe.js:7 | a subscribe appends exactly one subscription and publishes nothing |
| Mqtt.TopicMatches | mqtt_subscribe.js:6-7 | delivery under a subscription, MQTT 3.1.1 filter matching; what it gives for `device/#` is stated by Mqtt.DeviceWildcard |
| Mqtt.DeviceWildcard | mqtt_subscribe.js:6-7 | `device/#` matches a topic iff the topic's first level is `device`, whatever follows, including nothing |
| Strings.Split | mqtt_subscribe.js:13 | `split('/')` yields at least one part and no part contains the separator |
| Strings.Join | endpoints.js:47-48 | `join` with a one-character separator; what it promises is stated by Strings.JoinSeparates, Strings.JoinSplit, Strings.SplitJoin and Strings.JoinAvoids |
| Strings.JoinSeparates | endpoints.js:47-48 | `join` of two or more parts starts with the first part followed by the separator; Strings.JoinSplit, Strings.SplitJoin and Strings.JoinAvoids state how `join` relates to `split` |
| Strings.JoinSplit | mqtt_subscribe.js:13 | joining the parts of a split with the same separator gives back the original string |
| Strings.SplitJoin | mqtt_subscribe.js:13 | splitting the join of separator-free parts gives back exactly those parts |
| Strings.SplitNoSep | mqtt_subscribe.js:13 | a string without the separator splits into itself alone |
| Strings.SplitAfterPiece | mqtt_subscribe.js:13 | a separator-free first piece followed by the separator becomes the first part, and the rest splits on its own |
| Strings.JoinAvoids | endpoints.js:47-48 | a join introduces no character other than the separator |
| Json.DigitChar | endpoints.js:134 | a digit value prints as a character between `0` and `9` |
| Json.NatToString | endpoints.js:134 | a non-negative number prints as at least one decimal digit, and as exactly one iff it is below ten |
| Json.DecimalRoundTrip | endpoints.js:134 | reading back the decimal digits that a number prints as gives the number |
| Json.IntToString | endpoints.js:134 | `String(n)` of a non-negative integer below 10^21 is all decimal digits and reads back as `n` |
| Json.NegativeIntToString | endpoints.js:134 | `String(n)` of a negative integer above -10^21 is `-` followed by `String(-n)`, whose digits read back as `-n` |
| Json.StringThrows | endpoints.js:134-154 | the `String()` conversion of the tested value throws a `TypeError` exactly for an object with its own `toString` key, alone or inside arrays at any depth; only objects and arrays can throw |
| Json.ToJsString | endpoints.js:134 | `String(v)` as the regex test applies it, for a value that does not throw: an array of one non-null element prints as that element, and an array of two or more always contains a `,` |
| Json.ToJsStringOpt | endpoints.js:128-134 | `String(v)` of a property that may be `undefined`: a one-character form comes only from a string, a number or an array |
| Json.SingleCharForms | endpoints.js:134 | `String()` of a string is the string itself; an integer is one character iff it is 0 to 9, and then it is that digit |
| Endpoints.IsDigitUpTo | endpoints.js:134-154 | the test `^[0-max]$` on the string form; a passing value is a string, a number or an array, and Endpoints.AcceptedValues states exactly which |
| Endpoints.IsValidFanSpeed | endpoints.js:134 | `/^[0-3]$/`: a string passes iff it is one character `0` to `3`, an integer iff it is 0 to 3 |
| Endpoints.IsValidBrightness | endpoints.js:154 | `/^[0-4]$/`: a string passes iff it is one character `0` to `4`, an integer iff it is 0 to 4 |
| Endpoints.OwnToStringThrows | endpoints.js:128-134 | a `currentValue` object with its own `toString` key makes the test throw, directly or nested in arrays |
| Endpoints.AcceptedValues | endpoints.js:134-154 | the value tests accept exactly a one-character string `"0"` to the maximum, an integer from 0 to the maximum, or an array whose only element is not null and is itself accepted (`[2]`, `["3"]`); never a missing value, null, a boolean or an object |
| Endpoints.HelloTopic | endpoints.js:110 | the handshake topic `device/{id}/patate`; its levels are stated by Endpoints.TopicLevels |
| Endpoints.AttributeTopic | endpoints.js:139-159 | the attribute topic `device/{id}/attribute/{name}`; its levels are stated by Endpoints.TopicLevels |
| Endpoints.TopicLevels | endpoints.js:106-159 | the handshake topic has the levels `device`, id, `patate`, and an attribute topic has the levels `device`, id, `attribute`, name |
| Endpoints.FixedLineFieldsPlain | endpoints.js:29-37 | none of the seven fixed fields of the first CSV line contains `;` or a newline |
| Endpoints.TwoLineCsvRoundTrip | endpoints.js:47-48 | two `;`-joined lines of plain fields, separated by one newline, read back as those two lines of fields |
| Endpoints.ConnectionsCsvText | endpoints.js:29-48 | the CSV text: the `;`-joined fixed line, a line feed and the `;`-joined broker line; Endpoints.ConnectionsCsvParses states how it reads back |
| Endpoints.ConnectionsCsvParses | endpoints.js:29-48 | when the broker settings contain no `;` or newline, the CSV reads back as two lines: the seven fixed fields, then URL, port, user name and password (empty when unset) and `false` |
| Endpoints.EmailShaped | endpoints.js:168 | the unanchored test `\S+@\S+\.\S+`; an accepted name has at least five characters, an `@` after its first character and a `.` |
| Endpoints.EmailShapedUnanchored | endpoints.js:168 | the user-name pattern is unanchored, so any text around an accepted name is accepted too |
| Endpoints.DiscoveryUserNameAccepted | openhab/blueair.js:29 | `anyone@email.com`, the name the openHAB discovery rule requests, passes the user-name check of endpoints.js:168 |
| Endpoints.EmailShapedNeedsAt | endpoints.js:168 | a name where every `@` follows whitespace or starts the name is refused |
| Endpoints.Summarize | endpoints.js:174-179 | one device's entry: its id, the owner number, its MAC and an empty name; Endpoints.ListingCoversDirectory states these per entry |
| Endpoints.Listing | endpoints.js:172-179 | the entries of the directory in key order; Endpoints.ListingCoversDirectory and Endpoints.ListingAfterSet state its contents |
| Endpoints.ListingCoversDirectory | endpoints.js:172-179 | the listing has one entry per registered device, with no repetitions, each with its own MAC, the owner number 86471 and an empty name |
| Endpoints.ListingAfterReplace | endpoints.js:103-179 | re-registering a known device keeps the listing's length and order and changes only that device's entry, to its new record |
| Endpoints.ListingAfterAppend | endpoints.js:103-179 | registering a new device appends exactly its entry to the listing |
| Endpoints.ListingAfterSet | endpoints.js:103-179 | after registering, a new device is listed last, a known one keeps its place with only the new record visible, and all other entries are unchanged |
| Endpoints.Router.constructor | endpoints.js:5 | the router closes over the given cache, client and configuration |
| Endpoints.Router.ApiDomain | endpoints.js:17-19 | answers 200 with the broker API URL as plain text, or an empty body when it is unset |
| Endpoints.Router.ConnectionsCsv | endpoints.js:22-50 | an invalid identifier is answered 400 with the text body `Invalid device ID`; otherwise 200 with the two-line CSV |
| Endpoints.Router.FirmwareUpdate | endpoints.js:52-61 | an invalid identifier is answered 400 with the JSON error; otherwise 200 with an empty body, for both firmware routes |
| Endpoints.Router.Hello | endpoints.js:90-123 | a bad identifier and then bad data are answered 400 with a text body and nothing changed; otherwise the record replaces any earlier one, the retained handshake `1;10;2` is published once at QoS 1, and the answer is 500 when the publish fails (the record stays) and 200 otherwise |
| Endpoints.Router.SetFanSpeed | endpoints.js:125-143 | the identifier is checked first, then the value against `[0-3]`, each failure answered 400 with nothing published; a value whose conversion throws (Json.StringThrows) gets Express's 500 error page, with nothing published; on success the value is published on `fan_speed` and `manual` on `mode`, both at QoS 1 and not retained, and the answer is 200 |
| Endpoints.Router.SetBrightness | endpoints.js:145-162 | the same checks with `[0-4]`, the same 500 when the conversion throws, then one QoS 1, non-retained publish on `brightness` and a 200 |
| Endpoints.Router.OwnerDevices | endpoints.js:164-182 | a name without the e-mail shape is answered 400; any other name gets every registered device in registration order, with no filter by owner |
| Endpoints.RepeatedFanSpeed | endpoints.js:125-143 | repeating a fan-speed call gives the same answer and publishes the same messages again: the handler reads no state that it writes |
| Relay.ParseTopic | mqtt_subscribe.js:13-22 | a topic is relayed iff it has at least five levels, the fifth is `push` and the fourth is `fan_speed` or `brightness`; the identifier is the second level, unchecked |
| Relay.RelayedTopicShape | mqtt_subscribe.js:13-22 | the first and third levels and any levels after the fifth are ignored: such a topic is relayed with its second level as the identifier |
| Relay.PushTopicJoin | mqtt_subscribe.js:13 | a push topic is the join with `/` of its five levels |
| Relay.DevicePushRelayed | mqtt_subscribe.js:6-28 | a device's `device/{id}/attribute/{attr}/push` is delivered under the subscription and relayed with that identifier and attribute |
| Relay.GatewayPublishesNotRelayed | mqtt_subscribe.js:6-22 | the gateway's own handshake and attribute publishes match `device/#` but are never relayed |
| Relay.ItemName | mqtt_subscribe.js:33-41 | the item name for an attribute, or none; Relay.ItemNameOfAttribute states which and how it is built |
| Relay.ItemNameOfAttribute | mqtt_subscribe.js:31-41 | only `fan_speed` and `brightness` have items, named `BlueAir_{id}_fanspeed` and `BlueAir_{id}_brightness` |
| Relay.RelayedTopicHasItem | mqtt_subscribe.js:13-41 | every topic the handler relays names an item, `BlueAir_{id}_{suffix}`, so the unsupported-attribute branch is never reached from the handler |
| Relay.ItemNameParts | openhab/blueair.js:71-73 | splitting an item name on `_` gives back `BlueAir`, the identifier and the attribute suffix when the identifier has no `_` |
| Relay.ItemStateRequest | mqtt_subscribe.js:44-54 | the `PUT` of the value to the item's state path with the plain-text content type; Relay.RelayedRequest states its fields |
| Relay.RequestsFor | mqtt_subscribe.js:11-71 | a message gives rise to at most one request, and every request is a `PUT` of the payload on a path `http.request` accepts |
| Relay.ItemPathLevels | mqtt_subscribe.js:48 | the item-state path has exactly the levels `rest`, `items`, the item and `state` |
| Relay.RelayedRequest | mqtt_subscribe.js:11-71 | an ignored message sends nothing; a relayed one whose identifier holds a character outside U+0021..U+00FF sends nothing either; otherwise exactly one `PUT` with a plain-text body equal to the payload, to `/rest/items/{item}/state` for the topic's identifier and attribute |
| Relay.ItemPathAccepted | mqtt_subscribe.js:44-56 | `http.request` accepts the item path iff every character of the identifier lies in U+0021..U+00FF; the fixed parts always pass |
| Relay.ValidDevicePushForwarded | mqtt_subscribe.js:11-71 | every push from a device with a valid identifier is forwarded as exactly one update of its item |
| Relay.SpacedIdNotForwarded | mqtt_subscribe.js:13-56 | a push whose identifier level holds a space passes the topic filter, but `http.request` refuses its path, so nothing is sent |
| Relay.TelemetryRelay.Setup | mqtt_subscribe.js:4-8 | setting up subscribes exactly once, to `device/#` at QoS 1, publishes nothing and has sent no request |
| Relay.TelemetryRelay.OnMessage | mqtt_subscribe.js:11-29 | a message adds to the request log exactly the requests `RequestsFor` gives for its topic and payload, and the handler throws iff the topic is relayed but its identifier makes the path refused |
| Relay.TelemetryRelay.UpdateOpenHABItem | mqtt_subscribe.js:31-72 | an unknown attribute sends nothing and does not throw; for a known one, `http.request` throws and nothing is sent iff the path is refused, and otherwise one item-state request carrying the value is appended |
| Relay.TelemetryRelay.OnResponse | mqtt_subscribe.js:56-63 | the update counts as successful iff openHAB answers 202; either way nothing else happens |

How the relay is wired:
- `setupMqttSubscription` subscribes to `device/#` unconditionally, whatever the configuration holds.
- `index.js` does not call `setupMqttSubscription`, and its configuration has no openHAB entries. The relay is therefore modelled as its own module, with the configuration passed in.

## Left out

- Process start-up in `index.js` is not modelled: reading environment variables, connecting to the broker, its connection event handlers and listening on port 3000. The configuration is a parameter.
- Logging is not modelled: the request-logging middleware and every `console` call produce output only.
- Express routing and body parsing are not modelled. Each route is a method, and a body is a JSON value. The JSON body parser refuses bodies other than objects and arrays before any route runs, so `null.localIp` never throws. The model answers a non-object body with 400.
- JSON numbers are integers in the model. Fractional numbers and their `String()` forms are not modelled.
- Json.IntToString: JavaScript prints numbers of magnitude 10^21 and up in exponent form (`String(1e21)` is `"1e+21"`), and `JSON.parse` rounds integers beyond 2^53 to the nearest double. The model keeps every integer exact and prints all its digits. No answer changes, because such values fail the one-digit tests either way.
- Json.NegativeIntToString: the same gap applies to negative integers of those magnitudes.
- Endpoints.Router.SetFanSpeed: the content of Express's error page (its HTML, and the stack trace outside production) is not modelled; the response is status 500 with `ErrorPage`.
- Endpoints.Router.SetBrightness: the same applies to its error page.
- Asynchronous behaviour is not modelled: the broker's acknowledgement of the `hello` publish is the `publishFails` input, and the order of callbacks is not modelled.
- Endpoints.Router.SetFanSpeed: a non-string value that passes the check (the number `2`) is recorded as its string form `"2"`. How the MQTT client would serialise such a payload is not modelled.
- Endpoints.Router.SetBrightness: the same applies to its value.
- Relay.TelemetryRelay.OnMessage: the payload is its decoded string. UTF-8 decoding of the message buffer is not modelled.
- Relay.TelemetryRelay.OnResponse: the status message and the request's `error` event are only logged by the source, so they are not modelled.
- The key order of JSON answers is not modelled, because objects are maps.
- Response content types are not modelled. `res.send` of a string answers `text/html`, and only the API-domain route sets `text/plain`. The model keeps the body text and whether the body is JSON.
- Relay.TelemetryRelay.OnMessage: when `http.request` refuses the path, the model reports the exception as `thrown`. What the MQTT client then does with the exception escaping its `message` listener is not modelled.
- Concurrency between requests is not modelled, nor is the MQTT client's internal queue.
- The openHAB rules in `openhab/blueair.js` are not part of this model. Only the item-name split they rely on is stated, in `Relay.ItemNameParts`.
