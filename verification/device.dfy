/** Device identifiers and the nine-field registration record
    (`isValidDeviceId` and `structureDeviceData` in endpoints.js). */
module Device {
  import opened Wrappers
  import opened Json

  /** Case folding of a case-insensitive JavaScript regular expression,
      restricted to what matters for the class `[A-F0-9]`: ASCII lower-case
      letters fold to upper case, and no character outside ASCII folds into
      ASCII. */
  function FoldCase(c: char): char
  {
    if 'a' <= c <= 'z' then (c as int - 32) as char else c
  }

  /** Whether `c` matches the class `[A-F0-9]` under the `i` flag. */
  function IsHexChar(c: char): (b: bool)
    ensures b <==> ('0' <= c <= '9' || 'A' <= c <= 'F' || 'a' <= c <= 'f')
  {
    var u := FoldCase(c);
    '0' <= u <= '9' || 'A' <= u <= 'F'
  }

  /** How many characters the class matches from the start of `s`. */
  function HexRun(s: string): (n: nat)
    ensures n <= |s|
    ensures forall i | 0 <= i < n :: IsHexChar(s[i])
    ensures n < |s| ==> !IsHexChar(s[n])
    decreases |s|
  {
    if |s| == 0 || !IsHexChar(s[0]) then 0 else 1 + HexRun(s[1..])
  }

  /** `/^[A-F0-9]{16}$/i.test(s)`: sixteen hexadecimal characters in either
      case, and nothing else. */
  function IsValidDeviceId(s: string): (ok: bool)
    ensures ok <==> (|s| == 16 &&
      forall i | 0 <= i < |s| :: '0' <= s[i] <= '9' || 'A' <= s[i] <= 'F' || 'a' <= s[i] <= 'f')
  {
    |s| == 16 && HexRun(s) == 16
  }

  /** A valid identifier holds none of the characters that separate MQTT
      topic levels, openHAB item-name parts or CSV fields. */
  lemma ValidIdSeparators(id: string)
    requires IsValidDeviceId(id)
    ensures '/' !in id && '_' !in id && '#' !in id && '+' !in id && ';' !in id
  {
  }

  /** The registration record: the nine fields copied from the request body.
      A field may hold any JSON value, `null` included. */
  datatype DeviceRecord = DeviceRecord(
    localIp: Json,
    firmware: Json,
    mcuFirmware: Json,
    mac: Json,
    wlanVer: Json,
    resetReason: Json,
    compatibility: Json,
    model: Json,
    calibration: Json)

  /** The body keys of the record, in the order the source lists them. */
  const FieldNames: seq<string> :=
    ["localIp", "firmware", "mcu_firmware", "mac", "wlan_ver",
     "reset_reason", "compatibility", "model", "calibration"]

  /** Every one of the nine keys is present (not `undefined`) in `data`. */
  predicate HasAllFields(data: Json)
  {
    forall i | 0 <= i < |FieldNames| :: Get(data, FieldNames[i]).Some?
  }

  /** What `structureDeviceData(data)` returns: the record of the nine
      values when all are present, otherwise `null` (`None`). */
  function Structure(data: Json): (r: Option<DeviceRecord>)
    ensures r.Some? <==> HasAllFields(data)
    ensures r.Some? ==>
      forall i | 0 <= i < |FieldNames| :: Get(data, FieldNames[i]) == Get(ToBody(r.value), FieldNames[i])
  {
    if HasAllFields(data) then
      assert Get(data, FieldNames[0]).Some? && Get(data, FieldNames[1]).Some?
        && Get(data, FieldNames[2]).Some? && Get(data, FieldNames[3]).Some?
        && Get(data, FieldNames[4]).Some? && Get(data, FieldNames[5]).Some?
        && Get(data, FieldNames[6]).Some? && Get(data, FieldNames[7]).Some?
        && Get(data, FieldNames[8]).Some?;
      Some(DeviceRecord(
        Get(data, "localIp").value, Get(data, "firmware").value,
        Get(data, "mcu_firmware").value, Get(data, "mac").value,
        Get(data, "wlan_ver").value, Get(data, "reset_reason").value,
        Get(data, "compatibility").value, Get(data, "model").value,
        Get(data, "calibration").value))
    else None
  }

  /** `structureDeviceData`: read the nine properties into a candidate
      record, then scan it and give up at the first `undefined` value. */
  method StructureDeviceData(data: Json) returns (r: Option<DeviceRecord>)
    ensures r == Structure(data)
  {
    var structured := seq(|FieldNames|, i requires 0 <= i < |FieldNames| => Get(data, FieldNames[i]));
    var i := 0;
    while i < |structured|
      invariant 0 <= i <= |structured|
      invariant forall j | 0 <= j < i :: structured[j].Some?
    {
      if structured[i].None? {
        return None;
      }
      i := i + 1;
    }
    r := Some(DeviceRecord(
      structured[0].value, structured[1].value, structured[2].value,
      structured[3].value, structured[4].value, structured[5].value,
      structured[6].value, structured[7].value, structured[8].value));
  }

  /** The request body that carries exactly the fields of `rec`. */
  function ToBody(rec: DeviceRecord): Json
  {
    JObj(map[
      "localIp" := rec.localIp, "firmware" := rec.firmware,
      "mcu_firmware" := rec.mcuFirmware, "mac" := rec.mac,
      "wlan_ver" := rec.wlanVer, "reset_reason" := rec.resetReason,
      "compatibility" := rec.compatibility, "model" := rec.model,
      "calibration" := rec.calibration])
  }

  /** Structuring the body built from a record gives the record back. */
  lemma StructureToBody(rec: DeviceRecord)
    ensures Structure(ToBody(rec)) == Some(rec)
  {
  }

  /** An object body is accepted iff all nine keys are present. */
  lemma StructureObject(fields: map<string, Json>)
    ensures Structure(JObj(fields)).Some? <==> forall k | k in FieldNames :: k in fields
  {
    if forall k | k in FieldNames :: k in fields {
      assert HasAllFields(JObj(fields));
    } else {
      var k :| k in FieldNames && k !in fields;
      var i :| 0 <= i < |FieldNames| && FieldNames[i] == k;
      assert Get(JObj(fields), FieldNames[i]).None?;
    }
  }

  /** An accepted body's record holds the body's nine values unchanged,
      `null` included. */
  lemma StructureFields(data: Json)
    ensures Structure(data).Some? ==>
      var rec := Structure(data).value;
      && Get(data, "localIp") == Some(rec.localIp) && Get(data, "firmware") == Some(rec.firmware)
      && Get(data, "mcu_firmware") == Some(rec.mcuFirmware) && Get(data, "mac") == Some(rec.mac)
      && Get(data, "wlan_ver") == Some(rec.wlanVer) && Get(data, "reset_reason") == Some(rec.resetReason)
      && Get(data, "compatibility") == Some(rec.compatibility) && Get(data, "model") == Some(rec.model)
      && Get(data, "calibration") == Some(rec.calibration)
  {
    if Structure(data).Some? {
      assert HasAllFields(data);
      assert Get(data, FieldNames[0]).Some? && Get(data, FieldNames[1]).Some?
        && Get(data, FieldNames[2]).Some? && Get(data, FieldNames[3]).Some?
        && Get(data, FieldNames[4]).Some? && Get(data, FieldNames[5]).Some?
        && Get(data, FieldNames[6]).Some? && Get(data, FieldNames[7]).Some?
        && Get(data, FieldNames[8]).Some?;
    }
  }

  /** Keys other than the nine are dropped: adding one changes nothing. */
  lemma ExtraKeysIgnored(fields: map<string, Json>, k: string, v: Json)
    requires k !in FieldNames
    ensures Structure(JObj(fields[k := v])) == Structure(JObj(fields))
  {
  }

  /** A body that is not an object (an array, say) is rejected. */
  lemma NonObjectRejected(data: Json)
    requires !data.JObj?
    ensures Structure(data) == None
  {
    assert Get(data, FieldNames[0]).None?;
  }
}
