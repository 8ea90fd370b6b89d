/**
  The field extractor, `process_payload`: from a decoded message it builds the
  common field map, the type-specific field map and the measurement name.
  Every map the extractor builds is described by a table that gives, for each
  output field in the order of the dictionary literal, the key it is read from and how a value
  is obtained.
 */
module FieldExtractor {
  import opened Wrappers
  import opened Json

  /** Python's `float(...)`: a conversion that may raise. Its numeric behaviour is left abstract. */
  type FloatConversion = Value -> Option<real>

  /** How one output field is obtained from the object it is read from. */
  datatype Policy =
    | PassThrough      // obj.get(key): the value unchanged, None when absent
    | FloatOrZero      // float(obj.get(key, 0))
    | FloatUnlessNone  // float(obj.get(key)) if obj.get(key) is not None else None

  datatype FieldSpec = FieldSpec(name: string, source: string, policy: Policy)

  function Field(name: string, policy: Policy): FieldSpec {
    FieldSpec(name, name, policy)
  }

  /** The common fields, read from the message itself. */
  const CommonTable: seq<FieldSpec> := [
    Field("channel", PassThrough),
    FieldSpec("from_field", "from", PassThrough),
    Field("hop_start", PassThrough),
    Field("hops_away", PassThrough),
    Field("rssi", PassThrough),
    Field("snr", FloatUnlessNone),
    Field("timestamp", PassThrough)
  ]

  /** The fields of a `telemetry` message, read from its inner payload. */
  const TelemetryTable: seq<FieldSpec> := [
    Field("air_util_tx", FloatOrZero),
    Field("battery_level", PassThrough),
    Field("channel_utilization", FloatOrZero),
    Field("voltage", FloatOrZero),
    Field("uptime_seconds", PassThrough),
    Field("barometric_pressure", FloatOrZero),
    Field("current", FloatOrZero),
    Field("gas_resistance", FloatOrZero),
    Field("iaq", FloatOrZero),
    Field("lux", FloatOrZero),
    Field("relative_humidity", FloatOrZero),
    Field("temperature", FloatOrZero),
    Field("white_lux", FloatOrZero),
    Field("wind_direction", FloatOrZero),
    Field("wind_gust", FloatOrZero),
    Field("wind_lull", FloatOrZero),
    Field("wind_speed", FloatOrZero)
  ]

  /** The fields of a `nodeinfo` message, read from its inner payload. */
  const NodeInfoTable: seq<FieldSpec> := [
    Field("hardware", PassThrough),
    Field("role", PassThrough),
    Field("longname", PassThrough),
    Field("shortname", PassThrough)
  ]

  /** The fields of a `position` message, read from its inner payload. */
  const PositionTable: seq<FieldSpec> := [
    Field("altitude", PassThrough),
    Field("latitude_i", PassThrough),
    Field("longitude_i", PassThrough),
    Field("precision_bits", PassThrough)
  ]

  /** The output names of a table. */
  function Names(table: seq<FieldSpec>): set<string> {
    set i | 0 <= i < |table| :: table[i].name
  }

  /** The result of `float(v)` for the field `name`. */
  function Convert(v: Value, name: string, toFloat: FloatConversion): (r: Result<Value, Error>)
    ensures r.Ok? <==> toFloat(v).Some?
    ensures r.Ok? ==> r.value == Float(toFloat(v).value)
    ensures r.Err? ==> r.error == BadFloat(name)
  {
    match toFloat(v)
    case None => Err(BadFloat(name))
    case Some(x) => Ok(Float(x))
  }

  /** The value one field gets from `obj`, or the exception obtaining it raises. */
  function FieldValue(spec: FieldSpec, obj: JsonObject, toFloat: FloatConversion): Result<Value, Error> {
    match spec.policy
    case PassThrough => Ok(Get(obj, spec.source))
    case FloatOrZero => Convert(GetOr(obj, spec.source, Int(0)), spec.name, toFloat)
    case FloatUnlessNone =>
      var v := Get(obj, spec.source);
      if v == Null then Ok(Null) else Convert(v, spec.name, toFloat)
  }

  /**
    The dictionary literal a table describes, evaluated in the table's order:
    the first field whose value raises decides the exception, and, as in a
    Python dict literal, a name written twice keeps its last value.
   */
  function ExtractFields(table: seq<FieldSpec>, obj: JsonObject, toFloat: FloatConversion): (r: Result<map<string, Value>, Error>)
    ensures r.Ok? <==> forall i :: 0 <= i < |table| ==> FieldValue(table[i], obj, toFloat).Ok?
    ensures r.Ok? ==> r.value.Keys == Names(table)
    ensures r.Err? ==> exists i :: 0 <= i < |table| && FieldValue(table[i], obj, toFloat) == Err(r.error)
                                   && forall j :: 0 <= j < i ==> FieldValue(table[j], obj, toFloat).Ok?
  {
    if table == [] then Ok(map[])
    else
      var head := table[0];
      match FieldValue(head, obj, toFloat)
      case Err(e) => Err(e)
      case Ok(v) =>
        match ExtractFields(table[1..], obj, toFloat)
        case Err(e) => Err(e)
        case Ok(rest) => Ok(if head.name in rest then rest else rest[head.name := v])
  }

  /** The message types the extractor recognises, compared by string as `process_payload` does. */
  datatype Kind = Telemetry | NodeInfo | Position | Unrecognized

  function Classify(t: Value): Kind {
    if t == Str("telemetry") then Telemetry
    else if t == Str("nodeinfo") then NodeInfo
    else if t == Str("position") then Position
    else Unrecognized
  }

  function TableOf(k: Kind): seq<FieldSpec> {
    match k
    case Telemetry => TelemetryTable
    case NodeInfo => NodeInfoTable
    case Position => PositionTable
    case Unrecognized => []
  }

  function MeasurementOf(k: Kind): string {
    match k
    case Telemetry => "telemetry"
    case NodeInfo => "nodeinfo"
    case Position => "position"
    case Unrecognized => ""
  }

  /** What `process_payload` returns: `(common_fields, specific_fields, measurement)`. */
  datatype Extraction = Extraction(common: map<string, Value>, specific: map<string, Value>, measurement: string)

  /** Every key of an extracted map holds the value of a field of that name. */
  lemma {:induction false} ExtractFieldsValues(table: seq<FieldSpec>, obj: JsonObject, toFloat: FloatConversion)
    ensures var r := ExtractFields(table, obj, toFloat);
      r.Ok? ==> forall k :: k in r.value ==>
        exists i :: 0 <= i < |table| && table[i].name == k && r.value[k] == FieldValue(table[i], obj, toFloat).value
  {
    if table != [] && ExtractFields(table, obj, toFloat).Ok? {
      var r := ExtractFields(table, obj, toFloat).value;
      var rest := ExtractFields(table[1..], obj, toFloat).value;
      ExtractFieldsValues(table[1..], obj, toFloat);
      forall k | k in r
        ensures exists i :: 0 <= i < |table| && table[i].name == k && r[k] == FieldValue(table[i], obj, toFloat).value
      {
        if k != table[0].name || table[0].name in rest {
          var j :| 0 <= j < |table[1..]| && table[1..][j].name == k && rest[k] == FieldValue(table[1..][j], obj, toFloat).value;
          assert table[j + 1] == table[1..][j];
        }
      }
    }
  }

  /** A field whose name no later field uses keeps its own value: the last of a name wins. */
  lemma {:induction false} ExtractFieldsLast(table: seq<FieldSpec>, obj: JsonObject, toFloat: FloatConversion, i: int)
    requires 0 <= i < |table|
    requires forall j :: i < j < |table| ==> table[j].name != table[i].name
    ensures var r := ExtractFields(table, obj, toFloat);
      r.Ok? ==> r.value[table[i].name] == FieldValue(table[i], obj, toFloat).value
  {
    if ExtractFields(table, obj, toFloat).Ok? {
      var rest := ExtractFields(table[1..], obj, toFloat).value;
      if i == 0 {
        assert table[0].name !in Names(table[1..]) by {
          forall j | 0 <= j < |table[1..]| ensures table[1..][j].name != table[0].name {
            assert table[1..][j] == table[j + 1];
          }
        }
      } else {
        assert table[1..][i - 1] == table[i];
        forall j | i - 1 < j < |table[1..]| ensures table[1..][j].name != table[1..][i - 1].name {
          assert table[1..][j] == table[j + 1];
        }
        ExtractFieldsLast(table[1..], obj, toFloat, i - 1);
      }
    }
  }

  const CommonKeys: set<string> := {"channel", "from_field", "hop_start", "hops_away", "rssi", "snr", "timestamp"}

  const TelemetryKeys: set<string> := {
    "air_util_tx", "battery_level", "channel_utilization", "voltage", "uptime_seconds",
    "barometric_pressure", "current", "gas_resistance", "iaq", "lux", "relative_humidity",
    "temperature", "white_lux", "wind_direction", "wind_gust", "wind_lull", "wind_speed"
  }

  /** The two telemetry fields passed through without conversion or default. */
  const TelemetryOptionalKeys: set<string> := {"battery_level", "uptime_seconds"}

  const NodeInfoKeys: set<string> := {"hardware", "role", "longname", "shortname"}

  const PositionKeys: set<string> := {"altitude", "latitude_i", "longitude_i", "precision_bits"}

  /** The telemetry keys by group: device metrics, environment metrics and wind. */
  const DeviceMetricKeys: set<string> := {"air_util_tx", "battery_level", "channel_utilization", "voltage", "uptime_seconds"}

  const EnvironmentKeys: set<string> := {
    "barometric_pressure", "current", "gas_resistance", "iaq", "lux", "relative_humidity", "temperature", "white_lux"
  }

  const WindKeys: set<string> := {"wind_direction", "wind_gust", "wind_lull", "wind_speed"}

  lemma GroupSizes()
    ensures |DeviceMetricKeys| == 5 && |EnvironmentKeys| == 8 && |WindKeys| == 4
  {
  }

  lemma GroupsDisjoint()
    ensures DeviceMetricKeys * EnvironmentKeys == {}
    ensures (DeviceMetricKeys + EnvironmentKeys) * WindKeys == {}
  {
  }

  /** A telemetry record has seventeen fields, two of them optional. */
  lemma TelemetryKeyCount()
    ensures |TelemetryKeys| == 17 && |TelemetryOptionalKeys| == 2 && TelemetryOptionalKeys <= TelemetryKeys
  {
    GroupSizes();
    GroupsDisjoint();
    assert TelemetryKeys == DeviceMetricKeys + EnvironmentKeys + WindKeys;
  }

  /** The common map has seven keys; nodeinfo and position records have four fields each. */
  lemma KeyCounts()
    ensures |CommonKeys| == 7 && |NodeInfoKeys| == 4 && |PositionKeys| == 4
  {
  }

  /** Every name of `table` is in `keys`, and every key in `keys` names a field of `table`. */
  ghost predicate NamesAre(table: seq<FieldSpec>, keys: set<string>) {
    && (forall i :: 0 <= i < |table| ==> table[i].name in keys)
    && (forall k :: k in keys ==> exists i :: 0 <= i < |table| && table[i].name == k)
  }

  lemma NamesAreKeys(table: seq<FieldSpec>, keys: set<string>)
    requires NamesAre(table, keys)
    ensures Names(table) == keys
  {
  }

  lemma CommonTableNames()
    ensures NamesAre(CommonTable, CommonKeys)
  {
    var t := CommonTable;
    assert t[0].name == "channel" && t[1].name == "from_field" && t[2].name == "hop_start";
    assert t[3].name == "hops_away" && t[4].name == "rssi" && t[5].name == "snr" && t[6].name == "timestamp";
  }

  lemma TelemetryTableNames()
    ensures NamesAre(TelemetryTable, TelemetryKeys)
  {
    TelemetryNamesKnown();
    TelemetryKeysNamed();
  }

  lemma TelemetryNamesKnown()
    ensures forall i :: 0 <= i < |TelemetryTable| ==> TelemetryTable[i].name in TelemetryKeys
  {
  }

  lemma TelemetryKeysNamed()
    ensures forall k :: k in TelemetryKeys ==> exists i :: 0 <= i < |TelemetryTable| && TelemetryTable[i].name == k
  {
    var t := TelemetryTable;
    assert t[0].name == "air_util_tx" && t[1].name == "battery_level" && t[2].name == "channel_utilization";
    assert t[3].name == "voltage" && t[4].name == "uptime_seconds" && t[5].name == "barometric_pressure";
    assert t[6].name == "current" && t[7].name == "gas_resistance" && t[8].name == "iaq" && t[9].name == "lux";
    assert t[10].name == "relative_humidity" && t[11].name == "temperature" && t[12].name == "white_lux";
    assert t[13].name == "wind_direction" && t[14].name == "wind_gust" && t[15].name == "wind_lull";
    assert t[16].name == "wind_speed";
  }

  lemma NodeInfoTableNames()
    ensures NamesAre(NodeInfoTable, NodeInfoKeys)
  {
    var t := NodeInfoTable;
    assert t[0].name == "hardware" && t[1].name == "role" && t[2].name == "longname" && t[3].name == "shortname";
  }

  lemma PositionTableNames()
    ensures NamesAre(PositionTable, PositionKeys)
  {
    var t := PositionTable;
    assert t[0].name == "altitude" && t[1].name == "latitude_i" && t[2].name == "longitude_i";
    assert t[3].name == "precision_bits";
  }

  /** The key sets of the four tables, written out. */
  lemma CommonTableKeys()
    ensures Names(CommonTable) == CommonKeys
  {
    CommonTableNames();
    NamesAreKeys(CommonTable, CommonKeys);
  }

  lemma TelemetryTableKeys()
    ensures Names(TelemetryTable) == TelemetryKeys
  {
    TelemetryTableNames();
    NamesAreKeys(TelemetryTable, TelemetryKeys);
  }

  lemma NodeInfoTableKeys()
    ensures Names(NodeInfoTable) == NodeInfoKeys
  {
    NodeInfoTableNames();
    NamesAreKeys(NodeInfoTable, NodeInfoKeys);
  }

  lemma PositionTableKeys()
    ensures Names(PositionTable) == PositionKeys
  {
    PositionTableNames();
    NamesAreKeys(PositionTable, PositionKeys);
  }

  /** The common map of `process_payload`, or the exception its `snr` conversion raises. */
  function CommonFields(msg: JsonObject, toFloat: FloatConversion): Result<map<string, Value>, Error> {
    ExtractFields(CommonTable, msg, toFloat)
  }

  /** No two common fields share a name. */
  lemma CommonNamesDistinct()
    ensures forall i, j :: 0 <= j < i < |CommonTable| ==> CommonTable[j].name != CommonTable[i].name
  {
  }

  /**
    Building the common map fails exactly when `snr` is neither None nor
    convertible, and then with the name `snr`: every other common field is
    passed through.
   */
  lemma CommonFieldsOutcome(msg: JsonObject, toFloat: FloatConversion)
    ensures var snr := Get(msg, "snr");
      CommonFields(msg, toFloat).Ok? <==> (snr == Null || toFloat(snr).Some?)
    ensures CommonFields(msg, toFloat).Err? ==> CommonFields(msg, toFloat).error == BadFloat("snr")
  {
    var t := CommonTable;
    var r := ExtractFields(t, msg, toFloat);
    var snr := Get(msg, "snr");
    assert t[5] == Field("snr", FloatUnlessNone);
    assert forall j :: 0 <= j < |t| && j != 5 ==> t[j].policy == PassThrough;
    if r.Err? {
      var i :| 0 <= i < |t| && FieldValue(t[i], msg, toFloat) == Err(r.error);
    }
  }

  /**
    The common map has exactly the seven common keys; each holds the
    message's value (None when absent), except `snr`, which is converted only
    when it is not None.
   */
  lemma CommonFieldsValues(msg: JsonObject, toFloat: FloatConversion)
    ensures CommonFields(msg, toFloat).Ok? ==>
      var c := CommonFields(msg, toFloat).value;
      var snr := Get(msg, "snr");
      && c.Keys == CommonKeys
      && c["channel"] == Get(msg, "channel")
      && c["from_field"] == Get(msg, "from")
      && c["hop_start"] == Get(msg, "hop_start")
      && c["hops_away"] == Get(msg, "hops_away")
      && c["rssi"] == Get(msg, "rssi")
      && (snr == Null ==> c["snr"] == Null)
      && (snr != Null ==> toFloat(snr).Some? && c["snr"] == Float(toFloat(snr).value))
      && c["timestamp"] == Get(msg, "timestamp")
  {
    var t := CommonTable;
    if ExtractFields(t, msg, toFloat).Ok? {
      CommonTableKeys();
      assert t[0] == Field("channel", PassThrough) && t[1] == FieldSpec("from_field", "from", PassThrough);
      assert t[2] == Field("hop_start", PassThrough) && t[3] == Field("hops_away", PassThrough);
      assert t[4] == Field("rssi", PassThrough) && t[5] == Field("snr", FloatUnlessNone);
      assert t[6] == Field("timestamp", PassThrough);
      CommonFieldValue(msg, toFloat, 0);
      CommonFieldValue(msg, toFloat, 1);
      CommonFieldValue(msg, toFloat, 2);
      CommonFieldValue(msg, toFloat, 3);
      CommonFieldValue(msg, toFloat, 4);
      CommonFieldValue(msg, toFloat, 5);
      CommonFieldValue(msg, toFloat, 6);
    }
  }

  /** Some key a common field is read from holds a value other than None. */
  predicate AnyCommonInput(msg: JsonObject) {
    exists i :: 0 <= i < |CommonTable| && Get(msg, CommonTable[i].source) != Null
  }

  /** A common field is None exactly when the key it is read from is absent or None. */
  lemma CommonFieldPresent(msg: JsonObject, toFloat: FloatConversion, i: int)
    requires 0 <= i < |CommonTable|
    ensures var r := CommonFields(msg, toFloat);
      r.Ok? ==> (r.value[CommonTable[i].name] == Null <==> Get(msg, CommonTable[i].source) == Null)
  {
    var t := CommonTable;
    assert t[i].policy == PassThrough || t[i].policy == FloatUnlessNone;
    CommonFieldValue(msg, toFloat, i);
  }

  /** Each common field holds its own value. */
  lemma CommonFieldValue(msg: JsonObject, toFloat: FloatConversion, i: int)
    requires 0 <= i < |CommonTable|
    ensures var r := CommonFields(msg, toFloat);
      r.Ok? ==> r.value[CommonTable[i].name] == FieldValue(CommonTable[i], msg, toFloat).value
  {
    CommonNamesDistinct();
    ExtractFieldsLast(CommonTable, msg, toFloat, i);
  }

  /** What `float(obj.get(key, 0))` gives for a telemetry field, when it succeeds. */
  predicate FloatWithDefault(obj: JsonObject, key: string, toFloat: FloatConversion, v: Value) {
    toFloat(GetOr(obj, key, Int(0))).Some? && v == Float(toFloat(GetOr(obj, key, Int(0))).value)
  }

  /** Each telemetry field is read under its own name, by the policy its name calls for. */
  lemma TelemetryFieldValue(inner: JsonObject, toFloat: FloatConversion, i: int)
    requires 0 <= i < |TelemetryTable|
    ensures var f := TelemetryTable[i];
      FieldValue(f, inner, toFloat) ==
        if f.name in TelemetryOptionalKeys then Ok(Get(inner, f.name))
        else Convert(GetOr(inner, f.name, Int(0)), f.name, toFloat)
  {
    var t := TelemetryTable;
    assert t[i].source == t[i].name;
    assert t[i].policy == PassThrough <==> t[i].name in TelemetryOptionalKeys;
    assert t[i].policy != FloatUnlessNone;
  }

  /** A telemetry payload fails exactly when one of the fifteen conversions fails... */
  lemma TelemetryFailure(inner: JsonObject, toFloat: FloatConversion)
    ensures var r := ExtractFields(TelemetryTable, inner, toFloat);
      r.Ok? <==> forall k :: k in TelemetryKeys && k !in TelemetryOptionalKeys ==> toFloat(GetOr(inner, k, Int(0))).Some?
  {
    var t := TelemetryTable;
    if forall k :: k in TelemetryKeys && k !in TelemetryOptionalKeys ==> toFloat(GetOr(inner, k, Int(0))).Some? {
      TelemetryNamesKnown();
      forall i | 0 <= i < |t| ensures FieldValue(t[i], inner, toFloat).Ok? {
        TelemetryFieldValue(inner, toFloat, i);
      }
    } else {
      var k :| k in TelemetryKeys && k !in TelemetryOptionalKeys && toFloat(GetOr(inner, k, Int(0))).None?;
      TelemetryKeysNamed();
      var i :| 0 <= i < |t| && t[i].name == k;
      TelemetryFieldValue(inner, toFloat, i);
    }
  }

  /** ...and then with the name of the field whose conversion failed. */
  lemma TelemetryError(inner: JsonObject, toFloat: FloatConversion)
    ensures var r := ExtractFields(TelemetryTable, inner, toFloat);
      r.Err? ==> exists k :: k in TelemetryKeys && k !in TelemetryOptionalKeys && r.error == BadFloat(k)
  {
    var t := TelemetryTable;
    var r := ExtractFields(t, inner, toFloat);
    if r.Err? {
      var i :| 0 <= i < |t| && FieldValue(t[i], inner, toFloat) == Err(r.error);
      TelemetryFieldValue(inner, toFloat, i);
      TelemetryNamesKnown();
      assert r.error == BadFloat(t[i].name);
    }
  }

  /**
    A telemetry payload yields all seventeen keys: the fifteen measurements
    converted with 0 as the default for an absent key, and `battery_level`
    and `uptime_seconds` unchanged (None when absent).
   */
  lemma TelemetryValues(inner: JsonObject, toFloat: FloatConversion)
    ensures var r := ExtractFields(TelemetryTable, inner, toFloat);
      r.Ok? ==>
        && r.value.Keys == TelemetryKeys
        && forall k :: k in r.value ==>
             if k in TelemetryOptionalKeys then r.value[k] == Get(inner, k)
             else FloatWithDefault(inner, k, toFloat, r.value[k])
  {
    var t := TelemetryTable;
    var r := ExtractFields(t, inner, toFloat);
    if r.Ok? {
      TelemetryTableKeys();
      ExtractFieldsValues(t, inner, toFloat);
      forall k | k in r.value
        ensures if k in TelemetryOptionalKeys then r.value[k] == Get(inner, k)
                else FloatWithDefault(inner, k, toFloat, r.value[k])
      {
        var i :| 0 <= i < |t| && t[i].name == k && r.value[k] == FieldValue(t[i], inner, toFloat).value;
        TelemetryFieldValue(inner, toFloat, i);
      }
    }
  }

  /**
    An empty telemetry payload still yields all seventeen keys: the fifteen
    measurements are `float(0)` and the two optional fields are None.
   */
  lemma TelemetryEmptyPayload(toFloat: FloatConversion)
    requires toFloat(Int(0)) == Some(0.0)
    ensures var r := ExtractFields(TelemetryTable, map[], toFloat);
      && r.Ok? && r.value.Keys == TelemetryKeys
      && r.value["battery_level"] == Null && r.value["uptime_seconds"] == Null
      && forall k :: k in r.value && k !in TelemetryOptionalKeys ==> r.value[k] == Float(0.0)
  {
    TelemetryFailure(map[], toFloat);
    TelemetryValues(map[], toFloat);
  }

  /** In a table whose fields are all passed through under their own names, each value is `obj.get(name)`. */
  lemma PassThroughFields(table: seq<FieldSpec>, obj: JsonObject, toFloat: FloatConversion)
    requires forall i :: 0 <= i < |table| ==> table[i].policy == PassThrough && table[i].source == table[i].name
    ensures var r := ExtractFields(table, obj, toFloat);
      r.Ok? && r.value.Keys == Names(table) && forall k :: k in r.value ==> r.value[k] == Get(obj, k)
  {
    ExtractFieldsValues(table, obj, toFloat);
  }

  /** A `nodeinfo` payload never fails: it yields exactly its four keys, each the payload's value (None when absent). */
  lemma NodeInfoShape(inner: JsonObject, toFloat: FloatConversion)
    ensures var r := ExtractFields(NodeInfoTable, inner, toFloat);
      r.Ok? && r.value.Keys == NodeInfoKeys && forall k :: k in r.value ==> r.value[k] == Get(inner, k)
  {
    NodeInfoTableKeys();
    PassThroughFields(NodeInfoTable, inner, toFloat);
  }

  /** A `position` payload never fails: it yields exactly its four keys, each the payload's value (None when absent). */
  lemma PositionShape(inner: JsonObject, toFloat: FloatConversion)
    ensures var r := ExtractFields(PositionTable, inner, toFloat);
      r.Ok? && r.value.Keys == PositionKeys && forall k :: k in r.value ==> r.value[k] == Get(inner, k)
  {
    PositionTableKeys();
    PassThroughFields(PositionTable, inner, toFloat);
  }

  /** True when the message has a `payload` key and a `type` the extractor dispatches on. */
  predicate HasSpecificRecord(msg: JsonObject) {
    "payload" in msg && "type" in msg && Classify(msg["type"]) != Unrecognized
  }

  /**
    The type-specific part of `process_payload`: the specific map and the
    measurement name, or the exception raised while building them.
   */
  function SpecificFields(msg: JsonObject, toFloat: FloatConversion): (r: Result<(map<string, Value>, string), Error>)
    // No payload, or a type outside the three: nothing specific and no measurement name.
    ensures !HasSpecificRecord(msg) && ("payload" in msg ==> "type" in msg) ==> r == Ok((map[], ""))
    // A payload without a type raises KeyError; a payload that is not a dict raises AttributeError.
    ensures "payload" in msg && "type" !in msg ==> r == Err(MissingKey("type"))
    ensures HasSpecificRecord(msg) && !msg["payload"].Object? ==> r == Err(NotAnObject)
    // A payload-bearing message of a known type: its table's fields, and the type as measurement.
    ensures HasSpecificRecord(msg) && msg["payload"].Object? ==>
      var k := Classify(msg["type"]);
      var fields := ExtractFields(TableOf(k), msg["payload"].fields, toFloat);
      && (r.Ok? <==> fields.Ok?)
      && (r.Ok? ==> r.value == (fields.value, MeasurementOf(k)))
      && (r.Err? ==> r.error == fields.error)
    // The specific map is empty exactly when the measurement name is.
    ensures r.Ok? ==> (r.value.0 == map[] <==> r.value.1 == "")
    ensures r.Ok? ==> r.value.1 in {"", "telemetry", "nodeinfo", "position"}
  {
    if "payload" !in msg then Ok((map[], ""))
    else if "type" !in msg then Err(MissingKey("type"))
    else
      var kind := Classify(msg["type"]);
      if kind == Unrecognized then Ok((map[], ""))
      else if !msg["payload"].Object? then Err(NotAnObject)
      else
        match ExtractFields(TableOf(kind), msg["payload"].fields, toFloat)
        case Err(e) => Err(e)
        case Ok(specific) =>
          assert TableOf(kind)[0].name in specific;
          Ok((specific, MeasurementOf(kind)))
  }

  /** `process_payload(payload)`, with its exceptions as `Err`: the common map is built first. */
  function ProcessPayload(msg: JsonObject, toFloat: FloatConversion): (r: Result<Extraction, Error>)
    ensures r.Ok? ==> r.value.measurement in {"", "telemetry", "nodeinfo", "position"}
    ensures r.Ok? ==> (r.value.specific == map[] <==> r.value.measurement == "")
  {
    match CommonFields(msg, toFloat)
    case Err(e) => Err(e)
    case Ok(common) =>
      match SpecificFields(msg, toFloat)
      case Err(e) => Err(e)
      case Ok(specific) => Ok(Extraction(common, specific.0, specific.1))
  }

  /**
    Without a `payload` key, or with a `type` other than the three, only the
    common map is built: the specific map is empty and the measurement is "".
   */
  lemma UntypedMessage(msg: JsonObject, toFloat: FloatConversion)
    ensures "payload" !in msg || ("type" in msg && Classify(msg["type"]) == Unrecognized) ==>
      var r := ProcessPayload(msg, toFloat);
      && (r.Ok? <==> CommonFields(msg, toFloat).Ok?)
      && (r.Ok? ==> r.value == Extraction(CommonFields(msg, toFloat).value, map[], ""))
  {
  }

  /**
    A `payload` without a `type` raises KeyError, unless converting `snr`
    raised first.
   */
  lemma MissingTypeMessage(msg: JsonObject, toFloat: FloatConversion)
    ensures "payload" in msg && "type" !in msg ==>
      var r := ProcessPayload(msg, toFloat);
      && r.Err?
      && r.error == (if CommonFields(msg, toFloat).Ok? then MissingKey("type") else BadFloat("snr"))
  {
    CommonFieldsOutcome(msg, toFloat);
  }

  /** An inner payload of a known type that is not a dict raises AttributeError, unless `snr` raised first. */
  lemma NonObjectPayload(msg: JsonObject, toFloat: FloatConversion)
    ensures HasSpecificRecord(msg) && !msg["payload"].Object? ==>
      var r := ProcessPayload(msg, toFloat);
      && r.Err?
      && r.error == (if CommonFields(msg, toFloat).Ok? then NotAnObject else BadFloat("snr"))
  {
    CommonFieldsOutcome(msg, toFloat);
  }

  /**
    A message of a known type with a dict payload: after the common map, the
    type's table is extracted from the inner payload and the type names the
    measurement.
   */
  lemma KnownTypeMessage(msg: JsonObject, toFloat: FloatConversion)
    ensures HasSpecificRecord(msg) && msg["payload"].Object? ==>
      var r := ProcessPayload(msg, toFloat);
      var k := Classify(msg["type"]);
      var fields := ExtractFields(TableOf(k), msg["payload"].fields, toFloat);
      && (r.Ok? <==> CommonFields(msg, toFloat).Ok? && fields.Ok?)
      && (r.Ok? ==> r.value == Extraction(CommonFields(msg, toFloat).value, fields.value, MeasurementOf(k)))
  {
  }

  /**
    A `telemetry` message with a dict payload succeeds exactly when `snr`
    and the fifteen measurements convert; it is then measured as
    "telemetry" with all seventeen keys, so even an empty payload writes a
    record.
   */
  lemma TelemetryMessage(msg: JsonObject, toFloat: FloatConversion)
    ensures "payload" in msg && "type" in msg && msg["type"] == Str("telemetry") && msg["payload"].Object? ==>
      var r := ProcessPayload(msg, toFloat);
      var inner := msg["payload"].fields;
      && (r.Ok? <==> && CommonFields(msg, toFloat).Ok?
                     && forall k :: k in TelemetryKeys && k !in TelemetryOptionalKeys ==> toFloat(GetOr(inner, k, Int(0))).Some?)
      && (r.Ok? ==>
            && r.value.measurement == "telemetry"
            && r.value.common == CommonFields(msg, toFloat).value
            && r.value.specific.Keys == TelemetryKeys
            && forall k :: k in r.value.specific ==>
                 if k in TelemetryOptionalKeys then r.value.specific[k] == Get(inner, k)
                 else FloatWithDefault(inner, k, toFloat, r.value.specific[k]))
  {
    if "payload" in msg && "type" in msg && msg["type"] == Str("telemetry") && msg["payload"].Object? {
      assert Classify(msg["type"]) == Telemetry;
      KnownTypeMessage(msg, toFloat);
      TelemetryFailure(msg["payload"].fields, toFloat);
      TelemetryValues(msg["payload"].fields, toFloat);
    }
  }

  /**
    A `nodeinfo` message with a dict payload fails only if `snr` does; it is
    measured as "nodeinfo" with the payload's four fields unchanged.
   */
  lemma NodeInfoMessage(msg: JsonObject, toFloat: FloatConversion)
    ensures "payload" in msg && "type" in msg && msg["type"] == Str("nodeinfo") && msg["payload"].Object? ==>
      var r := ProcessPayload(msg, toFloat);
      var inner := msg["payload"].fields;
      && (r.Ok? <==> CommonFields(msg, toFloat).Ok?)
      && (r.Ok? ==>
            && r.value.measurement == "nodeinfo"
            && r.value.common == CommonFields(msg, toFloat).value
            && r.value.specific.Keys == NodeInfoKeys
            && forall k :: k in r.value.specific ==> r.value.specific[k] == Get(inner, k))
  {
    if "payload" in msg && "type" in msg && msg["type"] == Str("nodeinfo") && msg["payload"].Object? {
      assert Classify(msg["type"]) == NodeInfo;
      KnownTypeMessage(msg, toFloat);
      NodeInfoShape(msg["payload"].fields, toFloat);
    }
  }

  /**
    A `position` message with a dict payload fails only if `snr` does; it is
    measured as "position" with the payload's four fields unchanged.
   */
  lemma PositionMessage(msg: JsonObject, toFloat: FloatConversion)
    ensures "payload" in msg && "type" in msg && msg["type"] == Str("position") && msg["payload"].Object? ==>
      var r := ProcessPayload(msg, toFloat);
      var inner := msg["payload"].fields;
      && (r.Ok? <==> CommonFields(msg, toFloat).Ok?)
      && (r.Ok? ==>
            && r.value.measurement == "position"
            && r.value.common == CommonFields(msg, toFloat).value
            && r.value.specific.Keys == PositionKeys
            && forall k :: k in r.value.specific ==> r.value.specific[k] == Get(inner, k))
  {
    if "payload" in msg && "type" in msg && msg["type"] == Str("position") && msg["payload"].Object? {
      assert Classify(msg["type"]) == Position;
      KnownTypeMessage(msg, toFloat);
      PositionShape(msg["payload"].fields, toFloat);
    }
  }
}
