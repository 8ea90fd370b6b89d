# Meshlytics ingest core in Dafny

Meshlytics subscribes to the JSON topic of a Meshtastic mesh network and
writes the fields of each message it can process to InfluxDB. It also keeps per-minute statistics: how
many packets arrived and how many distinct senders sent them. This project
models the part of `meshlytics.py` that decides what gets written.

- `json.dfy` (module `Json`): decoded JSON values, `dict.get` with and
  without a default, and the Python exceptions the handler can meet.
- `hex_codec.dfy` (module `HexCodec`): `to_hex_string`, which is
  `f"{value:08x}"`. Lowercase hexadecimal, zero-padded to width 8, with a
  leading `-` counted in the width. It comes with a decoder and lemmas:
  - width 8 exactly for values below 2^32;
  - the digits decode back to the value;
  - equal keys come from equal values;
  - the negative case.
- `field_extractor.dfy` (module `FieldExtractor`): `process_payload`. Each
  dictionary literal of the source is a table of fields. A row gives the
  output name, the key it is read from, and one of three policies:
  - pass through `get(k)`;
  - `float(get(k, 0))`;
  - `float` unless the value is `None`.

  One recursive function evaluates a table in order, so the first
  conversion that raises decides the exception. Python's `float` is a
  parameter `toFloat: Value -> Option<real>`.
- `meshlytics.dfy` (module `Ingest`): class `Meshlytics` with the fields
  `packetCount`, `currentMinute` and `uniqueSenders`, and the methods
  `OnMessage`, `CheckMinuteRollover`, `LogPacketCount` and
  `LogUniqueSenders`.
  - Every sink write appends a `Record(measurement, tags, fields)` to a
    ghost `log`.
  - The clock's minute of the hour is a parameter of `OnMessage`.
  - What `on_message` does with one message, after the rollover check, is
    the pure function `HandleMessage`. It gives the sender key added to the
    set, the records written, and the exception caught.
  - The whole state step is the pure function `Receive`:
    count the packet, then `Rollover`, then `Admit` the handled message.
    `OnMessage` is proved to compute exactly `Receive`.

Properties proved about the window, as the code is written:
- The flush records always come in pairs. Every `unique_sender_stats`
  record directly follows a `packet_stats` record, and it never reports
  more unique senders than that record reports packets (`Valid`,
  `ReceiveValid`, `SoundReports`).
- `packet_count` is incremented before the rollover check. So the message
  that triggers a rollover is counted in the flushed minute, while its
  sender is added to the new minute's set. The live state therefore keeps
  `|uniqueSenders| <= packetCount + 1`, not `<= packetCount`.
  `RolloverScenario` shows the shift:
  - three messages from two senders in one minute;
  - then one message in the next minute;
  - the flush reports four packets and two senders.

Other behaviours of the code that the model keeps:
- Rollover fires when the minute of the hour differs from the stored one.
  There is no test of elapsed time.
- A flush writes only `packet_stats` and `unique_sender_stats`. There are no
  per-type packet counts.
- A `payload` without `type` raises KeyError once the common map has been
  built (meshlytics.py:125-126), so the message writes no record.
- An undecodable message is still counted and can still trigger a flush,
  because lines 65-66 run before line 68 (`FailedMessage`).
- A `from` outside 32 bits is neither rejected nor wrapped. A larger value
  gives a longer key, and a negative value gives a key that starts with
  `-` (`ToHexStringWidth`, `NegativeKey`).

## Model

| member | source | states |
|---|---|---|
| HexCodec.ToHexString | meshlytics.py:83-84 | `f"{value:08x}"`: lowercase hex digits zero-padded to width 8, and for a negative value `-` and the magnitude padded to width 7; its properties are the lemmas below |
| HexCodec.ToHexStringWidth | meshlytics.py:83-84 | the key of a non-negative value is all lowercase hex digits, at least 8 characters long, and exactly 8 long iff the value is below 2^32 |
| HexCodec.DecodeToHexString | meshlytics.py:83-84 | reading the key of a non-negative value back in base 16 gives the value |
| HexCodec.NegativeKey | meshlytics.py:83-84 | a negative value formats as `-` followed by at least 7 hex digits that decode to its magnitude |
| HexCodec.ToHexStringInjective | meshlytics.py:83-84 | two values with the same key are equal, so the key identifies the sender |
| HexCodec.ToHexStringExamples | meshlytics.py:83-84 | 0 gives "00000000", 256 gives "00000100", -1 gives "-0000001" |
| HexCodec.PaddedDigits | meshlytics.py:84 | zero-padding digits to any width keeps them hex digits, reaches the width and keeps their value |
| HexCodec.FromHexDigits | meshlytics.py:84 | the unpadded digits of a value decode back to it |
| HexCodec.DigitsLength | meshlytics.py:84 | a value has at most n hex digits iff it is below 16^n |
| Ingest.SenderKey | meshlytics.py:69 | an absent `from` gives "00000000"; formatting succeeds iff `from` is an integer or a bool, and otherwise raises; a `from` below 2^32 gives 8 hex digits that decode back to it |
| FieldExtractor.CommonTable | meshlytics.py:112-120 | the common dictionary literal: seven fields in source order, `from_field` read from `from`, `snr` converted unless None, the rest passed through |
| FieldExtractor.TelemetryTable | meshlytics.py:128-146 | the telemetry literal: seventeen fields in source order, `battery_level` and `uptime_seconds` passed through, the rest `float(get(k, 0))` |
| FieldExtractor.NodeInfoTable | meshlytics.py:149-154 | the nodeinfo literal: four fields passed through |
| FieldExtractor.PositionTable | meshlytics.py:157-162 | the position literal: four fields passed through |
| FieldExtractor.FieldValue | meshlytics.py:113-145 | one entry of a literal: `get(k)`, `float(get(k, 0))`, or `float(get(k))` unless that is None; its outcomes are stated by the lemmas on the tables below |
| FieldExtractor.CommonFields | meshlytics.py:112-120 | the common map; stated by `CommonFieldsOutcome` and `CommonFieldsValues` |
| FieldExtractor.Classify | meshlytics.py:126-162 | the branch `payload['type']` selects: telemetry, nodeinfo, position, or none of them |
| FieldExtractor.TableOf | meshlytics.py:126-162 | the literal each branch builds, and none for an unrecognised type; stated by `KnownTypeMessage` and `UntypedMessage` |
| FieldExtractor.MeasurementOf | meshlytics.py:126-162 | the measurement name each branch sets, and "" for an unrecognised type |
| FieldExtractor.ExtractFields | meshlytics.py:112-162 | a dictionary literal succeeds iff every field value succeeds; its keys are exactly the table's names; on failure the error is that of the first failing field in source order |
| FieldExtractor.ExtractFieldsValues | meshlytics.py:112-162 | every key of an extracted map holds the value of a field with that name |
| FieldExtractor.ExtractFieldsLast | meshlytics.py:112-162 | a field whose name no later field uses keeps its own value in the extracted map: as in a Python dict literal, the last value of a repeated name wins |
| FieldExtractor.CommonTableKeys | meshlytics.py:112-120 | the common map is built under exactly the seven names channel, from_field, hop_start, hops_away, rssi, snr, timestamp |
| FieldExtractor.KeyCounts | meshlytics.py:112-162 | there are seven common keys and four nodeinfo and four position keys |
| FieldExtractor.CommonFieldsOutcome | meshlytics.py:112-120 | building the common map raises iff `snr` is present, not None, and rejected by `float`; the error then names `snr` |
| FieldExtractor.CommonFieldsValues | meshlytics.py:112-120 | the common map has exactly the seven keys; `from_field` is `get('from')`, the other five plain keys are `get` of their own name, and `snr` is None when absent or None and otherwise its float |
| FieldExtractor.CommonFieldPresent | meshlytics.py:112-120 | a common value is None exactly when the key it is read from is absent or None |
| FieldExtractor.CommonFieldValue | meshlytics.py:112-120 | each common entry holds the value its table row computes |
| FieldExtractor.TelemetryTableKeys | meshlytics.py:128-146 | the telemetry map is built under exactly the seventeen listed names |
| FieldExtractor.TelemetryKeyCount | meshlytics.py:128-146 | the telemetry map has seventeen keys, two of them optional |
| FieldExtractor.TelemetryFieldValue | meshlytics.py:129-145 | `battery_level` and `uptime_seconds` are read with `get`; every other telemetry field is `float(get(k, 0))` |
| FieldExtractor.TelemetryFailure | meshlytics.py:128-146 | the telemetry map is built iff every one of the fifteen converted fields, defaulted to 0, is accepted by `float` |
| FieldExtractor.TelemetryError | meshlytics.py:128-146 | a failed telemetry map raises a float error naming one of the fifteen converted fields |
| FieldExtractor.TelemetryValues | meshlytics.py:128-146 | a telemetry map has exactly the seventeen keys; the two optional ones are passed through or None, the others are the float of the value or of the default 0 |
| FieldExtractor.TelemetryEmptyPayload | meshlytics.py:128-146 | an empty inner payload still gives all seventeen keys: the two optional ones None, the rest 0.0 |
| FieldExtractor.PassThroughFields | meshlytics.py:149-162 | a table of pass-through fields never raises and gives each name the input's value under that name, or None |
| FieldExtractor.NodeInfoTableKeys | meshlytics.py:149-154 | the nodeinfo map is built under exactly hardware, role, longname, shortname |
| FieldExtractor.NodeInfoShape | meshlytics.py:149-154 | a nodeinfo map always builds, has exactly those four keys, and each holds the inner value or None |
| FieldExtractor.PositionTableKeys | meshlytics.py:157-162 | the position map is built under exactly altitude, latitude_i, longitude_i, precision_bits |
| FieldExtractor.PositionShape | meshlytics.py:157-162 | a position map always builds, has exactly those four keys, and each holds the inner value or None |
| FieldExtractor.SpecificFields | meshlytics.py:122-162 | no payload, or an unrecognised type, gives an empty map and measurement ""; a payload without `type` raises KeyError; a non-dict payload of a known type raises AttributeError; a known type gives that type's map and name; the map is empty iff the name is "" |
| FieldExtractor.ProcessPayload | meshlytics.py:111-164 | the measurement is one of "", telemetry, nodeinfo, position, and the specific map is empty exactly when the measurement is "" |
| FieldExtractor.UntypedMessage | meshlytics.py:122-126 | without `payload`, or with an unrecognised `type`, the result is the common map, an empty specific map and "" |
| FieldExtractor.MissingTypeMessage | meshlytics.py:125-126 | a `payload` without `type` raises KeyError('type'), unless the common map already raised on `snr` |
| FieldExtractor.NonObjectPayload | meshlytics.py:125-162 | a known type whose `payload` is not a dict raises AttributeError, unless the common map already raised |
| FieldExtractor.KnownTypeMessage | meshlytics.py:125-162 | for a known type with a dict payload, extraction succeeds iff both the common map and that type's map build, and the result is both maps with the type's measurement name |
| FieldExtractor.TelemetryMessage | meshlytics.py:126-146 | a telemetry message succeeds iff `snr` and the fifteen converted fields convert; the result has measurement "telemetry", exactly the seventeen keys, and the optional and converted values |
| FieldExtractor.NodeInfoMessage | meshlytics.py:147-154 | a nodeinfo message succeeds iff the common map builds; the result has measurement "nodeinfo" and the four inner values |
| FieldExtractor.PositionMessage | meshlytics.py:155-162 | a position message succeeds iff the common map builds; the result has measurement "position" and the four inner values |
| Ingest.MessageRecords | meshlytics.py:74-78 | the specific record when its map is not empty, then `common_data` when some common value is not None; stated by `MessageRecordsShape` and `CommonDataWritten` |
| Ingest.HandleMessage | meshlytics.py:68-78 | the body of the `try` after the rollover check: the sender added, the records written and the exception raised; stated by `HandleMessageOutcome`, `HandleMessageRecords` and `SuccessfulMessage` |
| Ingest.Rollover | meshlytics.py:86-92 | `check_minute_rollover` as a function of the state; stated by `RolloverIdempotent` and `RolloverValid` |
| Ingest.Admit | meshlytics.py:70-78 | adding a handled message's sender to the set and its records to the log; stated by `AdmitValid` |
| Ingest.Receive | meshlytics.py:63-92 | `on_message` as a function of the state: count, roll over, admit; stated by `ReceiveValid`, `SameMinute`, `NewMinute`, `FailedMessage`, `KnownSender` and `RolloverScenario` |
| Ingest.CommonDataWritten | meshlytics.py:77-78 | `common_data` is written iff one of the seven keys the common map reads holds a value other than None |
| Ingest.SuccessfulMessage | meshlytics.py:68-78 | a decodable message with a formattable sender and extractable fields is handled without exception; its key joins the set; the specific record is written iff its map is non-empty, then `common_data` iff some common input is present; both records are tagged with the sender |
| Ingest.HandleMessageOutcome | meshlytics.py:64-81 | no exception is caught iff the message decodes to a dict whose `from` formats and whose fields extract; the sender joins the set iff its key was computed, even when extraction then raises |
| Ingest.HandleMessageRecords | meshlytics.py:72-78 | a message that raises writes nothing; otherwise at most two records, tagged with the sender and named telemetry, nodeinfo, position or common_data |
| Ingest.MessageRecordsShape | meshlytics.py:74-78 | the records of one extraction number at most two, carry the sender tag and a per-message measurement |
| Ingest.Meshlytics.constructor | meshlytics.py:46-48 | a new instance has packet count 0, the given minute, no senders and an empty log, and is valid |
| Ingest.Meshlytics.WriteData | meshlytics.py:32-39 | one write appends exactly one record to the log |
| Ingest.Meshlytics.LogPacketCount | meshlytics.py:94-100 | appends `packet_stats` with the current count and the source tag, then resets the count to 0 |
| Ingest.Meshlytics.LogUniqueSenders | meshlytics.py:102-109 | appends `unique_sender_stats` with the size of the sender set and the source tag |
| Ingest.Meshlytics.WriteMessageRecords | meshlytics.py:74-78 | appends the specific record, if any, then `common_data`, if any |
| Ingest.Meshlytics.CheckMinuteRollover | meshlytics.py:86-92 | the new state is `Rollover` of the old: in a new minute, the two flush records are appended, the count and set are cleared and the minute is stored; otherwise nothing changes |
| Ingest.Meshlytics.HandleInbound | meshlytics.py:67-81 | the new state is the old one with the message's sender and records admitted; returns the caught exception |
| Ingest.Meshlytics.OnMessage | meshlytics.py:63-81 | keeps the window valid, the new state is `Receive` of the old one, and it returns the caught exception |
| Ingest.RolloverValid | meshlytics.py:86-92 | a rollover out of a window with no more senders than packets keeps the log sound |
| Ingest.AdmitValid | meshlytics.py:68-78 | admitting a handled message adds at most one sender and keeps the log sound |
| Ingest.ReceiveValid | meshlytics.py:63-92 | every message keeps the invariant: senders at most packets plus one, and every flush is a `packet_stats` and `unique_sender_stats` pair with no more senders than packets |
| Ingest.RolloverIdempotent | meshlytics.py:86-92 | a second rollover check in the same minute changes nothing, and a check always stores the minute |
| Ingest.SameMinute | meshlytics.py:63-81 | a message in the stored minute never flushes: the count grows by one, the set gains exactly the message's sender key when one was computed, and only the message's records are appended |
| Ingest.NewMinute | meshlytics.py:63-92 | a message in a new minute first appends the flush of the old window, counting this message, then starts a window of count 0 holding at most its sender |
| Ingest.FailedMessage | meshlytics.py:64-81 | a message that raises leaves only the counting and rollover effects in the log and the count |
| Ingest.KnownSender | meshlytics.py:70 | a sender already in the set leaves the unique sender count unchanged |
| Ingest.RolloverScenario | meshlytics.py:63-109 | messages from senders A, B, A in minute 0 give count 3 and two senders; a message from B in minute 1 flushes `packet_stats` 4 and `unique_sender_stats` 2 and starts a window holding only B |
| Ingest.DistinctSenders | meshlytics.py:69 | senders with `from` 1 and 2 get different keys |
| Ingest.FlushSound | meshlytics.py:89-90 | a flush whose sender count does not exceed its packet count is a sound log |
| Ingest.SoundReports | meshlytics.py:89-90 | in a sound log, every `unique_sender_stats` record directly follows a `packet_stats` record and reports no more senders than it reports packets |
| Ingest.OrphanSenderStats | meshlytics.py:89-90 | a `unique_sender_stats` record with no `packet_stats` record before it is never sound |

## Left out

- The MQTT client, connect, subscribe and `loop_forever` (meshlytics.py:50-61) and `on_connect` are network transport. Messages reach `OnMessage` as arguments.
- `MeshlyticsInfluxDB` and the InfluxDB client (meshlytics.py:22-39) are a foreign library. A write is an appended record of the ghost log, without the `utcnow()` timestamp.
- `MeshlyticsConfig` (meshlytics.py:7-19) and the `__main__` block (meshlytics.py:167-183) are configuration plumbing.
- `datetime.now().minute` is a real clock. It becomes the `minute` parameter of the constructor, `OnMessage` and `CheckMinuteRollover`.
- The numeric behaviour of `float()` is floating point. It is the abstract, possibly failing `toFloat`, and converted values are `Float(r)` for a real `r`.
- `json.loads` is not modelled. A message arrives already decoded, as `Option<Value>`, and `None` stands for bytes that do not decode.
- The `print` of a caught exception is output. `OnMessage` returns the exception instead.
- Sink writes never fail in the model. In the source a write that raises is caught by the same `try` (meshlytics.py:64-81). If the `packet_stats` write fails, nothing is reset. If the `unique_sender_stats` write fails, only the count is reset. In both cases the set and the minute stay as they were, so the next message retries the rollover. If the specific write fails, the `common_data` write is skipped.
- A `float` that raises anything other than a conversion error is not modelled separately. Every rejection by `float` is the one error `BadFloat`.
- Message types are compared by value, as `==` compares a decoded JSON value with a string. A non-string `type` is therefore an unrecognised type.
