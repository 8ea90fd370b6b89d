/**
  The ingest coordinator and its window state: class `Meshlytics` with
  `on_message`, `check_minute_rollover`, `log_packet_count` and
  `log_unique_senders`. The time-series sink is an append-only log of the
  records written to it, and the wall clock's minute of the hour is an input.
 */
module Ingest {
  import opened Wrappers
  import opened Json
  import opened HexCodec
  import opened FieldExtractor

  /** `datetime.now().minute` */
  type Minute = m: nat | m < 60

  /** One `write_data(measurement, tags, fields)` call on the sink. */
  datatype Record = Record(measurement: string, tags: map<string, string>, fields: map<string, Value>)

  /** The tags of the two window records. */
  const StatsTags: map<string, string> := map["source" := "mqtt_broker"]

  /** The tags of the per-message records. */
  function SenderTags(sender: string): map<string, string> {
    map["sender" := sender]
  }

  /** The record `log_packet_count` writes. */
  function PacketStats(count: nat): Record {
    Record("packet_stats", StatsTags, map["packet_count" := Int(count)])
  }

  /** The record `log_unique_senders` writes. */
  function UniqueSenderStats(count: nat): Record {
    Record("unique_sender_stats", StatsTags, map["unique_sender_count" := Int(count)])
  }

  /** The two records a rollover writes. */
  function Flush(packets: nat, senders: nat): seq<Record> {
    [PacketStats(packets), UniqueSenderStats(senders)]
  }

  /** The measurements a per-message record can carry. */
  const MessageMeasurements: set<string> := {"telemetry", "nodeinfo", "position", "common_data"}

  /**
    `to_hex_string(payload.get('from', 0))`. A Python `bool` formats as the
    integer it stands for; `None`, a float, a string, a list or a dict is
    rejected by the format code 'x'.
   */
  function SenderKey(msg: JsonObject): (r: Result<string, Error>)
    ensures "from" !in msg ==> r == Ok("00000000")
    ensures r.Ok? <==> GetOr(msg, "from", Int(0)).Int? || GetOr(msg, "from", Int(0)).Bool?
    ensures r.Err? ==> r.error == BadSenderFormat
    ensures GetOr(msg, "from", Int(0)).Int? && 0 <= GetOr(msg, "from", Int(0)).i < 0x1_0000_0000 ==>
      r.Ok? && |r.value| == 8 && AllHexDigits(r.value) && FromHex(r.value) == GetOr(msg, "from", Int(0)).i
  {
    ToHexStringExamples();
    match GetOr(msg, "from", Int(0))
    case Int(i) =>
      if i >= 0 then ToHexStringWidth(i); DecodeToHexString(i); Ok(ToHexString(i)) else Ok(ToHexString(i))
    case Bool(b) => Ok(ToHexString(if b then 1 else 0))
    case _ => Err(BadSenderFormat)
  }

  /** `any(value is not None for value in fields.values())` */
  predicate HasValue(fields: map<string, Value>) {
    exists k :: k in fields && fields[k] != Null
  }

  /** The records written for one extracted message: the specific one first, then the common one. */
  function MessageRecords(x: Extraction, sender: string): seq<Record> {
    (if x.specific != map[] then [Record(x.measurement, SenderTags(sender), x.specific)] else [])
    + (if HasValue(x.common) then [Record("common_data", SenderTags(sender), x.common)] else [])
  }

  /**
    `on_message` writes `common_data` exactly when one of the seven keys the
    common map is read from holds a value other than None.
   */
  lemma CommonDataWritten(msg: JsonObject, toFloat: FloatConversion)
    ensures CommonFields(msg, toFloat).Ok? ==> (HasValue(CommonFields(msg, toFloat).value) <==> AnyCommonInput(msg))
  {
    var t := CommonTable;
    if CommonFields(msg, toFloat).Ok? {
      var c := CommonFields(msg, toFloat).value;
      if HasValue(c) {
        var k :| k in c && c[k] != Null;
        var i :| 0 <= i < |t| && t[i].name == k;
        CommonFieldPresent(msg, toFloat, i);
      }
      if AnyCommonInput(msg) {
        var i :| 0 <= i < |t| && Get(msg, t[i].source) != Null;
        CommonFieldPresent(msg, toFloat, i);
        assert t[i].name in c;
      }
    }
  }

  function SenderSet(sender: Option<string>): set<string> {
    if sender.Some? then {sender.value} else {}
  }

  /**
    What `on_message` does with one message after the rollover check: the
    sender key it adds to the window (if it gets that far), the records it
    writes, and the exception it catches.
   */
  datatype Handling = Handling(sender: Option<string>, records: seq<Record>, failure: Option<Error>)

  function HandleMessage(inbound: Option<Value>, toFloat: FloatConversion): Handling {
    if inbound.None? then Handling(None, [], Some(Undecodable))
    else if !inbound.value.Object? then Handling(None, [], Some(NotAnObject))
    else
      var msg := inbound.value.fields;
      match SenderKey(msg)
      case Err(e) => Handling(None, [], Some(e))
      case Ok(sender) =>
        match ProcessPayload(msg, toFloat)
        case Err(e) => Handling(Some(sender), [], Some(e))
        case Ok(x) =>
          Handling(Some(sender), MessageRecords(x, sender), None)
  }

  /**
    A failed message writes nothing; otherwise at most two records, each
    tagged with the sender and carrying a per-message measurement.
   */
  lemma HandleMessageRecords(inbound: Option<Value>, toFloat: FloatConversion)
    ensures var h := HandleMessage(inbound, toFloat);
      && (h.failure.Some? ==> h.records == [])
      && |h.records| <= 2
      && forall r :: r in h.records ==>
           h.sender.Some? && r.tags == SenderTags(h.sender.value) && r.measurement in MessageMeasurements
  {
    if inbound.Some? && inbound.value.Object? {
      var msg := inbound.value.fields;
      if SenderKey(msg).Ok? && ProcessPayload(msg, toFloat).Ok? {
        MessageRecordsShape(ProcessPayload(msg, toFloat).value, SenderKey(msg).value);
      }
    }
  }

  /** The records of an extraction whose measurement is empty only when its specific map is. */
  lemma MessageRecordsShape(x: Extraction, sender: string)
    requires x.measurement in {"", "telemetry", "nodeinfo", "position"}
    requires x.specific == map[] <==> x.measurement == ""
    ensures var rs := MessageRecords(x, sender);
      && |rs| <= 2
      && forall r :: r in rs ==> r.tags == SenderTags(sender) && r.measurement in MessageMeasurements
  {
  }

  /**
    A message is handled without exception exactly when it decodes to an
    object whose `from` can be formatted and whose fields can be extracted;
    the sender is added to the window whenever its key could be computed,
    even if extraction then fails.
   */
  lemma HandleMessageOutcome(inbound: Option<Value>, toFloat: FloatConversion)
    ensures var h := HandleMessage(inbound, toFloat);
      && (h.failure.None? <==>
            && inbound.Some? && inbound.value.Object?
            && SenderKey(inbound.value.fields).Ok?
            && ProcessPayload(inbound.value.fields, toFloat).Ok?)
      && (h.sender.Some? <==> inbound.Some? && inbound.value.Object? && SenderKey(inbound.value.fields).Ok?)
      && (h.sender.Some? ==> Ok(h.sender.value) == SenderKey(inbound.value.fields))
  {
  }

  /** `a`, `b` are the two records of one flush, and it reports no more unique senders than packets. */
  ghost predicate FlushPair(a: Record, b: Record) {
    exists p: nat, u: nat :: a == PacketStats(p) && b == UniqueSenderStats(u) && u <= p
  }

  /**
    A message that decodes to an object with a formattable `from` and whose
    fields can be extracted is handled without exception: its sender key is
    added, the specific record is written when the specific map is not empty,
    and `common_data` when any of the seven common input keys holds a value;
    both are tagged with the sender.
   */
  lemma SuccessfulMessage(inbound: Option<Value>, toFloat: FloatConversion)
    ensures inbound.Some? && inbound.value.Object? ==>
      var msg := inbound.value.fields;
      SenderKey(msg).Ok? && ProcessPayload(msg, toFloat).Ok? ==>
        var key := SenderKey(msg).value;
        var x := ProcessPayload(msg, toFloat).value;
        HandleMessage(inbound, toFloat) ==
          Handling(Some(key),
                   (if x.specific != map[] then [Record(x.measurement, SenderTags(key), x.specific)] else [])
                   + (if AnyCommonInput(msg) then [Record("common_data", SenderTags(key), x.common)] else []),
                   None)
  {
    if inbound.Some? && inbound.value.Object? {
      var msg := inbound.value.fields;
      if SenderKey(msg).Ok? && ProcessPayload(msg, toFloat).Ok? {
        assert ProcessPayload(msg, toFloat).value.common == CommonFields(msg, toFloat).value;
        CommonDataWritten(msg, toFloat);
      }
    }
  }

  /**
    Every `packet_stats` record is followed at once by its
    `unique_sender_stats` record, and a window never reports more unique
    senders than packets.
   */
  ghost predicate FlushesSound(log: seq<Record>)
    decreases |log|
  {
    if log == [] then true
    else if log[0].measurement == "packet_stats" then
      |log| >= 2 && FlushPair(log[0], log[1]) && FlushesSound(log[2..])
    else log[0].measurement != "unique_sender_stats" && FlushesSound(log[1..])
  }

  /** The window state of `Meshlytics` together with everything written to the sink. */
  datatype Window = Window(packetCount: nat, currentMinute: Minute, uniqueSenders: set<string>, log: seq<Record>)

  /** The window a fresh `Meshlytics` starts with. */
  function Start(minute: Minute): Window {
    Window(0, minute, {}, [])
  }

  /** `check_minute_rollover`: a new minute flushes the window and empties it. */
  function Rollover(w: Window, minute: Minute): Window {
    if minute != w.currentMinute then Window(0, minute, {}, w.log + Flush(w.packetCount, |w.uniqueSenders|))
    else w
  }

  /** The sender and the records of one handled message join the window. */
  function Admit(w: Window, h: Handling): Window {
    w.(uniqueSenders := w.uniqueSenders + SenderSet(h.sender), log := w.log + h.records)
  }

  /** The state after `on_message` receives `inbound` at `minute`: count, roll over, handle. */
  function Receive(w: Window, inbound: Option<Value>, minute: Minute, toFloat: FloatConversion): Window {
    Admit(Rollover(w.(packetCount := w.packetCount + 1), minute), HandleMessage(inbound, toFloat))
  }

  /**
    The sender set can hold one key more than the packet count: the sender
    of the message that triggered the last rollover is counted in the old
    window's packets but lands in the new window's set.
   */
  ghost predicate WindowValid(w: Window) {
    |w.uniqueSenders| <= w.packetCount + 1 && FlushesSound(w.log)
  }

  class Meshlytics {
    var packetCount: nat
    var currentMinute: Minute
    var uniqueSenders: set<string>
    /** Every record written to the sink, oldest first. */
    ghost var log: seq<Record>

    ghost function State(): Window
      reads this
    {
      Window(packetCount, currentMinute, uniqueSenders, log)
    }

    ghost predicate Valid()
      reads this
    {
      WindowValid(State())
    }

    constructor (minute: Minute)
      ensures Valid()
      ensures State() == Start(minute)
    {
      packetCount := 0;
      currentMinute := minute;
      uniqueSenders := {};
      log := [];
    }

    /** `influxdb_handler.write_data(measurement, tags, fields)` */
    method WriteData(measurement: string, tags: map<string, string>, fields: map<string, Value>)
      modifies this`log
      ensures log == old(log) + [Record(measurement, tags, fields)]
    {
      log := log + [Record(measurement, tags, fields)];
    }

    method LogPacketCount()
      modifies this`packetCount, this`log
      ensures log == old(log) + [PacketStats(old(packetCount))]
      ensures packetCount == 0
    {
      WriteData("packet_stats", StatsTags, map["packet_count" := Int(packetCount)]);
      packetCount := 0;
    }

    method LogUniqueSenders()
      modifies this`log
      ensures log == old(log) + [UniqueSenderStats(|uniqueSenders|)]
    {
      var uniqueSenderCount := |uniqueSenders|;
      WriteData("unique_sender_stats", StatsTags, map["unique_sender_count" := Int(uniqueSenderCount)]);
    }

    /**
      The records `on_message` writes for one extracted message: the
      type-specific one if it has fields, then `common_data` if any of its
      values is not `None`.
     */
    method WriteMessageRecords(x: Extraction, sender: string)
      modifies this`log
      ensures log == old(log) + MessageRecords(x, sender)
    {
      if x.specific != map[] {
        WriteData(x.measurement, SenderTags(sender), x.specific);
      }
      if HasValue(x.common) {
        WriteData("common_data", SenderTags(sender), x.common);
      }
    }

    /**
      When the minute of the hour differs from the stored one, flushes the
      window (packet count, then unique sender count), empties it and stores
      the new minute; otherwise nothing changes. It keeps the window valid
      only after `on_message` has counted the triggering packet, which is
      the one place it is called from.
     */
    method CheckMinuteRollover(minute: Minute)
      modifies this
      ensures State() == Rollover(old(State()), minute)
    {
      if minute != currentMinute {
        LogPacketCount();
        LogUniqueSenders();
        uniqueSenders := {};
        currentMinute := minute;
      }
    }

    /**
      `on_message`: counts the message, checks for rollover, then handles
      it. The exception that `on_message` catches and prints is returned.
     */
    method OnMessage(inbound: Option<Value>, minute: Minute, toFloat: FloatConversion) returns (failure: Option<Error>)
      requires Valid()
      modifies this
      ensures Valid()
      ensures State() == Receive(old(State()), inbound, minute, toFloat)
      ensures failure == HandleMessage(inbound, toFloat).failure
    {
      ghost var before := State();
      packetCount := packetCount + 1;
      CheckMinuteRollover(minute);
      failure := HandleInbound(inbound, toFloat);
      ReceiveValid(before, inbound, minute, toFloat);
    }

    /**
      The `try` block of `on_message`: decodes the message, adds its sender
      key to the window, extracts its fields and writes its records; stops
      at the first exception and returns it.
     */
    method HandleInbound(inbound: Option<Value>, toFloat: FloatConversion) returns (failure: Option<Error>)
      modifies this`uniqueSenders, this`log
      ensures State() == Admit(old(State()), HandleMessage(inbound, toFloat))
      ensures failure == HandleMessage(inbound, toFloat).failure
    {
      if inbound.None? {
        failure := Some(Undecodable);
        return;
      }
      var payload := inbound.value;
      if !payload.Object? {
        failure := Some(NotAnObject);
        return;
      }
      var sender := SenderKey(payload.fields);
      if sender.Err? {
        failure := Some(sender.error);
        return;
      }
      uniqueSenders := uniqueSenders + {sender.value};
      var extraction := ProcessPayload(payload.fields, toFloat);
      if extraction.Err? {
        failure := Some(extraction.error);
        return;
      }
      WriteMessageRecords(extraction.value, sender.value);
      failure := None;
    }
  }

  /** A rollover keeps the log sound when the window has no more senders than packets. */
  lemma RolloverValid(w: Window, minute: Minute)
    requires |w.uniqueSenders| <= w.packetCount && FlushesSound(w.log)
    ensures var v := Rollover(w, minute); |v.uniqueSenders| <= v.packetCount && FlushesSound(v.log)
  {
    if minute != w.currentMinute {
      FlushSound(w.packetCount, |w.uniqueSenders|);
      SoundAppend(w.log, Flush(w.packetCount, |w.uniqueSenders|));
    }
  }

  /** Admitting one handled message adds at most one sender and keeps the log sound. */
  lemma AdmitValid(w: Window, h: Handling)
    requires |w.uniqueSenders| <= w.packetCount && FlushesSound(w.log)
    requires forall r :: r in h.records ==> r.measurement in MessageMeasurements
    ensures WindowValid(Admit(w, h))
  {
    MessageRecordsSound(h.records);
    SoundAppend(w.log, h.records);
    SenderSetBound(w.uniqueSenders, h.sender);
  }

  /** Every message keeps the window valid. */
  lemma ReceiveValid(w: Window, inbound: Option<Value>, minute: Minute, toFloat: FloatConversion)
    requires WindowValid(w)
    ensures WindowValid(Receive(w, inbound, minute, toFloat))
  {
    var counted := w.(packetCount := w.packetCount + 1);
    RolloverValid(counted, minute);
    HandleMessageRecords(inbound, toFloat);
    AdmitValid(Rollover(counted, minute), HandleMessage(inbound, toFloat));
  }

  /** A second rollover check in the same minute changes nothing. */
  lemma RolloverIdempotent(w: Window, minute: Minute)
    ensures Rollover(Rollover(w, minute), minute) == Rollover(w, minute)
    ensures Rollover(w, minute).currentMinute == minute
  {
  }

  /**
    A message in the stored minute never flushes: the count goes up by one,
    the set gains the message's sender key, if one was computed, and the
    message's own records follow the old log.
   */
  lemma SameMinute(w: Window, inbound: Option<Value>, toFloat: FloatConversion)
    ensures var v := Receive(w, inbound, w.currentMinute, toFloat);
      && v.packetCount == w.packetCount + 1
      && v.currentMinute == w.currentMinute
      && v.log == w.log + HandleMessage(inbound, toFloat).records
      && v.uniqueSenders == w.uniqueSenders + SenderSet(HandleMessage(inbound, toFloat).sender)
  {
  }

  /**
    A message in a new minute flushes the old window with the message
    counted in it, and starts the new window with at most its own sender.
   */
  lemma NewMinute(w: Window, inbound: Option<Value>, minute: Minute, toFloat: FloatConversion)
    requires minute != w.currentMinute
    ensures var v := Receive(w, inbound, minute, toFloat);
      && v.packetCount == 0
      && v.currentMinute == minute
      && v.uniqueSenders == SenderSet(HandleMessage(inbound, toFloat).sender)
      && v.log[..|w.log| + 2] == w.log + Flush(w.packetCount + 1, |w.uniqueSenders|)
  {
    var v := Receive(w, inbound, minute, toFloat);
    Written(w.log, Flush(w.packetCount + 1, |w.uniqueSenders|), HandleMessage(inbound, toFloat).records);
    assert v.log[..|w.log| + 2] == v.log[..|w.log|] + v.log[|w.log|..|w.log| + 2];
  }

  /**
    A message that raises writes no per-message record; it is still counted,
    and its sender is still added when the key could be computed.
   */
  lemma FailedMessage(w: Window, inbound: Option<Value>, minute: Minute, toFloat: FloatConversion)
    requires HandleMessage(inbound, toFloat).failure.Some?
    ensures var v := Receive(w, inbound, minute, toFloat);
      && v.log == Rollover(w.(packetCount := w.packetCount + 1), minute).log
      && v.packetCount == Rollover(w.(packetCount := w.packetCount + 1), minute).packetCount
  {
    HandleMessageRecords(inbound, toFloat);
  }

  /** A sender already in the window leaves the number of unique senders unchanged. */
  lemma KnownSender(w: Window, inbound: Option<Value>, toFloat: FloatConversion)
    requires HandleMessage(inbound, toFloat).sender.Some?
    requires HandleMessage(inbound, toFloat).sender.value in w.uniqueSenders
    ensures |Receive(w, inbound, w.currentMinute, toFloat).uniqueSenders| == |w.uniqueSenders|
  {
    var k := HandleMessage(inbound, toFloat).sender.value;
    assert w.uniqueSenders + {k} == w.uniqueSenders;
  }

  /**
    Three messages in one minute from two senders, the first sending twice,
    then a message from the second in the next minute: the window counted
    three packets and two senders, and the flush reports four packets, the
    trigger included, and two unique senders; the new window holds only the
    trigger's sender.
   */
  lemma RolloverScenario(first: JsonObject, second: JsonObject, toFloat: FloatConversion)
    requires SenderKey(first).Ok? && SenderKey(second).Ok? && SenderKey(first) != SenderKey(second)
    ensures var one, two := Some(Object(first)), Some(Object(second));
      var w := Receive(Receive(Receive(Start(0), one, 0, toFloat), two, 0, toFloat), one, 0, toFloat);
      var next := Receive(w, two, 1, toFloat);
      && w.packetCount == 3 && |w.uniqueSenders| == 2
      && next.log[|w.log|..|w.log| + 2] == Flush(4, 2)
      && next.packetCount == 0 && next.uniqueSenders == {SenderKey(second).value}
  {
    var one, two := Some(Object(first)), Some(Object(second));
    HandleMessageOutcome(one, toFloat);
    HandleMessageOutcome(two, toFloat);
    var k1, k2 := SenderKey(first).value, SenderKey(second).value;
    var w1 := Receive(Start(0), one, 0, toFloat);
    assert w1.packetCount == 1 && w1.currentMinute == 0 && w1.uniqueSenders == {k1};
    var w2 := Receive(w1, two, 0, toFloat);
    assert w2.packetCount == 2 && w2.currentMinute == 0 && w2.uniqueSenders == {k1, k2};
    var w := Receive(w2, one, 0, toFloat);
    assert w.packetCount == 3 && w.currentMinute == 0 && w.uniqueSenders == {k1, k2};
    var next := Receive(w, two, 1, toFloat);
    Written(w.log, Flush(4, 2), HandleMessage(two, toFloat).records);
  }

  /** Messages from 1 and from 2 have different sender keys. */
  lemma DistinctSenders()
    ensures SenderKey(map["from" := Int(1)]) != SenderKey(map["from" := Int(2)])
  {
    ToHexStringInjective(1, 2);
  }

  /** The records written after `before` start with `written`. */
  lemma Written(before: seq<Record>, written: seq<Record>, rest: seq<Record>)
    ensures (before + written + rest)[|before|..|before| + |written|] == written
  {
  }

  /** Adding at most one sender grows the set by at most one. */
  lemma SenderSetBound(window: set<string>, sender: Option<string>)
    ensures |window + SenderSet(sender)| <= |window| + 1
  {
  }

  /** Two sound logs written one after the other make a sound log. */
  lemma {:induction false} SoundAppend(a: seq<Record>, b: seq<Record>)
    requires FlushesSound(a) && FlushesSound(b)
    ensures FlushesSound(a + b)
    decreases |a|
  {
    if a == [] {
      assert a + b == b;
    } else if a[0].measurement == "packet_stats" {
      assert (a + b)[2..] == a[2..] + b;
      SoundAppend(a[2..], b);
    } else {
      assert (a + b)[1..] == a[1..] + b;
      SoundAppend(a[1..], b);
    }
  }

  /** A flush whose unique count is within its packet count is sound. */
  lemma FlushSound(packets: nat, senders: nat)
    requires senders <= packets
    ensures FlushesSound(Flush(packets, senders))
  {
    var f := Flush(packets, senders);
    assert FlushPair(f[0], f[1]);
    assert f[2..] == [];
  }

  /** Records other than `packet_stats` never start a flush. */
  lemma {:induction false} MessageRecordsSound(records: seq<Record>)
    requires forall r :: r in records ==> r.measurement != "packet_stats" && r.measurement != "unique_sender_stats"
    ensures FlushesSound(records)
    decreases |records|
  {
    if records != [] {
      assert records[0] in records;
      MessageRecordsSound(records[1..]);
    }
  }

  /** A sound log does not start with a `unique_sender_stats` record. */
  lemma SoundHead(log: seq<Record>)
    requires FlushesSound(log) && log != []
    ensures log[0].measurement != "unique_sender_stats"
  {
  }

  /**
    In a sound log every `unique_sender_stats` record directly follows the
    `packet_stats` record of its flush and reports no more senders than it.
   */
  lemma {:induction false} SoundReports(log: seq<Record>, i: int)
    requires FlushesSound(log)
    requires 0 <= i < |log| && log[i].measurement == "unique_sender_stats"
    ensures 0 < i && FlushPair(log[i - 1], log[i])
    decreases |log|
  {
    SoundHead(log);
    if log[0].measurement == "packet_stats" {
      if i == 2 {
        assert false;
      } else if i > 2 {
        SoundReports(log[2..], i - 2);
        assert log[2..][i - 3] == log[i - 1];
      }
    } else {
      if i == 1 {
        SoundHead(log[1..]);
        assert false;
      }
      SoundReports(log[1..], i - 1);
    }
  }

  /** A `unique_sender_stats` record without its `packet_stats` record is not sound. */
  lemma {:induction false} OrphanSenderStats(before: seq<Record>, count: nat)
    requires forall r :: r in before ==> r.measurement != "packet_stats"
    ensures !FlushesSound(before + [UniqueSenderStats(count)])
    decreases |before|
  {
    if before != [] {
      assert before[0] in before;
      assert (before + [UniqueSenderStats(count)])[1..] == before[1..] + [UniqueSenderStats(count)];
      OrphanSenderStats(before[1..], count);
    }
  }
}
