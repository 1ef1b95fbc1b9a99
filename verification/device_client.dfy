/**
 The device agent (DeviceClient): one outbound socket to the server, a retry
 timer that re-attempts the connection every 5000 ms, a send timer that fires
 after a random 10..99 ms delay and emits one synthetic message per tick, and
 the handling of the server's ConnectAck, Command and Config messages.

 Timers are booleans plus the interval they were last started with; the
 socket's state is part of the agent record and is changed by the socket
 events that carry it.  Random draws come in as arguments with their ranges.
 */
module DeviceClient {
  import opened Bytes
  import opened Json
  import opened Framing
  import opened Messages

  datatype SocketState = Unconnected | Connecting | Connected

  datatype Agent = Agent(
    socket: SocketState,
    started: bool,
    sendTimerActive: bool,
    sendIntervalMs: int,
    retryTimerActive: bool,
    retryIntervalMs: int,
    clientId: string,
    critLatencyMs: int,
    critPacketLoss: real,
    buffer: seq<Byte>)

  const RetryIntervalMs: int := 5000
  const DefaultCritLatencyMs: int := 100
  const DefaultCritPacketLoss: real := 0.05

  /** A send-timer delay drawn by `bounded(10, 100)`: half-open [10, 100). */
  type Delay = d: int | 10 <= d < 100 witness 10

  /** The constructor: defaults, the retry interval set but the timer not
      started, and a first `tryConnect()`. */
  function Create(): (a: Agent)
    ensures a.socket == Connecting
    ensures !a.started && !a.sendTimerActive && !a.retryTimerActive
    ensures a.retryIntervalMs == 5000
    ensures a.critLatencyMs == 100 && a.critPacketLoss == 0.05
    ensures a.clientId == "" && a.buffer == []
  {
    TryConnect(Agent(Unconnected, false, false, 0, false, RetryIntervalMs, "",
                     DefaultCritLatencyMs, DefaultCritPacketLoss, []))
  }

  /** `tryConnect`: skipped while connected or connecting; otherwise the
      socket starts connecting. */
  function TryConnect(a: Agent): (r: Agent)
    ensures a.socket != Unconnected ==> r == a
    ensures a.socket == Unconnected ==> r == a.(socket := Connecting)
  {
    if a.socket == Connected || a.socket == Connecting then a
    else
      assert a.socket == Unconnected;
      a.(socket := Connecting)
  }

  /** `onConnected`: the socket is connected and the retry timer stops. */
  function OnConnected(a: Agent): (r: Agent)
    ensures r.socket == Connected && !r.retryTimerActive
    ensures r.(socket := a.socket, retryTimerActive := a.retryTimerActive) == a
  {
    a.(socket := Connected, retryTimerActive := false)
  }

  /** `onDisconnected`: sending stops and the retry timer starts.  The
      receive buffer is kept (see `OnDisconnectedClearingBuffer`). */
  function OnDisconnected(a: Agent): (r: Agent)
    ensures r.socket == Unconnected && !r.started && !r.sendTimerActive && r.retryTimerActive
    ensures r.buffer == a.buffer && r.clientId == a.clientId
    ensures r.critLatencyMs == a.critLatencyMs && r.critPacketLoss == a.critPacketLoss
  {
    a.(socket := Unconnected, started := false, sendTimerActive := false, retryTimerActive := true)
  }

  /** `onDisconnected` as evidently intended: a new connection is a new byte
      stream, so bytes left over from the old one are dropped. */
  function OnDisconnectedClearingBuffer(a: Agent): (r: Agent)
    ensures r.socket == Unconnected && !r.started && !r.sendTimerActive && r.retryTimerActive
    ensures r.buffer == []
    ensures r.clientId == a.clientId
    ensures r.critLatencyMs == a.critLatencyMs && r.critPacketLoss == a.critPacketLoss
  {
    OnDisconnected(a).(buffer := [])
  }

  /** A connection attempt that fails: the socket falls back to Unconnected
      and reports an error, not `disconnected()`; no handler of the agent
      runs, so no timer changes. */
  function ConnectAttemptFails(a: Agent): (r: Agent)
    ensures r.socket == Unconnected
    ensures r.(socket := a.socket) == a
  {
    a.(socket := Unconnected)
  }

  /** A failed connection attempt handled as evidently intended: like a
      disconnect, it (re)starts the retry timer. */
  function ConnectAttemptFailsRetrying(a: Agent): (r: Agent)
    ensures r.socket == Unconnected && r.retryTimerActive
    ensures r.(socket := a.socket, retryTimerActive := a.retryTimerActive) == a
  {
    a.(socket := Unconnected, retryTimerActive := true)
  }

  /** `startSending`: a no-op while started; otherwise marks the agent started
      and starts the send timer with the drawn delay. */
  function StartSending(a: Agent, delay: Delay): (r: Agent)
    ensures a.started ==> r == a
    ensures !a.started ==> r.started && r.sendTimerActive && 10 <= r.sendIntervalMs < 100
    ensures !a.started ==> r.(started := a.started, sendTimerActive := a.sendTimerActive, sendIntervalMs := a.sendIntervalMs) == a
  {
    if a.started then a else a.(started := true, sendTimerActive := true, sendIntervalMs := delay)
  }

  /** `stopSending`: not started and the send timer stopped, whatever the
      state before. */
  function StopSending(a: Agent): (r: Agent)
    ensures !r.started && !r.sendTimerActive
    ensures r.(started := a.started, sendTimerActive := a.sendTimerActive) == a
  {
    a.(started := false, sendTimerActive := false)
  }

  /** The thresholds after a Config message: each is replaced only when its
      key is present. */
  function ApplyConfig(a: Agent, obj: JsonObject): (r: Agent)
    ensures "crit_latency_ms" !in obj ==> r.critLatencyMs == a.critLatencyMs
    ensures "crit_packet_loss" !in obj ==> r.critPacketLoss == a.critPacketLoss
    ensures "crit_latency_ms" in obj ==> r.critLatencyMs == IntField(obj, "crit_latency_ms", a.critLatencyMs)
    ensures "crit_packet_loss" in obj ==> r.critPacketLoss == DoubleField(obj, "crit_packet_loss", a.critPacketLoss)
    ensures r.(critLatencyMs := a.critLatencyMs, critPacketLoss := a.critPacketLoss) == a
  {
    var a1 := if "crit_latency_ms" in obj then a.(critLatencyMs := IntField(obj, "crit_latency_ms", a.critLatencyMs)) else a;
    if "crit_packet_loss" in obj then a1.(critPacketLoss := DoubleField(obj, "crit_packet_loss", a1.critPacketLoss)) else a1
  }

  /** `handleServerJson`: ConnectAck records the identifier, Command START /
      STOP (compared after upper-casing) starts or stops sending, Config
      updates the thresholds; anything else changes nothing.  `delay` is the
      draw `startSending` would make. */
  function HandleServerJson(a: Agent, obj: JsonObject, delay: Delay): (r: Agent)
    ensures r.socket == a.socket && r.retryTimerActive == a.retryTimerActive && r.buffer == a.buffer
    ensures StringField(obj, "type") == "ConnectAck" ==> r == a.(clientId := StringField(obj, "client_id"))
    ensures StringField(obj, "type") == "Command" ==>
              var cmd := ToUpperAscii(StringField(obj, "command"));
              && (cmd == "START" ==> r == StartSending(a, delay))
              && (cmd == "STOP" ==> r == StopSending(a))
              && (cmd != "START" && cmd != "STOP" ==> r == a)
    ensures StringField(obj, "type") == "Config" ==> r == ApplyConfig(a, obj)
    ensures StringField(obj, "type") !in {"ConnectAck", "Command", "Config"} ==> r == a
  {
    var kind := StringField(obj, "type");
    if kind == "ConnectAck" then a.(clientId := StringField(obj, "client_id"))
    else if kind == "Command" then
      var cmd := ToUpperAscii(StringField(obj, "command"));
      if cmd == "START" then StartSending(a, delay)
      else if cmd == "STOP" then StopSending(a)
      else a
    else if kind == "Config" then ApplyConfig(a, obj)
    else a
  }

  /** Hands each extracted document to `handleServerJson` in order; the k-th
      document may use the delay `delays(k)`.  Documents that are not objects
      are only logged. */
  function HandleDocs(a: Agent, docs: seq<Doc>, delays: nat -> Delay, k: nat): (r: Agent)
    ensures r.socket == a.socket && r.retryTimerActive == a.retryTimerActive && r.buffer == a.buffer
    decreases |docs|
  {
    if docs == [] then a
    else
      var a1 := if docs[0].ObjectDoc? then HandleServerJson(a, docs[0].obj, delays(k)) else a;
      HandleDocs(a1, docs[1..], delays, k + 1)
  }

  /** `onReadyRead`: appends what arrived, drains whole frames, and handles
      each object in wire order. */
  function OnReadyRead(c: JsonCodec, a: Agent, incoming: seq<Byte>, delays: nat -> Delay): (r: Agent)
    requires HeadersFit(a.buffer + incoming)
    ensures r.socket == a.socket && r.retryTimerActive == a.retryTimerActive
    ensures HeadersFit(r.buffer)
    ensures |r.buffer| <= |a.buffer + incoming|
    ensures r.buffer == (a.buffer + incoming)[|a.buffer + incoming| - |r.buffer|..]
  {
    var d := Drain(c, a.buffer + incoming);
    DrainKeepsHeadersFit(c, a.buffer + incoming);
    DrainLeavesSuffix(c, a.buffer + incoming);
    HandleDocs(a.(buffer := d.buffer), d.docs, delays, 0)
  }

  /** The 83 characters `randomString` draws from. */
  const Charset: string := "ABCDEFGHIJKLMNOPQRSTUVWXYZabcdefghijklmnopqrstuvwxyz0123456789 ./-_:,;!@#%^&*()[]{}"

  /** `randomString(|picks|)`, where `picks` are the drawn indices
      (`bounded(83)`, half-open). */
  function RandomString(picks: seq<int>): (s: string)
    requires forall i :: 0 <= i < |picks| ==> 0 <= picks[i] < |Charset|
    ensures |s| == |picks|
    ensures forall i :: 0 <= i < |s| ==> s[i] in Charset
  {
    seq(|picks|, i requires 0 <= i < |picks| => Charset[picks[i]])
  }

  /** The bounds of the three Log length bands: [5,50), [50,200), [200,800). */
  function BandLow(bucket: int): int
  {
    if bucket == 0 then 5 else if bucket == 1 then 50 else 200
  }

  function BandHigh(bucket: int): int
  {
    if bucket == 0 then 50 else if bucket == 1 then 200 else 800
  }

  /** Everything `produceRandomMessage` may draw, in one record. */
  datatype Draw = Draw(
    kind: int,
    bandwidth: Decimal, latency: Decimal, packetLoss: Decimal,
    uptime: int, cpu: int, memory: int,
    lenBucket: int, len: int, picks: seq<int>)

  /** The ranges of the draws: `bounded(lo, hi)` is half-open [lo, hi), and
      `randRange(lo, hi)` lies within [lo, hi]. */
  predicate ValidDraw(d: Draw)
  {
    && 0 <= d.kind < 100
    && 1.0 <= Value(d.bandwidth) <= 1000.0
    && 0.1 <= Value(d.latency) <= 200.0
    && 0.0 <= Value(d.packetLoss) <= 0.2
    && 0 <= d.uptime < 1000000
    && 0 <= d.cpu < 100
    && 0 <= d.memory < 100
    && 0 <= d.lenBucket < 3
    && BandLow(d.lenBucket) <= d.len < BandHigh(d.lenBucket)
    && |d.picks| == d.len
    && forall i :: 0 <= i < |d.picks| ==> 0 <= d.picks[i] < |Charset|
  }

  /** A whole number as a JSON number. */
  function IntNumber(n: int): JsonValue
  {
    Number(Decimal(n, 0))
  }

  /** `produceRandomMessage`: NetworkMetrics for a kind draw below 33,
      DeviceStatus below 67, otherwise an INFO Log of random text. */
  function ProduceRandomMessage(d: Draw): (msg: JsonObject)
    requires ValidDraw(d)
    ensures d.kind < 33 ==>
              && StringField(msg, "type") == "NetworkMetrics"
              && 1.0 <= DoubleField(msg, "bandwidth", 0.0) <= 1000.0
              && DoubleField(msg, "latency", 0.0) == Value(d.latency)
              && DoubleField(msg, "packet_loss", 0.0) == Value(d.packetLoss)
              && 0.1 <= DoubleField(msg, "latency", 0.0) <= 200.0
              && 0.0 <= DoubleField(msg, "packet_loss", 0.0) <= 0.2
    ensures 33 <= d.kind < 67 ==>
              && StringField(msg, "type") == "DeviceStatus"
              && 0 <= IntField(msg, "uptime", -1) < 1000000
              && 0 <= IntField(msg, "cpu_usage", -1) < 100
              && 0 <= IntField(msg, "memory_usage", -1) < 100
    ensures 67 <= d.kind ==>
              && StringField(msg, "type") == "Log"
              && StringField(msg, "severity") == "INFO"
              && var text := StringField(msg, "message");
                 && BandLow(d.lenBucket) <= |text| < BandHigh(d.lenBucket)
                 && (forall i :: 0 <= i < |text| ==> text[i] in Charset)
  {
    if d.kind < 33 then
      map["type" := Str("NetworkMetrics"), "bandwidth" := Number(d.bandwidth),
          "latency" := Number(d.latency), "packet_loss" := Number(d.packetLoss)]
    else if d.kind < 67 then
      map["type" := Str("DeviceStatus"), "uptime" := IntNumber(d.uptime),
          "cpu_usage" := IntNumber(d.cpu), "memory_usage" := IntNumber(d.memory)]
    else
      map["type" := Str("Log"), "message" := Str(RandomString(d.picks)), "severity" := Str("INFO")]
  }

  /** The WARNING Log written ahead of a metrics sample that breaches a
      threshold; `fmt` renders a double as `QString::arg` does. */
  function ThresholdWarning(lat: real, pl: real, fmt: real -> string): (w: JsonObject)
    ensures StringField(w, "type") == "Log" && StringField(w, "severity") == "WARNING"
    ensures "message" in w && w["message"].Str?
    ensures var m := w["message"].s; var p := "Threshold exceeded: latency=";
            |p| + |fmt(pl)| <= |m| && m[..|p|] == p && m[|m| - |fmt(pl)|..] == fmt(pl)
  {
    map["type" := Str("Log"), "severity" := Str("WARNING"),
        "message" := Str("Threshold exceeded: latency=" + fmt(lat) + " pl=" + fmt(pl))]
  }

  /** The draw produces a NetworkMetrics sample above a configured threshold. */
  predicate Breach(a: Agent, d: Draw)
  {
    d.kind < 33 && (Value(d.latency) > a.critLatencyMs as real || Value(d.packetLoss) > a.critPacketLoss)
  }

  /** A send tick's outcome: the agent and the frames written, in order. */
  datatype Tick = Tick(agent: Agent, frames: seq<seq<Byte>>)

  /** `onSendTick`: when not started or not connected, stops the send timer
      and writes nothing (leaving `started` alone).  Otherwise re-arms with a
      fresh delay and writes one message frame, preceded by a WARNING Log
      frame exactly when the message is a metrics sample over a threshold. */
  function OnSendTick(c: JsonCodec, a: Agent, next: Delay, d: Draw, fmt: real -> string): (r: Tick)
    requires ValidDraw(d)
    ensures !a.started || a.socket != Connected ==> r == Tick(a.(sendTimerActive := false), [])
    ensures a.started && a.socket == Connected ==>
              && r.agent == a.(sendTimerActive := true, sendIntervalMs := next)
              && 1 <= |r.frames| <= 2
              && r.frames[|r.frames| - 1] == PackJson(c, ProduceRandomMessage(d))
              && (|r.frames| == 2 <==> Breach(a, d))
              && (|r.frames| == 2 ==> r.frames[0] == PackJson(c, ThresholdWarning(Value(d.latency), Value(d.packetLoss), fmt)))
  {
    if !a.started || a.socket != Connected then Tick(a.(sendTimerActive := false), [])
    else
      var a1 := a.(sendTimerActive := true, sendIntervalMs := next);
      var msg := ProduceRandomMessage(d);
      var warning :=
        if StringField(msg, "type") == "NetworkMetrics" then
          var lat := DoubleField(msg, "latency", 0.0);
          var pl := DoubleField(msg, "packet_loss", 0.0);
          if lat > a.critLatencyMs as real || pl > a.critPacketLoss then [PackJson(c, ThresholdWarning(lat, pl, fmt))] else []
        else [];
      Tick(a1, warning + [PackJson(c, msg)])
  }

  /** Whole frames, split in any way between what was buffered before this
      read and the bytes it brings, are handled in wire order and leave
      nothing buffered. */
  lemma OnReadyReadWholeFrames(c: JsonCodec, a: Agent, incoming: seq<Byte>, os: seq<JsonObject>, delays: nat -> Delay)
    requires RoundTrips(c)
    requires AllFit(c, os)
    requires a.buffer + incoming == PackAll(c, os)
    ensures HeadersFit(a.buffer + incoming)
    ensures OnReadyRead(c, a, incoming, delays) == HandleDocs(a.(buffer := []), ObjectDocs(os), delays, 0)
  {
    DrainPackedAll(c, os, []);
    DrainNotReady(c, []);
    assert PackAll(c, os) + [] == PackAll(c, os);
    assert ObjectDocs(os) + [] == ObjectDocs(os);
  }

  /** One whole frame holding `o` is handled exactly as `handleServerJson(o)`. */
  lemma OnReadyReadOneObject(c: JsonCodec, a: Agent, o: JsonObject, delays: nat -> Delay)
    requires RoundTrips(c)
    requires |c.serialize(o)| <= MaxFrameLen
    requires a.buffer == []
    ensures HeadersFit(a.buffer + PackJson(c, o))
    ensures OnReadyRead(c, a, PackJson(c, o), delays) == HandleServerJson(a, o, delays(0))
  {
    assert PackAll(c, [o]) == PackJson(c, o) + [];
    assert [o][1..] == [];
    OnReadyReadWholeFrames(c, a, PackJson(c, o), [o], delays);
    assert ObjectDocs([o]) == [ObjectDoc(o)];
  }

  /** Commands are matched after upper-casing: "start" starts like "START",
      and a command that is neither START nor STOP changes nothing. */
  lemma CommandCaseInsensitive(a: Agent, delay: Delay)
    ensures HandleServerJson(a, CommandMessage("start"), delay) == StartSending(a, delay)
    ensures HandleServerJson(a, CommandMessage("Stop"), delay) == StopSending(a)
    ensures HandleServerJson(a, CommandMessage("PAUSE"), delay) == a
  {
    assert ToUpperAscii("start") == "START";
    assert ToUpperAscii("Stop") == "STOP";
    assert ToUpperAscii("PAUSE") == "PAUSE";
  }

  lemma StartCommandStarts(a: Agent, delay: Delay)
    ensures HandleServerJson(a, CommandMessage("START"), delay) == StartSending(a, delay)
  {
    assert ToUpperAscii("START") == "START";
  }

  lemma StopCommandStops(a: Agent, delay: Delay)
    ensures HandleServerJson(a, CommandMessage("STOP"), delay) == StopSending(a)
  {
    assert ToUpperAscii("STOP") == "STOP";
  }

  /** The ConnectAck records the identifier it carries and nothing else. */
  lemma AckRecordsId(a: Agent, id: string, delay: Delay)
    ensures HandleServerJson(a, ConnectAck(id), delay) == a.(clientId := id)
  {
  }

  /** Connecting is idempotent: a retry while an attempt is under way, or
      while connected, changes nothing. */
  lemma TryConnectIdempotent(a: Agent)
    ensures TryConnect(TryConnect(a)) == TryConnect(a)
    ensures TryConnect(a).socket != Unconnected
  {
  }

  /** A second START keeps the first delay; a second STOP changes nothing;
      START after STOP restarts with the new delay. */
  lemma StartStopIdempotent(a: Agent, d1: Delay, d2: Delay)
    ensures StartSending(StartSending(a, d1), d2) == StartSending(a, d1)
    ensures StopSending(StopSending(a)) == StopSending(a)
    ensures StartSending(StopSending(a), d2).sendIntervalMs == d2
  {
  }

  /** A Config message replaces a threshold only with a value its key
      converts to: a whole number for the latency, any number for the packet
      loss.  A fractional latency or a non-numeric value keeps the old one. */
  lemma ConfigThresholds(a: Agent, delay: Delay)
    ensures var obj := map["type" := Str("Config"), "crit_latency_ms" := Number(Decimal(250, 0)),
                           "crit_packet_loss" := Number(Decimal(1, -1))];
            var r := HandleServerJson(a, obj, delay);
            r.critLatencyMs == 250 && r.critPacketLoss == 0.1
    ensures var obj := map["type" := Str("Config"), "crit_latency_ms" := Number(Decimal(25, -1))];
            var r := HandleServerJson(a, obj, delay);
            r.critLatencyMs == a.critLatencyMs && r.critPacketLoss == a.critPacketLoss
    ensures var obj := map["type" := Str("Config"), "crit_packet_loss" := Str("high")];
            HandleServerJson(a, obj, delay) == a
  {
    assert Pow10(1) == 10;
    assert Value(Decimal(25, -1)) == 2.5;
    assert (2.5).Floor == 2;
    assert Value(Decimal(1, -1)) == 0.1;
    assert Value(Decimal(250, 0)) == 250.0;
  }

  /** A metrics sample with latency 150 against a critical latency of 100
      writes a WARNING Log frame right before the metrics frame. */
  lemma HighLatencyWarns(c: JsonCodec, a: Agent, next: Delay, d: Draw, fmt: real -> string)
    requires a.started && a.socket == Connected && a.critLatencyMs == 100
    requires ValidDraw(d) && d.kind < 33 && d.latency == Decimal(150, 0)
    ensures var t := OnSendTick(c, a, next, d, fmt);
            && |t.frames| == 2
            && t.frames[0] == PackJson(c, ThresholdWarning(150.0, Value(d.packetLoss), fmt))
            && t.frames[1] == PackJson(c, ProduceRandomMessage(d))
  {
  }

  /** Latency 50 and packet loss 0.01 under the default thresholds write the
      metrics frame alone. */
  lemma NominalMetricsDoNotWarn(c: JsonCodec, a: Agent, next: Delay, d: Draw, fmt: real -> string)
    requires a.started && a.socket == Connected
    requires a.critLatencyMs == DefaultCritLatencyMs && a.critPacketLoss == DefaultCritPacketLoss
    requires ValidDraw(d) && d.kind < 33 && d.latency == Decimal(50, 0) && d.packetLoss == Decimal(1, -2)
    ensures OnSendTick(c, a, next, d, fmt).frames == [PackJson(c, ProduceRandomMessage(d))]
  {
    assert Pow10(2) == 100;
    assert Value(d.packetLoss) == 0.01;
  }
}
