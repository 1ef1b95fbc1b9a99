/**
 The device agent as a whole: the events that can reach it (timer expiries,
 socket state changes, arriving bytes), which of them can happen in a given
 state, and the invariant its reachable states keep.

 Two transitions differ from the code as written (see the README's Findings):
 `StepAsWritten` is the code, `Step` is the corrected agent that the
 invariant and the scenarios below are about.
 */
module AgentLifecycle {
  import opened Bytes
  import opened Json
  import opened Framing
  import opened DeviceClient
  import opened Messages

  /** What can happen to the agent next. */
  datatype Input =
    | RetryTimeout
    | ConnectSucceeded
    | ConnectFailed
    | PeerClosed
    | BytesArrived(bytes: seq<Byte>, delays: nat -> Delay)
    | SendTimeout(next: Delay, draw: Draw)

  /** The events that can occur in state `a`: a timer expires only while it
      runs, a connection attempt resolves only while connecting, bytes arrive
      and the peer closes only while connected. */
  predicate Enabled(a: Agent, i: Input)
  {
    match i
    case RetryTimeout => a.retryTimerActive
    case ConnectSucceeded => a.socket == Connecting
    case ConnectFailed => a.socket == Connecting
    case PeerClosed => a.socket == Connected
    case BytesArrived(bytes, _) => a.socket == Connected && HeadersFit(a.buffer + bytes)
    case SendTimeout(_, draw) => a.sendTimerActive && ValidDraw(draw)
  }

  /** The agent after an event, and the frames it wrote. */
  datatype Outcome = Outcome(agent: Agent, frames: seq<seq<Byte>>)

  /** The handlers as the code wires them. */
  function StepAsWritten(c: JsonCodec, fmt: real -> string, a: Agent, i: Input): (r: Outcome)
    requires Enabled(a, i)
    ensures !i.SendTimeout? ==> r.frames == []
  {
    match i
    case RetryTimeout => Outcome(TryConnect(a), [])
    case ConnectSucceeded => Outcome(OnConnected(a), [])
    case ConnectFailed => Outcome(ConnectAttemptFails(a), [])
    case PeerClosed => Outcome(OnDisconnected(a), [])
    case BytesArrived(bytes, delays) => Outcome(DeviceClient.OnReadyRead(c, a, bytes, delays), [])
    case SendTimeout(next, draw) =>
      var t := OnSendTick(c, a, next, draw, fmt);
      Outcome(t.agent, t.frames)
  }

  /** The corrected agent: a failed attempt keeps the retry timer running,
      and a disconnect drops the old connection's undecoded bytes. */
  function Step(c: JsonCodec, fmt: real -> string, a: Agent, i: Input): (r: Outcome)
    requires Enabled(a, i)
    ensures !i.SendTimeout? ==> r.frames == []
    ensures !i.ConnectFailed? && !i.PeerClosed? ==> r == StepAsWritten(c, fmt, a, i)
  {
    match i
    case ConnectFailed => Outcome(ConnectAttemptFailsRetrying(a), [])
    case PeerClosed => Outcome(OnDisconnectedClearingBuffer(a), [])
    case _ => StepAsWritten(c, fmt, a, i)
  }

  /** The send timer runs only while started, and the agent is started only
      while connected.  The code as written keeps these two facts too. */
  predicate SendFacts(a: Agent)
  {
    && (a.sendTimerActive ==> a.started)
    && (a.started ==> a.socket == Connected)
  }

  /** What every reachable state of the corrected agent satisfies: while
      unconnected a retry is pending; bytes are buffered only while
      connected; and the two send-timer facts. */
  predicate AgentInv(a: Agent)
  {
    && (a.socket == Unconnected ==> a.retryTimerActive)
    && (a.socket != Connected ==> a.buffer == [])
    && SendFacts(a)
  }

  lemma CreateEstablishesInv()
    ensures AgentInv(Create())
  {
  }

  /** Handling documents never touches the socket, the buffer or the retry
      timer, and keeps the send timer running only while started. */
  lemma {:induction false} HandleDocsKeepsSending(a: Agent, docs: seq<Doc>, delays: nat -> Delay, k: nat)
    requires a.sendTimerActive ==> a.started
    requires a.started ==> a.socket == Connected
    requires a.socket == Connected
    ensures var r := HandleDocs(a, docs, delays, k);
            (r.sendTimerActive ==> r.started) && (r.started ==> r.socket == Connected)
    decreases |docs|
  {
    if docs != [] {
      var a1 := if docs[0].ObjectDoc? then HandleServerJson(a, docs[0].obj, delays(k)) else a;
      HandleDocsKeepsSending(a1, docs[1..], delays, k + 1);
    }
  }

  /** Every event keeps the invariant of the corrected agent. */
  lemma StepKeepsInv(c: JsonCodec, fmt: real -> string, a: Agent, i: Input)
    requires AgentInv(a) && Enabled(a, i)
    ensures AgentInv(Step(c, fmt, a, i).agent)
  {
    match i
    case BytesArrived(bytes, delays) =>
      var d := Drain(c, a.buffer + bytes);
      HandleDocsKeepsSending(a.(buffer := d.buffer), d.docs, delays, 0);
    case _ =>
  }

  /** The code as written keeps the two send-timer facts on every event:
      only the retry and buffer parts of the invariant are lost. */
  lemma AsWrittenKeepsSendFacts(c: JsonCodec, fmt: real -> string, a: Agent, i: Input)
    requires SendFacts(a) && Enabled(a, i)
    ensures SendFacts(StepAsWritten(c, fmt, a, i).agent)
  {
    match i
    case BytesArrived(bytes, delays) =>
      var d := Drain(c, a.buffer + bytes);
      HandleDocsKeepsSending(a.(buffer := d.buffer), d.docs, delays, 0);
    case _ =>
  }

  /** In a reachable state a send tick always finds the agent started and
      connected, so it re-arms the timer and writes at least one frame. */
  lemma SendTickAlwaysWrites(c: JsonCodec, fmt: real -> string, a: Agent, next: Delay, draw: Draw)
    requires AgentInv(a) && Enabled(a, SendTimeout(next, draw))
    ensures Step(c, fmt, a, SendTimeout(next, draw)).agent.sendTimerActive
    ensures |Step(c, fmt, a, SendTimeout(next, draw)).frames| >= 1
  {
  }

  /** Finding: with the code as written, a first connection attempt that
      fails leaves the agent unconnected with no timer running, so no event
      can reach it any more: it never retries. */
  lemma FirstConnectFailureIsFinal(c: JsonCodec, fmt: real -> string)
    ensures var a := StepAsWritten(c, fmt, Create(), ConnectFailed).agent;
            && a.socket == Unconnected && !a.retryTimerActive
            && !AgentInv(a)
            && forall i: Input :: !Enabled(a, i)
  {
  }

  /** The corrected agent, after the same failure, still has a retry pending,
      and that retry makes it connect again. */
  lemma FirstConnectFailureRetries(c: JsonCodec, fmt: real -> string)
    ensures var a := Step(c, fmt, Create(), ConnectFailed).agent;
            && Enabled(a, RetryTimeout)
            && Step(c, fmt, a, RetryTimeout).agent.socket == Connecting
  {
  }

  /** A header left over from the previous connection: it claims one byte
      more than a ConnectAck frame for `id` holds. */
  function StaleHeader(c: JsonCodec, id: string): seq<Byte>
    requires |c.serialize(ConnectAck(id))| + HeaderSize + 1 <= MaxFrameLen
  {
    Be32(|PackJson(c, ConnectAck(id))| + 1)
  }

  /** The agent after connecting and reading only the stale header: the
      header is not a whole frame, so it stays buffered. */
  function WithStaleHeader(c: JsonCodec, fmt: real -> string, id: string, delays: nat -> Delay): (a: Agent)
    requires |c.serialize(ConnectAck(id))| + HeaderSize + 1 <= MaxFrameLen
    ensures a.socket == Connected && a.buffer == StaleHeader(c, id)
    ensures HeadersFit(a.buffer) && !FrameReady(a.buffer)
  {
    var a0 := StepAsWritten(c, fmt, Create(), ConnectSucceeded).agent;
    var h := StaleHeader(c, id);
    Be32RoundTrip(|PackJson(c, ConnectAck(id))| + 1);
    assert a0.buffer + h == h;
    DrainNotReady(c, h);
    StepAsWritten(c, fmt, a0, BytesArrived(h, delays)).agent
  }

  /** The agent as written after the peer closes, the retry fires and the
      new connection succeeds. */
  function ReconnectAsWritten(c: JsonCodec, fmt: real -> string, a: Agent): (b: Agent)
    requires a.socket == Connected
    ensures b.socket == Connected && b.buffer == a.buffer
  {
    var a1 := StepAsWritten(c, fmt, a, PeerClosed).agent;
    var a2 := StepAsWritten(c, fmt, a1, RetryTimeout).agent;
    StepAsWritten(c, fmt, a2, ConnectSucceeded).agent
  }

  /** The corrected agent after the same three events. */
  function Reconnect(c: JsonCodec, fmt: real -> string, a: Agent): (b: Agent)
    requires a.socket == Connected
    ensures b.socket == Connected && b.buffer == []
  {
    var a1 := Step(c, fmt, a, PeerClosed).agent;
    var a2 := Step(c, fmt, a1, RetryTimeout).agent;
    Step(c, fmt, a2, ConnectSucceeded).agent
  }

  /** Finding: with the code as written, bytes of a frame cut short by a
      disconnect stay buffered; after reconnecting, the read that delivers the
      new connection's ConnectAck takes it as the rest of that old frame and
      does not handle it: no identifier is recorded and all its bytes stay
      buffered behind the stale header. */
  lemma StaleBytesSwallowAck(c: JsonCodec, fmt: real -> string, id: string, delays: nat -> Delay)
    requires |c.serialize(ConnectAck(id))| + HeaderSize + 1 <= MaxFrameLen
    ensures var b := ReconnectAsWritten(c, fmt, WithStaleHeader(c, fmt, id, delays));
            var ack := PackJson(c, ConnectAck(id));
            && Enabled(b, BytesArrived(ack, delays))
            && StepAsWritten(c, fmt, b, BytesArrived(ack, delays)).agent.clientId == ""
            && StepAsWritten(c, fmt, b, BytesArrived(ack, delays)).agent.buffer == StaleHeader(c, id) + ack
  {
    var a := WithStaleHeader(c, fmt, id, delays);
    var b := ReconnectAsWritten(c, fmt, a);
    var ack := PackJson(c, ConnectAck(id));
    var n := |ack| + 1;
    Be32RoundTrip(n);
    var buf := b.buffer + ack;
    assert buf[..HeaderSize] == Be32(n);
    assert DeclaredLen(buf) == n;
    assert !FrameReady(buf);
    DrainNotReady(c, buf);
  }

  /** The corrected agent drops the stale bytes on disconnect, so the same
      ConnectAck is handled and its identifier recorded. */
  lemma ClearedBufferSeesAck(c: JsonCodec, fmt: real -> string, id: string, delays: nat -> Delay)
    requires RoundTrips(c)
    requires |c.serialize(ConnectAck(id))| + HeaderSize + 1 <= MaxFrameLen
    ensures var b := Reconnect(c, fmt, WithStaleHeader(c, fmt, id, delays));
            var ack := PackJson(c, ConnectAck(id));
            && Enabled(b, BytesArrived(ack, delays))
            && Step(c, fmt, b, BytesArrived(ack, delays)).agent.clientId == id
            && Step(c, fmt, b, BytesArrived(ack, delays)).agent.buffer == []
  {
    var a := WithStaleHeader(c, fmt, id, delays);
    var b := Reconnect(c, fmt, a);
    var ackObj := ConnectAck(id);
    OnReadyReadOneObject(c, b, ackObj, delays);
    assert StringField(ackObj, "type") == "ConnectAck";
  }

  /** A document that would start sending. */
  predicate IsStart(d: Doc)
  {
    && d.ObjectDoc?
    && StringField(d.obj, "type") == "Command"
    && ToUpperAscii(StringField(d.obj, "command")) == "START"
  }

  /** Documents none of which is a START command leave a stopped send timer
      stopped. */
  lemma {:induction false} HandleDocsWithoutStart(a: Agent, docs: seq<Doc>, delays: nat -> Delay, k: nat)
    requires !a.sendTimerActive
    requires forall j :: 0 <= j < |docs| ==> !IsStart(docs[j])
    ensures !HandleDocs(a, docs, delays, k).sendTimerActive
    decreases |docs|
  {
    if docs != [] {
      var a1 := if docs[0].ObjectDoc? then HandleServerJson(a, docs[0].obj, delays(k)) else a;
      assert !a1.sendTimerActive;
      assert forall j :: 0 <= j < |docs[1..]| ==> docs[1..][j] == docs[j + 1];
      HandleDocsWithoutStart(a1, docs[1..], delays, k + 1);
    }
  }

  /** STOP silences the agent: afterwards no send tick can occur, and no
      event brings one back except bytes carrying a START command. */
  lemma StopSilencesTicks(c: JsonCodec, fmt: real -> string, a: Agent, delay: Delay, i: Input)
    requires Enabled(HandleServerJson(a, CommandMessage("STOP"), delay), i)
    requires i.BytesArrived? ==>
               var s := HandleServerJson(a, CommandMessage("STOP"), delay);
               forall j :: 0 <= j < |Drain(c, s.buffer + i.bytes).docs| ==> !IsStart(Drain(c, s.buffer + i.bytes).docs[j])
    ensures var s := HandleServerJson(a, CommandMessage("STOP"), delay);
            && !s.started && !s.sendTimerActive
            && !i.SendTimeout?
            && !Step(c, fmt, s, i).agent.sendTimerActive
  {
    StopCommandStops(a, delay);
    var s := StopSending(a);
    NoTickWithoutStart(c, fmt, s, i);
  }

  /** While the send timer is stopped, no event restarts it except bytes
      carrying a START command. */
  lemma NoTickWithoutStart(c: JsonCodec, fmt: real -> string, s: Agent, i: Input)
    requires !s.sendTimerActive && Enabled(s, i)
    requires i.BytesArrived? ==>
               forall j :: 0 <= j < |Drain(c, s.buffer + i.bytes).docs| ==> !IsStart(Drain(c, s.buffer + i.bytes).docs[j])
    ensures !i.SendTimeout?
    ensures !Step(c, fmt, s, i).agent.sendTimerActive
  {
    if i.BytesArrived? {
      var d := Drain(c, s.buffer + i.bytes);
      HandleDocsWithoutStart(s.(buffer := d.buffer), d.docs, i.delays, 0);
    }
  }

  /** The code as written also never restarts a stopped send timer except on
      bytes carrying a START command. */
  lemma NoTickWithoutStartAsWritten(c: JsonCodec, fmt: real -> string, s: Agent, i: Input)
    requires !s.sendTimerActive && Enabled(s, i)
    requires i.BytesArrived? ==>
               forall j :: 0 <= j < |Drain(c, s.buffer + i.bytes).docs| ==> !IsStart(Drain(c, s.buffer + i.bytes).docs[j])
    ensures !i.SendTimeout?
    ensures !StepAsWritten(c, fmt, s, i).agent.sendTimerActive
  {
    if i.BytesArrived? {
      var d := Drain(c, s.buffer + i.bytes);
      HandleDocsWithoutStart(s.(buffer := d.buffer), d.docs, i.delays, 0);
    }
  }

  /** Handling a ConnectAck and then a START. */
  lemma HandleAckThenStart(a: Agent, id: string, delays: nat -> Delay)
    requires !a.started
    ensures var r := HandleDocs(a, [ObjectDoc(ConnectAck(id)), ObjectDoc(CommandMessage("START"))], delays, 0);
            r.clientId == id && r.started && r.sendTimerActive && r.sendIntervalMs == delays(1) && r.buffer == a.buffer
  {
    var docs := [ObjectDoc(ConnectAck(id)), ObjectDoc(CommandMessage("START"))];
    AckRecordsId(a, id, delays(0));
    var a1 := a.(clientId := id);
    StartCommandStarts(a1, delays(1));
    var a2 := StartSending(a1, delays(1));
    assert docs[1..] == [ObjectDoc(CommandMessage("START"))];
    assert docs[1..][1..] == [];
    assert HandleDocs(a2, [], delays, 2) == a2;
    assert HandleDocs(a1, docs[1..], delays, 1) == a2;
    assert HandleDocs(a, docs, delays, 0) == HandleDocs(a1, docs[1..], delays, 1);
  }

  /** After the ConnectAck and a START arrive together, the agent knows its
      identifier and is sending, with the first tick after the delay drawn
      for the START. */
  lemma AckThenStart(c: JsonCodec, a: Agent, id: string, delays: nat -> Delay)
    requires RoundTrips(c)
    requires a.buffer == [] && !a.started
    requires |c.serialize(ConnectAck(id))| <= MaxFrameLen
    requires |c.serialize(CommandMessage("START"))| <= MaxFrameLen
    ensures var bytes := PackJson(c, ConnectAck(id)) + PackJson(c, CommandMessage("START"));
            && HeadersFit(a.buffer + bytes)
            && var r := DeviceClient.OnReadyRead(c, a, bytes, delays);
               r.clientId == id && r.started && r.sendTimerActive && r.sendIntervalMs == delays(1) && r.buffer == []
  {
    var ack := ConnectAck(id);
    var start := CommandMessage("START");
    var bytes := PackJson(c, ack) + PackJson(c, start);
    DrainTwoFrames(c, ack, start);
    assert a.buffer + bytes == bytes;
    HandleAckThenStart(a.(buffer := []), id, delays);
  }

  /** A started agent with nothing buffered writes its telemetry on a tick,
      and a STOP arriving afterwards ends the ticks. */
  lemma TickThenStop(c: JsonCodec, fmt: real -> string, a: Agent, next: Delay, draw: Draw, stopDelays: nat -> Delay)
    requires RoundTrips(c)
    requires |c.serialize(CommandMessage("STOP"))| <= MaxFrameLen
    requires ValidDraw(draw)
    requires a.started && a.sendTimerActive && a.socket == Connected && a.buffer == []
    ensures Enabled(a, SendTimeout(next, draw))
    ensures var t := Step(c, fmt, a, SendTimeout(next, draw));
            && 1 <= |t.frames|
            && t.frames[|t.frames| - 1] == PackJson(c, ProduceRandomMessage(draw))
            && Enabled(t.agent, BytesArrived(PackJson(c, CommandMessage("STOP")), stopDelays))
            && var a4 := Step(c, fmt, t.agent, BytesArrived(PackJson(c, CommandMessage("STOP")), stopDelays)).agent;
               !a4.started && !a4.sendTimerActive
               && forall n: Delay, d: Draw :: !Enabled(a4, SendTimeout(n, d))
  {
    var t := Step(c, fmt, a, SendTimeout(next, draw));
    assert t.agent == a.(sendTimerActive := true, sendIntervalMs := next);
    OnReadyReadOneObject(c, t.agent, CommandMessage("STOP"), stopDelays);
    StopCommandStops(t.agent, stopDelays(0));
  }

  /** End to end: the agent connects, receives its ConnectAck and START,
      then a send tick writes telemetry; a STOP ends the ticks. */
  lemma ConnectStartStop(c: JsonCodec, fmt: real -> string, id: string, delays: nat -> Delay,
                         next: Delay, draw: Draw, stopDelays: nat -> Delay)
    requires RoundTrips(c)
    requires |c.serialize(ConnectAck(id))| <= MaxFrameLen
    requires |c.serialize(CommandMessage("START"))| <= MaxFrameLen
    requires |c.serialize(CommandMessage("STOP"))| <= MaxFrameLen
    requires ValidDraw(draw)
    ensures var a1 := Step(c, fmt, Create(), ConnectSucceeded).agent;
            var bytes := PackJson(c, ConnectAck(id)) + PackJson(c, CommandMessage("START"));
            && Enabled(a1, BytesArrived(bytes, delays))
            && var a2 := Step(c, fmt, a1, BytesArrived(bytes, delays)).agent;
               && a2.clientId == id && a2.started
               && Enabled(a2, SendTimeout(next, draw))
               && var t := Step(c, fmt, a2, SendTimeout(next, draw));
                  && 1 <= |t.frames|
                  && t.frames[|t.frames| - 1] == PackJson(c, ProduceRandomMessage(draw))
                  && Enabled(t.agent, BytesArrived(PackJson(c, CommandMessage("STOP")), stopDelays))
                  && var a4 := Step(c, fmt, t.agent, BytesArrived(PackJson(c, CommandMessage("STOP")), stopDelays)).agent;
                     !a4.started && !a4.sendTimerActive
                     && forall n: Delay, d: Draw :: !Enabled(a4, SendTimeout(n, d))
  {
    var a1 := Step(c, fmt, Create(), ConnectSucceeded).agent;
    assert a1.socket == Connected && a1.buffer == [] && !a1.started;
    var bytes := PackJson(c, ConnectAck(id)) + PackJson(c, CommandMessage("START"));
    AckThenStart(c, a1, id, delays);
    var a2 := Step(c, fmt, a1, BytesArrived(bytes, delays)).agent;
    assert a2 == DeviceClient.OnReadyRead(c, a1, bytes, delays);
    TickThenStop(c, fmt, a2, next, draw, stopDelays);
  }
}
