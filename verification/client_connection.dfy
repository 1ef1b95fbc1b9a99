/**
 The server's per-socket session (ClientConnection): it owns one accepted
 socket and a receive buffer, announces its identifier with a ConnectAck
 frame as soon as it exists, turns inbound frames into events, and writes
 outbound objects as frames.
 */
module ClientConnection {
  import opened Bytes
  import opened Json
  import opened Framing
  import opened Messages

  /** A TCP port number (quint16). */
  type Port = p: int | 0 <= p < 0x1_0000

  /** The session: its identifier, whether it still holds a socket, and the
      bytes received but not yet decoded. */
  datatype Conn = Conn(id: string, hasSocket: bool, buffer: seq<Byte>)

  /** The log lines a session emits. */
  datatype ConnLog =
    | Created(clientId: string, address: string, port: Port)
    | InvalidJson(clientId: string)
    | ClientGone(clientId: string)

  /** The signals a session emits, in emission order. */
  datatype Event =
    | JsonReceived(clientId: string, obj: JsonObject)
    | Disconnected(clientId: string)
    | LogMessage(entry: ConnLog)

  /** A session after a handler ran, the bytes it wrote to its socket, and
      the signals it emitted. */
  datatype Output = Output(conn: Conn, written: seq<Byte>, events: seq<Event>)

  /** Every signal emitted by the session `id` names `id`. */
  predicate EmittedBy(e: Event, id: string)
  {
    match e
    case JsonReceived(cid, _) => cid == id
    case Disconnected(cid) => cid == id
    case LogMessage(entry) => entry.clientId == id
  }

  /** `sendJson`: with a socket, the frame of `obj` is written; without
      one nothing is. */
  function SendJson(c: JsonCodec, conn: Conn, obj: JsonObject): (written: seq<Byte>)
    ensures conn.hasSocket ==> written == PackJson(c, obj)
    ensures !conn.hasSocket ==> written == []
  {
    if !conn.hasSocket then [] else PackJson(c, obj)
  }

  /** The constructor, for an accepted socket and the fresh identifier `id`:
      logs the new session, then writes the ConnectAck frame. */
  function Create(c: JsonCodec, id: string, address: string, port: Port): (r: Output)
    ensures r.conn == Conn(id, true, [])
    ensures r.written == PackJson(c, ConnectAck(id))
    ensures r.events == [LogMessage(Created(id, address, port))]
  {
    var conn := Conn(id, true, []);
    Output(conn, SendJson(c, conn, ConnectAck(id)), [LogMessage(Created(id, address, port))])
  }

  /** The signal for one extracted document. */
  function DocEvent(id: string, d: Doc): Event
  {
    if d.ObjectDoc? then JsonReceived(id, d.obj) else LogMessage(InvalidJson(id))
  }

  /** The signals for a run of extracted documents, in order. */
  function DocEvents(id: string, docs: seq<Doc>): (evs: seq<Event>)
    ensures |evs| == |docs|
    ensures forall i :: 0 <= i < |docs| ==> evs[i] == DocEvent(id, docs[i])
  {
    if docs == [] then [] else [DocEvent(id, docs[0])] + DocEvents(id, docs[1..])
  }

  /** `onReadyRead`: everything the socket delivered is appended, then frames
      are drained; an object becomes `jsonReceived`, any other document a
      log line. */
  function OnReadyRead(c: JsonCodec, conn: Conn, incoming: seq<Byte>): (r: Output)
    requires HeadersFit(conn.buffer + incoming)
    ensures r.conn.id == conn.id && r.conn.hasSocket == conn.hasSocket
    ensures r.written == []
    ensures forall i :: 0 <= i < |r.events| ==> EmittedBy(r.events[i], conn.id)
    ensures forall i :: 0 <= i < |r.events| ==> r.events[i].JsonReceived? || r.events[i] == LogMessage(InvalidJson(conn.id))
    ensures HeadersFit(r.conn.buffer)
    ensures |r.conn.buffer| <= |conn.buffer + incoming|
    ensures r.conn.buffer == (conn.buffer + incoming)[|conn.buffer + incoming| - |r.conn.buffer|..]
  {
    var d := Drain(c, conn.buffer + incoming);
    DrainKeepsHeadersFit(c, conn.buffer + incoming);
    DrainLeavesSuffix(c, conn.buffer + incoming);
    Output(conn.(buffer := d.buffer), [], DocEvents(conn.id, d.docs))
  }

  /** `onDisconnected`: a log line, then `disconnected(id)`, in that order. */
  function OnDisconnected(conn: Conn): (r: Output)
    ensures r.written == []
    ensures r.events == [LogMessage(ClientGone(conn.id)), Disconnected(conn.id)]
    ensures r.conn.id == conn.id
  {
    Output(conn, [], [LogMessage(ClientGone(conn.id)), Disconnected(conn.id)])
  }

  /** `jsonReceived` for each object of `os`, in order. */
  function ReceivedAll(id: string, os: seq<JsonObject>): seq<Event>
  {
    if os == [] then [] else [JsonReceived(id, os[0])] + ReceivedAll(id, os[1..])
  }

  lemma {:induction false} DocEventsOfObjects(id: string, os: seq<JsonObject>)
    ensures DocEvents(id, ObjectDocs(os)) == ReceivedAll(id, os)
    decreases |os|
  {
    if os != [] {
      DocEventsOfObjects(id, os[1..]);
      assert ObjectDocs(os)[1..] == ObjectDocs(os[1..]);
    }
  }

  /** The first bytes a new session writes decode, at the peer, to the
      ConnectAck object carrying the session's identifier. */
  lemma CreateSendsAck(c: JsonCodec, id: string, address: string, port: Port)
    requires RoundTrips(c)
    requires |c.serialize(ConnectAck(id))| <= MaxFrameLen
    ensures var r := TryExtractOne(c, Create(c, id, address, port).written, NullDoc);
            && r.ok && r.buffer == [] && r.doc.ObjectDoc?
            && StringField(r.doc.obj, "type") == "ConnectAck"
            && StringField(r.doc.obj, "client_id") == id
  {
    ExtractPacked(c, ConnectAck(id), [], NullDoc);
    assert PackJson(c, ConnectAck(id)) + [] == PackJson(c, ConnectAck(id));
  }

  /** Whole frames, split in any way between what was buffered before this
      read and the bytes it brings: the objects come out as
      `jsonReceived(id, ...)` in wire order, and the trailing partial frame is
      kept for the next read. */
  lemma OnReadyReadPacked(c: JsonCodec, conn: Conn, incoming: seq<Byte>, os: seq<JsonObject>, partial: seq<Byte>)
    requires RoundTrips(c)
    requires AllFit(c, os)
    requires HeadersFit(partial) && !FrameReady(partial)
    requires conn.buffer + incoming == PackAll(c, os) + partial
    ensures HeadersFit(conn.buffer + incoming)
    ensures OnReadyRead(c, conn, incoming).events == ReceivedAll(conn.id, os)
    ensures OnReadyRead(c, conn, incoming).conn.buffer == partial
  {
    DrainPackedThenPartial(c, os, partial);
    DocEventsOfObjects(conn.id, os);
  }

  /** A malformed frame ends the read: the objects before it are emitted, its
      own bytes are dropped, and every byte after it stays buffered
      unemitted, even whole frames. */
  lemma OnReadyReadStopsAtMalformed(c: JsonCodec, conn: Conn, incoming: seq<Byte>,
                                    os: seq<JsonObject>, bad: seq<Byte>, rest: seq<Byte>)
    requires RoundTrips(c)
    requires AllFit(c, os)
    requires |bad| <= MaxFrameLen && c.parse(bad).None?
    requires HeadersFit(rest)
    requires conn.buffer + incoming == PackAll(c, os) + (Frame(bad) + rest)
    ensures HeadersFit(conn.buffer + incoming)
    ensures OnReadyRead(c, conn, incoming).events == ReceivedAll(conn.id, os)
    ensures OnReadyRead(c, conn, incoming).conn.buffer == rest
  {
    DrainPackedThenMalformed(c, os, bad, rest);
    DocEventsOfObjects(conn.id, os);
  }

  /** A document that parses but is not an object yields a log line, and
      draining goes on to the next frame. */
  lemma OnReadyReadNonObjectContinues(c: JsonCodec, conn: Conn, incoming: seq<Byte>, p: seq<Byte>, o: JsonObject)
    requires RoundTrips(c)
    requires |p| <= MaxFrameLen && c.parse(p).Some? && !c.parse(p).value.ObjectDoc?
    requires |c.serialize(o)| <= MaxFrameLen
    requires conn.buffer + incoming == Frame(p) + PackJson(c, o)
    ensures HeadersFit(conn.buffer + incoming)
    ensures OnReadyRead(c, conn, incoming).events == [LogMessage(InvalidJson(conn.id)), JsonReceived(conn.id, o)]
    ensures OnReadyRead(c, conn, incoming).conn.buffer == []
  {
    DrainParsedThenPacked(c, p, o);
    var d := Drain(c, conn.buffer + incoming);
    assert d.docs == [c.parse(p).value, ObjectDoc(o)];
    var evs := DocEvents(conn.id, d.docs);
    assert evs[0] == LogMessage(InvalidJson(conn.id));
    assert evs[1] == JsonReceived(conn.id, o);
  }
}
