/**
 The server's listener and connection registry (ServerManager): a table from
 connection identifier to connection, filled on accept, emptied entry by
 entry on disconnect and all at once on stop, and used for unicast and
 broadcast.  A cross-thread `invokeMethod(..., QueuedConnection)` is recorded
 as a queued dispatch, in the order it was queued.
 */
module ServerManager {
  import opened Json
  import opened ClientConnection

  /** A registry entry: a connection pointer, possibly null. */
  datatype ConnRef = NullRef | Ref(conn: nat)

  datatype Server = Server(port: Port, listening: bool, clients: map<string, ConnRef>)

  /** A call queued onto a connection's thread. */
  datatype Dispatch =
    | QueuedSend(clientId: string, conn: nat, obj: JsonObject)
    | QueuedDelete(clientId: string, conn: nat)

  datatype ServerLog =
    | ListeningOn(port: Port)
    | ListenFailed(port: Port, error: string)
    | ServerStopped
    | Relayed(entry: ConnLog)

  /** The signals the server emits towards the presentation layer. */
  datatype Signal =
    | ClientConnected(clientId: string, ip: string, port: Port)
    | ClientDisconnected(clientId: string)
    | DataReceived(clientId: string, obj: JsonObject)
    | ServerLogMessage(entry: ServerLog)

  /** A server after a handler ran, the calls it queued and the signals it
      emitted, each in order. */
  datatype Step = Step(server: Server, dispatches: seq<Dispatch>, signals: seq<Signal>)

  /** A socket waiting in the listener's queue, with the identifier its
      session will generate and the peer it comes from. */
  datatype Pending = Pending(clientId: string, conn: nat, address: string, port: Port)

  /** The identifiers whose entry points at a connection. */
  function LiveIds(m: map<string, ConnRef>): set<string>
  {
    set id | id in m && m[id].Ref?
  }

  /** No registry entry is a null pointer. */
  predicate NoNullEntries(s: Server)
  {
    forall id :: id in s.clients ==> s.clients[id].Ref?
  }

  /** The constructor: not listening, no clients. */
  function NewServer(port: Port): (s: Server)
    ensures !s.listening && s.clients == map[] && s.port == port
    ensures NoNullEntries(s)
  {
    Server(port, false, map[])
  }

  /** `startListening`: a no-op while listening; otherwise the bind outcome
      `bindOk` (with its error text) decides between listening and an error
      log.  Clients are never touched. */
  function StartListening(s: Server, bindOk: bool, error: string): (r: Step)
    ensures s.listening ==> r == Step(s, [], [])
    ensures !s.listening ==> r.server == s.(listening := bindOk) && r.dispatches == []
    ensures !s.listening && bindOk ==> r.signals == [ServerLogMessage(ListeningOn(s.port))]
    ensures !s.listening && !bindOk ==> r.signals == [ServerLogMessage(ListenFailed(s.port, error))]
  {
    if s.listening then Step(s, [], [])
    else if bindOk then Step(s.(listening := true), [], [ServerLogMessage(ListeningOn(s.port))])
    else Step(s, [], [ServerLogMessage(ListenFailed(s.port, error))])
  }

  /** Starting is idempotent: once listening, a further start, whatever its
      bind would answer, changes nothing and logs nothing; and starting
      never touches the registry. */
  lemma StartListeningIdempotent(s: Server, bindOk: bool, error: string, bindOk2: bool, error2: string)
    ensures StartListening(s, bindOk, error).server.clients == s.clients
    ensures var s1 := StartListening(s, bindOk, error).server;
            s1.listening ==> StartListening(s1, bindOk2, error2) == Step(s1, [], [])
    ensures StartListening(s, bindOk, error).server.listening <==> s.listening || bindOk
  {
  }

  /** Iterating over the registry: every identifier of `ids` exactly once.
      (QMap visits keys in ascending order; the model leaves the order open.) */
  method Enumerate(ids: set<string>) returns (order: seq<string>)
    ensures |order| == |ids|
    ensures forall i :: 0 <= i < |order| ==> order[i] in ids
    ensures forall id :: id in ids ==> id in order
    ensures forall i, j :: 0 <= i < j < |order| ==> order[i] != order[j]
  {
    order := [];
    var remaining := ids;
    while remaining != {}
      invariant remaining <= ids
      invariant |order| + |remaining| == |ids|
      invariant forall i :: 0 <= i < |order| ==> order[i] in ids && order[i] !in remaining
      invariant forall id :: id in ids ==> id in remaining || id in order
      invariant forall i, j :: 0 <= i < j < |order| ==> order[i] != order[j]
      decreases |remaining|
    {
      var id :| id in remaining;
      order := order + [id];
      remaining := remaining - {id};
    }
  }

  /** `stopListening`: closes the listener if it is open, queues a deferred
      delete for every non-null connection, empties the registry and logs
      "Server stopped" (again, when already stopped). */
  method StopListening(s: Server) returns (r: Step)
    ensures !r.server.listening && r.server.clients == map[] && r.server.port == s.port
    ensures r.signals == [ServerLogMessage(ServerStopped)]
    ensures |r.dispatches| == |LiveIds(s.clients)|
    ensures forall i :: 0 <= i < |r.dispatches| ==>
              && r.dispatches[i].QueuedDelete?
              && r.dispatches[i].clientId in s.clients
              && s.clients[r.dispatches[i].clientId] == Ref(r.dispatches[i].conn)
    ensures forall id :: id in LiveIds(s.clients) ==> exists i :: 0 <= i < |r.dispatches| && r.dispatches[i].clientId == id
    ensures forall i, j :: 0 <= i < j < |r.dispatches| ==> r.dispatches[i].clientId != r.dispatches[j].clientId
    ensures !s.listening && s.clients == map[] ==> r == Step(s, [], [ServerLogMessage(ServerStopped)])
  {
    var order := Enumerate(LiveIds(s.clients));
    var deletes := seq(|order|, i requires 0 <= i < |order| => QueuedDelete(order[i], s.clients[order[i]].conn));
    forall id | id in LiveIds(s.clients)
      ensures exists i :: 0 <= i < |deletes| && deletes[i].clientId == id
    {
      var i :| 0 <= i < |order| && order[i] == id;
      assert deletes[i].clientId == id;
    }
    r := Step(Server(s.port, false, map[]), deletes, [ServerLogMessage(ServerStopped)]);
  }

  /** The registry after inserting `p` (QMap::insert: replaces an entry with
      the same key). */
  function Insert(m: map<string, ConnRef>, p: Pending): map<string, ConnRef>
  {
    m[p.clientId := Ref(p.conn)]
  }

  /** The registry after inserting each of `ps` in order. */
  function InsertAll(m: map<string, ConnRef>, ps: seq<Pending>): map<string, ConnRef>
    decreases |ps|
  {
    if ps == [] then m else InsertAll(Insert(m, ps[0]), ps[1..])
  }

  /** The identifiers of `ps`. */
  function PendingIds(ps: seq<Pending>): set<string>
  {
    set i | 0 <= i < |ps| :: ps[i].clientId
  }

  /** The outcome of draining the listener's pending queue. */
  datatype Accepting = Accepting(server: Server, sessions: seq<Output>, signals: seq<Signal>)

  /** `onNewConnection`: for each pending socket in accept order, construct
      its session (which writes its ConnectAck), register it under its
      identifier, and emit `clientConnected`.  The sessions' construction-time
      log lines are emitted before the server connects to them, so they do
      not reach the server. */
  function OnNewConnection(c: JsonCodec, s: Server, pending: seq<Pending>): (r: Accepting)
    ensures r.server.port == s.port && r.server.listening == s.listening
    ensures |r.sessions| == |pending| && |r.signals| == |pending|
    ensures forall i :: 0 <= i < |pending| ==>
              && r.signals[i] == ClientConnected(pending[i].clientId, pending[i].address, pending[i].port)
              && r.sessions[i] == Create(c, pending[i].clientId, pending[i].address, pending[i].port)
    ensures r.server.clients == InsertAll(s.clients, pending)
  {
    Accepting(s.(clients := InsertAll(s.clients, pending)),
              seq(|pending|, i requires 0 <= i < |pending| => Create(c, pending[i].clientId, pending[i].address, pending[i].port)),
              seq(|pending|, i requires 0 <= i < |pending| => ClientConnected(pending[i].clientId, pending[i].address, pending[i].port)))
  }

  /** Inserting registers every pending identifier, adds no other key, and
      leaves every other entry as it was. */
  lemma {:induction false} InsertAllFrame(m: map<string, ConnRef>, ps: seq<Pending>)
    ensures InsertAll(m, ps).Keys == m.Keys + PendingIds(ps)
    ensures forall id :: id in m && id !in PendingIds(ps) ==> InsertAll(m, ps)[id] == m[id]
    ensures (forall id :: id in m ==> m[id].Ref?) ==> forall id :: id in InsertAll(m, ps) ==> InsertAll(m, ps)[id].Ref?
    decreases |ps|
  {
    if ps != [] {
      InsertAllFrame(Insert(m, ps[0]), ps[1..]);
      assert PendingIds(ps) == {ps[0].clientId} + PendingIds(ps[1..]) by {
        forall id | id in PendingIds(ps) ensures id in {ps[0].clientId} + PendingIds(ps[1..]) {
          var i :| 0 <= i < |ps| && ps[i].clientId == id;
          if i > 0 { assert ps[1..][i - 1] == ps[i]; }
        }
        forall id | id in PendingIds(ps[1..]) ensures id in PendingIds(ps) {
          var i :| 0 <= i < |ps[1..]| && ps[1..][i].clientId == id;
          assert ps[i + 1] == ps[1..][i];
        }
      }
    }
  }

  /** With distinct identifiers, each pending connection ends up registered
      under its own identifier. */
  lemma {:induction false} InsertAllDistinct(m: map<string, ConnRef>, ps: seq<Pending>)
    requires forall i, j :: 0 <= i < j < |ps| ==> ps[i].clientId != ps[j].clientId
    ensures forall i :: 0 <= i < |ps| ==> ps[i].clientId in InsertAll(m, ps) && InsertAll(m, ps)[ps[i].clientId] == Ref(ps[i].conn)
    decreases |ps|
  {
    if ps != [] {
      var m1 := Insert(m, ps[0]);
      InsertAllDistinct(m1, ps[1..]);
      InsertAllFrame(m1, ps[1..]);
      forall i | 0 <= i < |ps| ensures ps[i].clientId in InsertAll(m, ps) && InsertAll(m, ps)[ps[i].clientId] == Ref(ps[i].conn) {
        if i == 0 {
          assert ps[0].clientId !in PendingIds(ps[1..]);
        } else {
          assert ps[1..][i - 1] == ps[i];
        }
      }
    }
  }

  /** Accepting connections with distinct identifiers that are not yet
      registered adds exactly one entry per connection, each pointing at its
      connection; every other entry is kept. */
  lemma AcceptFresh(c: JsonCodec, s: Server, pending: seq<Pending>)
    requires forall i :: 0 <= i < |pending| ==> pending[i].clientId !in s.clients
    requires forall i, j :: 0 <= i < j < |pending| ==> pending[i].clientId != pending[j].clientId
    ensures OnNewConnection(c, s, pending).server.clients.Keys == s.clients.Keys + PendingIds(pending)
    ensures |OnNewConnection(c, s, pending).server.clients| == |s.clients| + |pending|
    ensures forall i :: 0 <= i < |pending| ==> OnNewConnection(c, s, pending).server.clients[pending[i].clientId] == Ref(pending[i].conn)
    ensures forall id :: id in s.clients ==> OnNewConnection(c, s, pending).server.clients[id] == s.clients[id]
    ensures NoNullEntries(s) ==> NoNullEntries(OnNewConnection(c, s, pending).server)
  {
    InsertAllFrame(s.clients, pending);
    InsertAllDistinct(s.clients, pending);
    DistinctCard(pending);
    assert s.clients.Keys !! PendingIds(pending);
    assert |s.clients.Keys + PendingIds(pending)| == |s.clients.Keys| + |PendingIds(pending)|;
  }

  /** Pending connections with distinct identifiers have as many identifiers
      as connections. */
  lemma {:induction false} DistinctCard(ps: seq<Pending>)
    requires forall i, j :: 0 <= i < j < |ps| ==> ps[i].clientId != ps[j].clientId
    ensures |PendingIds(ps)| == |ps|
    decreases |ps|
  {
    if ps != [] {
      var tail := ps[1..];
      DistinctCard(tail);
      assert PendingIds(ps) == {ps[0].clientId} + PendingIds(tail) by {
        forall x | x in PendingIds(ps) ensures x in {ps[0].clientId} + PendingIds(tail) {
          var i :| 0 <= i < |ps| && ps[i].clientId == x;
          if i > 0 { assert tail[i - 1] == ps[i]; }
        }
        forall x | x in PendingIds(tail) ensures x in PendingIds(ps) {
          var i :| 0 <= i < |tail| && tail[i].clientId == x;
          assert ps[i + 1] == tail[i];
        }
      }
      forall i | 0 <= i < |tail| ensures tail[i].clientId != ps[0].clientId {
        assert tail[i] == ps[i + 1];
      }
    }
  }

  /** `onClientDisconnected`: removes exactly `id` and emits
      `clientDisconnected(id)`. */
  function OnClientDisconnected(s: Server, id: string): (r: Step)
    ensures id !in r.server.clients
    ensures forall k :: k != id ==> (k in r.server.clients <==> k in s.clients)
    ensures forall k :: k != id && k in s.clients ==> r.server.clients[k] == s.clients[k]
    ensures r.server.listening == s.listening && r.server.port == s.port
    ensures r.dispatches == [] && r.signals == [ClientDisconnected(id)]
  {
    Step(s.(clients := s.clients - {id}), [], [ClientDisconnected(id)])
  }

  /** The slot a connection signal is connected to: `jsonReceived` is passed
      up as `dataReceived`, `disconnected` deregisters, and log lines are
      passed up as server log lines. */
  function OnConnectionEvent(s: Server, e: Event): (r: Step)
    ensures e.JsonReceived? ==> r == Step(s, [], [DataReceived(e.clientId, e.obj)])
    ensures e.LogMessage? ==> r == Step(s, [], [ServerLogMessage(Relayed(e.entry))])
    ensures e.Disconnected? ==> r == OnClientDisconnected(s, e.clientId)
  {
    match e
    case JsonReceived(id, obj) => Step(s, [], [DataReceived(id, obj)])
    case Disconnected(id) => OnClientDisconnected(s, id)
    case LogMessage(entry) => Step(s, [], [ServerLogMessage(Relayed(entry))])
  }

  /** Delivers a session's signals to the server one after another. */
  function OnConnectionEvents(s: Server, events: seq<Event>): (r: Step)
    decreases |events|
  {
    if events == [] then Step(s, [], [])
    else
      var first := OnConnectionEvent(s, events[0]);
      var more := OnConnectionEvents(first.server, events[1..]);
      Step(more.server, first.dispatches + more.dispatches, first.signals + more.signals)
  }

  /** `sendToClient`: one queued `sendJson(obj)` to the registered connection,
      or nothing when the identifier is unknown or maps to null. */
  function SendToClient(s: Server, id: string, obj: JsonObject): (r: seq<Dispatch>)
    ensures id !in LiveIds(s.clients) ==> r == []
    ensures id in LiveIds(s.clients) ==> r == [QueuedSend(id, s.clients[id].conn, obj)]
  {
    if id in s.clients && s.clients[id].Ref? then [QueuedSend(id, s.clients[id].conn, obj)] else []
  }

  /** `broadcast`: exactly one queued `sendJson(obj)` per non-null registered
      connection, none omitted and none repeated.  The registry is only read. */
  method Broadcast(s: Server, obj: JsonObject) returns (sends: seq<Dispatch>)
    ensures |sends| == |LiveIds(s.clients)|
    ensures forall i :: 0 <= i < |sends| ==>
              && sends[i] == QueuedSend(sends[i].clientId, sends[i].conn, obj)
              && sends[i].clientId in s.clients
              && s.clients[sends[i].clientId] == Ref(sends[i].conn)
    ensures forall id :: id in LiveIds(s.clients) ==> exists i :: 0 <= i < |sends| && sends[i].clientId == id
    ensures forall i, j :: 0 <= i < j < |sends| ==> sends[i].clientId != sends[j].clientId
  {
    var order := Enumerate(LiveIds(s.clients));
    sends := seq(|order|, i requires 0 <= i < |order| => QueuedSend(order[i], s.clients[order[i]].conn, obj));
    forall id | id in LiveIds(s.clients)
      ensures exists i :: 0 <= i < |sends| && sends[i].clientId == id
    {
      var i :| 0 <= i < |order| && order[i] == id;
      assert sends[i].clientId == id;
    }
  }

  /** Registry property: after accepting connections with distinct fresh
      identifiers, a unicast to any of them queues exactly one send to that
      connection. */
  lemma UnicastAfterAccept(c: JsonCodec, s: Server, pending: seq<Pending>, i: nat, obj: JsonObject)
    requires forall k :: 0 <= k < |pending| ==> pending[k].clientId !in s.clients
    requires forall k, j :: 0 <= k < j < |pending| ==> pending[k].clientId != pending[j].clientId
    requires i < |pending|
    ensures SendToClient(OnNewConnection(c, s, pending).server, pending[i].clientId, obj)
              == [QueuedSend(pending[i].clientId, pending[i].conn, obj)]
  {
    InsertAllDistinct(s.clients, pending);
  }

  /** Registry property: once a connection has been removed, a unicast to it
      queues nothing. */
  lemma UnicastAfterRemove(s: Server, id: string, obj: JsonObject)
    ensures SendToClient(OnClientDisconnected(s, id).server, id, obj) == []
  {
  }

  /** Registry property: accepting a connection with a fresh identifier and
      then seeing it disconnect leaves the registry as it was, and a unicast
      to it queues nothing. */
  lemma AcceptThenDisconnect(c: JsonCodec, s: Server, p: Pending, obj: JsonObject)
    requires p.clientId !in s.clients
    ensures var a := OnNewConnection(c, s, [p]);
            var d := OnConnectionEvents(a.server, OnDisconnected(a.sessions[0].conn).events);
            && d.server == s
            && d.signals == [ServerLogMessage(Relayed(ClientGone(p.clientId))), ClientDisconnected(p.clientId)]
            && SendToClient(d.server, p.clientId, obj) == []
  {
    var a := OnNewConnection(c, s, [p]);
    assert a.sessions[0].conn.id == p.clientId;
    assert [p][1..] == [];
    assert InsertAll(s.clients, [p]) == InsertAll(Insert(s.clients, p), []);
    assert a.server.clients == s.clients[p.clientId := Ref(p.conn)];
    assert a.server.clients - {p.clientId} == s.clients;
    var evs := OnDisconnected(a.sessions[0].conn).events;
    assert evs == [LogMessage(ClientGone(p.clientId)), Disconnected(p.clientId)];
    var gone := OnClientDisconnected(a.server, p.clientId);
    assert gone.server == s;
    assert OnConnectionEvents(a.server, evs[1..]) == Step(s, [], [ClientDisconnected(p.clientId)]) by {
      assert evs[1..][1..] == [];
    }
  }

  /** Every handler keeps the registry free of null entries. */
  lemma {:induction false} EventsKeepNoNull(s: Server, events: seq<Event>)
    requires NoNullEntries(s)
    ensures NoNullEntries(OnConnectionEvents(s, events).server)
    decreases |events|
  {
    if events != [] {
      EventsKeepNoNull(OnConnectionEvent(s, events[0]).server, events[1..]);
    }
  }

}
