# Telemetry link: framing, sessions, registry and device agent

This project models the connection and messaging layer of a small telemetry
system. A server accepts TCP connections from device agents. Each agent sends
synthetic telemetry (network metrics, device status, log lines). The server
answers with a handshake, commands and configuration. Every message is a JSON
object that travels as a frame: a 4-byte big-endian length, then that many
bytes of compact JSON.

The model has four parts, plus the shared pieces they rest on:

- `Framing` (with `Bytes`, `Json`, `Messages`): `packJson` and
  `tryExtractOne`, and the drain loop both ends run over their receive
  buffer. The JSON text layer is the parameter `JsonCodec`. Its one law,
  `RoundTrips`, says that parsing a serialised object gives the object back.
- `ClientConnection`: one server-side session. It writes the ConnectAck at
  construction, turns frames into `jsonReceived` signals and log lines, writes
  frames for `sendJson`, and signals its own disconnect.
- `ServerManager`: the registry from connection identifier to connection,
  with start/stop of the listener, accept, disconnect, unicast and broadcast.
  A queued cross-thread call is recorded as a `Dispatch`, in queue order.
- `DeviceClient`: the device agent as a state record (socket state, started
  flag, both timers, identifier, thresholds, receive buffer) with one pure
  transition per handler.
- `AgentLifecycle`: the agent's events as inputs, the states in which each
  event can occur, an invariant every reachable state of the corrected agent
  keeps (the code as written breaks it; see Findings), and end-to-end
  scenarios.

Random draws come in as arguments with their ranges: `Delay`, and `Draw`
checked by `ValidDraw`. Fresh connection identifiers come in as arguments.
Socket outcomes (bind result, connect success or failure, bytes read) are
inputs to the transitions.

## Model

| member | source | states |
|---|---|---|
| `Bytes.Be32` | server/MessageFraming.h:14-17 | The header written by `packJson` is four bytes, most significant first. Its contents are pinned down by the inverse `ReadBe32`, in `Be32RoundTrip` and `ReadBe32Inverse`. |
| `Bytes.ReadBe32` | server/MessageFraming.h:27-30 | The big-endian read of a header is a quint32, below 2^32. It is the inverse of `Be32` (`Be32RoundTrip`, `ReadBe32Inverse`). |
| `Bytes.Be32RoundTrip` | server/MessageFraming.h:27-30 | Reading back a header written for any length below 2^32 gives that length. |
| `Bytes.ReadBe32Inverse` | server/MessageFraming.h:12-17 | Every 4-byte header is exactly the encoding of the number it reads as. |
| `Framing.PackJson` | server/MessageFraming.h:7-20 | A frame is 4 header bytes plus exactly the payload. The header reads back as the payload length whenever that length is below 2^32. |
| `Framing.TryExtractOne` | server/MessageFraming.h:24-43 | No whole frame at the front: answers false and leaves buffer and `docOut` unchanged. Whole frame: removes exactly that frame. Answers true, with the parsed document, iff the payload parses; otherwise `docOut` is untouched. Requires that `4 + len` fits in an `int`. |
| `Framing.ExtractPacked` | server/MessageFraming.h:7-43 | Round trip: extracting from `packJson(o) + rest` answers true with object `o` and leaves `rest`. |
| `Framing.ExtractPrefixNotReady` | server/MessageFraming.h:25-31 | Every proper prefix of a frame (fewer than 4 bytes, or a header with a short payload) answers false and consumes nothing. |
| `Framing.ExtractMalformed` | server/MessageFraming.h:35-38 | A whole frame whose payload does not parse answers false but is consumed. What follows it is left and `docOut` is untouched. |
| `Framing.ExtractKeepsHeadersFit` | server/MessageFraming.h:31 | Removing a frame keeps every reachable header within the `int` bound. |
| `Framing.ExtractLeavesSuffix` | server/MessageFraming.h:24-43 | One extraction only ever removes bytes from the front of the buffer. |
| `Framing.Drain` | server/ClientConnection.cpp:51 | The `while (tryExtractOne(...))` loop, also at client/DeviceClient.cpp:55. It carries no contract of its own; its facts are `DrainKeepsHeadersFit`, `DrainLeavesSuffix` and `DrainPackedAll`. |
| `Framing.DrainKeepsHeadersFit` | server/ClientConnection.cpp:51 | After the extraction loop, every header left in the buffer is still within the `int` bound. |
| `Framing.DrainLeavesSuffix` | server/ClientConnection.cpp:51 | The extraction loop leaves a suffix of its input: bytes are removed from the front only. |
| `Framing.DrainPacked` | server/MessageFraming.h:24-43 | A packed object in front of a buffer adds exactly that object in front of what the buffer alone yields. |
| `Framing.DrainPackedAll` | server/ClientConnection.cpp:49-58 | The frames of any object list, followed by any buffer, drain to those objects in wire order, then whatever the buffer yields. |
| `Framing.DrainOnePacked` | server/MessageFraming.h:24-43 | A single packed frame drains to its object and leaves nothing. |
| `Framing.DrainTwoFrames` | server/MessageFraming.h:24-43 | Repeated extraction on `packJson(o1) + packJson(o2)` yields `o1` then `o2` and leaves an empty buffer. |
| `Framing.DrainNotReady` | server/MessageFraming.h:25-31 | A buffer without a whole frame at its front yields nothing and is kept whole. |
| `Framing.DrainStopsAtMalformed` | server/MessageFraming.h:35-38 | A malformed frame ends the loop. Its bytes are gone and every later frame stays buffered. |
| `Framing.DrainPackedThenPartial` | server/ClientConnection.cpp:49-58 | Whole frames followed by a partial one drain to their objects in order, and the partial frame stays buffered. |
| `Framing.DrainPackedThenMalformed` | server/MessageFraming.h:35-38 | Whole frames followed by a malformed one drain to the objects before it, and everything after it stays buffered. |
| `Framing.DrainParsed` | server/MessageFraming.h:32-42 | A frame that parses to any document (object or not) yields that document and draining continues with the rest. |
| `Framing.DrainParsedThenPacked` | server/ClientConnection.cpp:52-57 | A non-object document followed by an object frame yields both, in order, and leaves nothing. |
| `Json.IntField` | client/DeviceClient.cpp:90 | `toInt(dflt)` gives the field's value when it is a number with a whole value in `int` range, and `dflt` otherwise: an absent or non-number field gives `dflt`, and any other result is the field's whole value. |
| `Json.ToUpperAscii` | client/DeviceClient.cpp:79 | Same length; no lower-case ASCII letter is left; each character is the original or the upper-case form of a lower-case letter. |
| `Json.ToUpperIdempotent` | client/DeviceClient.cpp:79 | Upper-casing an upper-cased command changes nothing. |
| `Messages.ConnectAck` | server/ClientConnection.cpp:21-23 | The handshake object's `type` is "ConnectAck" and its `client_id` is the identifier. |
| `Messages.CommandMessage` | client/DeviceClient.cpp:78-79 | A command object's `type` is "Command" and its `command` is the given text. |
| `ClientConnection.SendJson` | server/ClientConnection.cpp:42-46 | Writes exactly `packJson(obj)` when a socket is held, nothing otherwise. |
| `ClientConnection.Create` | server/ClientConnection.cpp:7-25 | A new session has the given identifier and an empty buffer. It writes exactly the ConnectAck frame for that identifier and logs its creation. |
| `ClientConnection.DocEvents` | server/ClientConnection.cpp:52-57 | One signal per extracted document, in order: `jsonReceived` for an object, an invalid-JSON log line otherwise. |
| `ClientConnection.OnReadyRead` | server/ClientConnection.cpp:48-59 | Keeps the identifier and the socket, writes nothing, and every signal names the session's identifier. Signals are only `jsonReceived` or invalid-JSON log lines. The buffer left is a suffix of old buffer plus new bytes. |
| `ClientConnection.OnDisconnected` | server/ClientConnection.cpp:61-66 | Emits the disconnect log line, then `disconnected(id)`, in that order, and writes nothing. |
| `ClientConnection.DocEventsOfObjects` | server/ClientConnection.cpp:52-53 | Object documents turn into `jsonReceived(id, o)` for each object, in order. |
| `ClientConnection.CreateSendsAck` | server/ClientConnection.cpp:21-24 | The peer decodes a new session's first bytes to the ConnectAck carrying the session's identifier, with nothing left over. |
| `ClientConnection.OnReadyReadPacked` | server/ClientConnection.cpp:48-59 | Whole frames, spread over whatever was buffered before this read and the bytes it brings, are emitted as `jsonReceived` in wire order. A trailing partial frame stays buffered. |
| `ClientConnection.OnReadyReadStopsAtMalformed` | server/ClientConnection.cpp:51 | Objects before a malformed frame are emitted. The malformed frame is dropped. Every byte after it stays buffered unemitted, whole frames included. |
| `ClientConnection.OnReadyReadNonObjectContinues` | server/ClientConnection.cpp:52-57 | A valid non-object document yields an invalid-JSON log line, and the object frame after it is still emitted. |
| `ServerManager.NewServer` | server/ServerManager.cpp:8-14 | A new server is not listening, has no clients and has no null entries. |
| `ServerManager.StartListening` | server/ServerManager.cpp:20-29 | Already listening: no change and no log. Otherwise the bind outcome decides between listening, with a log naming the port, and an error log with the port and error text. Never touches the registry. |
| `ServerManager.StartListeningIdempotent` | server/ServerManager.cpp:21 | Once listening, any further start changes nothing. The server listens afterwards iff it already did or the bind succeeded. |
| `ServerManager.Enumerate` | server/ServerManager.cpp:37-42 | Iterating over the registry visits every identifier exactly once. |
| `ServerManager.StopListening` | server/ServerManager.cpp:31-44 | Afterwards: not listening, registry empty, and one deferred delete queued for each non-null connection, none omitted or repeated. "Server stopped" is logged. A second call is harmless and logs again. |
| `ServerManager.OnNewConnection` | server/ServerManager.cpp:46-61 | Each pending socket gets a session (which writes its ConnectAck) and is inserted under its identifier. `clientConnected` is emitted in accept order. Port and listening state are unchanged. |
| `ServerManager.InsertAllFrame` | server/ServerManager.cpp:57 | Inserting adds exactly the pending identifiers as keys and leaves every other entry as it was. |
| `ServerManager.InsertAllDistinct` | server/ServerManager.cpp:57 | With distinct identifiers, each pending connection is registered under its own identifier. |
| `ServerManager.AcceptFresh` | server/ServerManager.cpp:46-61 | Accepting fresh, distinct identifiers grows the registry by exactly one entry per connection, keeps the other entries, and adds no null entry. |
| `ServerManager.OnClientDisconnected` | server/ServerManager.cpp:67-73 | Removes exactly `id`, leaves every other entry alone, and emits `clientDisconnected(id)`. |
| `ServerManager.OnConnectionEvent` | server/ServerManager.cpp:63-77 | A session's `jsonReceived` becomes `dataReceived`, its log lines are relayed, and its `disconnected` deregisters it. |
| `ServerManager.SendToClient` | server/ServerManager.cpp:79-84 | Unknown or null identifier: nothing queued. Otherwise exactly one `sendJson(obj)` is queued to that connection. |
| `ServerManager.Broadcast` | server/ServerManager.cpp:86-93 | Exactly one queued `sendJson(obj)` per non-null registered connection, none omitted or repeated. The registry is only read. |
| `ServerManager.UnicastAfterAccept` | server/ServerManager.cpp:79-84 | After accepting fresh connections, a unicast to any of them queues exactly one send to that connection. |
| `ServerManager.UnicastAfterRemove` | server/ServerManager.cpp:67-84 | After a connection is removed, a unicast to it queues nothing. |
| `ServerManager.AcceptThenDisconnect` | server/ServerManager.cpp:46-73 | Accepting a fresh connection, then delivering its disconnect signals, gives back the original registry. The log line comes before `clientDisconnected`. |
| `ServerManager.EventsKeepNoNull` | server/ServerManager.cpp:57 | No sequence of session signals puts a null entry into the registry. |
| `DeviceClient.Create` | client/DeviceClient.cpp:15-34 | Initial state: not started, no timer running, retry interval 5000 ms, thresholds 100 ms and 0.05, empty buffer. The first `tryConnect` leaves the socket connecting. |
| `DeviceClient.TryConnect` | client/DeviceClient.cpp:40-45 | Does nothing while connected or connecting; otherwise starts connecting. |
| `DeviceClient.TryConnectIdempotent` | client/DeviceClient.cpp:41-42 | A second `tryConnect` changes nothing, and afterwards the socket is never unconnected. |
| `DeviceClient.OnConnected` | client/DeviceClient.cpp:47-50 | The socket is connected, the retry timer stops, and nothing else changes. |
| `DeviceClient.OnDisconnected` | client/DeviceClient.cpp:65-70 | Not started, send timer stopped, retry timer running. The identifier, thresholds and receive buffer are kept. |
| `DeviceClient.OnDisconnectedClearingBuffer` | client/DeviceClient.cpp:65-70 | The corrected disconnect handler: as `onDisconnected`, but the receive buffer is emptied. |
| `DeviceClient.ConnectAttemptFails` | client/DeviceClient.cpp:27-29 | A failed attempt only returns the socket to unconnected. No handler is wired to it, so no timer changes. |
| `DeviceClient.ConnectAttemptFailsRetrying` | client/DeviceClient.cpp:27-29 | The corrected handling: a failed attempt also starts the retry timer and changes nothing else. |
| `DeviceClient.StartSending` | client/DeviceClient.cpp:98-104 | A no-op while started. Otherwise sets started and arms the send timer with a delay in [10, 100), changing nothing else. |
| `DeviceClient.StopSending` | client/DeviceClient.cpp:106-109 | Always leaves the agent not started with the send timer stopped, changing nothing else. |
| `DeviceClient.StartStopIdempotent` | client/DeviceClient.cpp:98-109 | A second START keeps the first delay, a second STOP changes nothing, and START after STOP arms the new delay. |
| `DeviceClient.ApplyConfig` | client/DeviceClient.cpp:89-92 | Each threshold is replaced, by its converted value, only when its key is present. Everything else is kept. |
| `DeviceClient.ConfigThresholds` | client/DeviceClient.cpp:89-91 | A whole latency and a numeric packet loss replace the thresholds. A fractional latency or a non-numeric value keeps the old threshold. |
| `DeviceClient.HandleServerJson` | client/DeviceClient.cpp:72-96 | ConnectAck records the identifier. Command START/STOP, after upper-casing, starts or stops sending; other commands change nothing. Config applies thresholds. Any other type changes nothing. Socket, retry timer and buffer are never touched. |
| `DeviceClient.HandleDocs` | client/DeviceClient.cpp:54-62 | Handling a run of documents never touches the socket, the retry timer or the buffer. |
| `DeviceClient.OnReadyRead` | client/DeviceClient.cpp:52-63 | Socket and retry timer are kept. The buffer left is a suffix of old buffer plus new bytes and still satisfies the header bound. |
| `DeviceClient.RandomString` | client/DeviceClient.cpp:111-124 | A string of the requested length, every character from the 83-character set. |
| `DeviceClient.ProduceRandomMessage` | client/DeviceClient.cpp:126-161 | A kind draw below 33 gives NetworkMetrics with values in their ranges. Below 67 gives DeviceStatus with uptime in [0, 1000000) and cpu and memory in [0, 100). Otherwise an INFO Log whose text length lies in the drawn band and whose characters come from the set. |
| `DeviceClient.ThresholdWarning` | client/DeviceClient.cpp:178-181 | The warning is a Log object of severity WARNING whose message starts "Threshold exceeded: latency=" and ends with the rendered packet loss. |
| `DeviceClient.OnSendTick` | client/DeviceClient.cpp:163-190 | Not started or not connected: stops the timer, keeps `started`, writes nothing. Otherwise re-arms with the new delay and writes the message frame last. A WARNING Log frame goes first exactly when a metrics sample breaches a threshold. |
| `DeviceClient.OnReadyReadWholeFrames` | client/DeviceClient.cpp:52-63 | Whole frames, spread over whatever was buffered before this read and the bytes it brings, are handled in wire order and leave nothing buffered. |
| `DeviceClient.OnReadyReadOneObject` | client/DeviceClient.cpp:52-63 | One whole frame holding an object is handled exactly as `handleServerJson` of that object. |
| `DeviceClient.CommandCaseInsensitive` | client/DeviceClient.cpp:78-88 | "start" starts like START, "Stop" stops like STOP, and any other command changes nothing. |
| `DeviceClient.StartCommandStarts` | client/DeviceClient.cpp:80-83 | A START command is handled exactly as `startSending`. |
| `DeviceClient.StopCommandStops` | client/DeviceClient.cpp:84-87 | A STOP command is handled exactly as `stopSending`. |
| `DeviceClient.AckRecordsId` | client/DeviceClient.cpp:74-76 | A ConnectAck records its identifier and changes nothing else. |
| `DeviceClient.HighLatencyWarns` | client/DeviceClient.cpp:173-184 | Latency 150 against a critical latency of 100 writes the WARNING Log frame, then the metrics frame. |
| `DeviceClient.NominalMetricsDoNotWarn` | client/DeviceClient.cpp:173-188 | Latency 50 and packet loss 0.01 under the default thresholds write the metrics frame alone. |
| `AgentLifecycle.StepAsWritten` | client/DeviceClient.cpp:24-31 | Only a send tick writes frames; every other event writes nothing. |
| `AgentLifecycle.Step` | client/DeviceClient.cpp:24-31 | The corrected agent differs from the code only on a failed connect and on a disconnect. |
| `AgentLifecycle.CreateEstablishesInv` | client/DeviceClient.cpp:15-34 | The constructed agent satisfies the agent invariant. |
| `AgentLifecycle.HandleDocsKeepsSending` | client/DeviceClient.cpp:72-109 | For the code as written and the corrected agent alike, handling documents keeps two facts: the send timer runs only while started, and the agent is started only while connected. |
| `AgentLifecycle.StepKeepsInv` | client/DeviceClient.cpp:40-109 | Every event of the corrected agent keeps the invariant: a retry is pending while unconnected, bytes are buffered only while connected, the send timer runs only while started, and the agent is started only while connected. |
| `AgentLifecycle.AsWrittenKeepsSendFacts` | client/DeviceClient.cpp:40-109 | The code as written keeps the two send-timer facts on every event: the send timer runs only while started, and the agent is started only while connected. |
| `AgentLifecycle.SendTickAlwaysWrites` | client/DeviceClient.cpp:163-190 | In a reachable state of the corrected agent a send tick always re-arms and writes at least one frame. |
| `AgentLifecycle.FirstConnectFailureIsFinal` | client/DeviceClient.cpp:24-33 | As written, a failed first connect leaves an unconnected agent with no timer, so no event can reach it again. |
| `AgentLifecycle.FirstConnectFailureRetries` | client/DeviceClient.cpp:65-70 | With the correction, the same failure leaves a retry pending, and the retry connects again. |
| `AgentLifecycle.StaleBytesSwallowAck` | client/DeviceClient.cpp:52-70 | As written, after the agent reads a partial header, loses the link and reconnects, the read that delivers the new ConnectAck does not handle it: no identifier is recorded and its bytes stay buffered behind the stale header. |
| `AgentLifecycle.ClearedBufferSeesAck` | client/DeviceClient.cpp:52-70 | With the buffer cleared on disconnect, after the same events the same ConnectAck is handled and its identifier recorded. |
| `AgentLifecycle.HandleDocsWithoutStart` | client/DeviceClient.cpp:72-96 | Documents without a START command leave a stopped send timer stopped. |
| `AgentLifecycle.StopSilencesTicks` | client/DeviceClient.cpp:106-109 | For the corrected agent, after STOP no send tick can occur, and no event restarts one except bytes carrying START. |
| `AgentLifecycle.NoTickWithoutStart` | client/DeviceClient.cpp:163-167 | For the corrected agent, while the send timer is stopped no event except a START restarts it. |
| `AgentLifecycle.NoTickWithoutStartAsWritten` | client/DeviceClient.cpp:163-167 | The code as written also restarts a stopped send timer on no event except a START. |
| `AgentLifecycle.HandleAckThenStart` | client/DeviceClient.cpp:72-104 | A ConnectAck then a START record the identifier and start sending with the delay drawn for the START. |
| `AgentLifecycle.AckThenStart` | client/DeviceClient.cpp:52-63 | A ConnectAck and a START arriving in one read leave the agent identified, sending and with nothing buffered. |
| `AgentLifecycle.TickThenStop` | client/DeviceClient.cpp:163-190 | A sending agent writes its message on a tick. A STOP arriving afterwards ends the ticks. |
| `AgentLifecycle.ConnectStartStop` | client/DeviceClient.cpp:15-190 | End to end: connect, receive ConnectAck and START, tick once (message frame last), receive STOP, and no tick can follow. |

## Left out

- Threads, `QMutex` and `Qt::QueuedConnection`: a queued call is a `Dispatch` appended to an ordered trace. Interleavings with other threads are not modelled.
- Qt signal/slot plumbing and `deleteLater` lifetimes: signals are ordered event lists, and a deferred delete is a `QueuedDelete` dispatch.
- Socket I/O and connection establishment: bytes read, bind success and connect outcome are inputs. Timers are a running flag plus an interval; the timer firing is an input.
- JSON text: parsing and compact serialisation are the parameter `JsonCodec`, with the round-trip law `RoundTrips` as a precondition.
- `Json.IntField`: `QJsonValue::toInt` is modelled for numbers that are exact whole values in `int` range. Its double-rounding behaviour is not modelled.
- `Json.DoubleField`: a number's value is exact, not rounded to a double. Latency, packet loss and thresholds are `real`.
- Log text and console output (`qInfo`, `qWarning`, the formatted server log lines): logs are datatypes, and `QString::arg` of a double is the parameter `fmt`.
- UUID generation: fresh identifiers are inputs. `QMap::insert` of a duplicate key replaces the entry, and `Insert` does the same.
- QMap iteration order (ascending keys) in `stopListening` and `broadcast`: `Enumerate` fixes no order.
- Random number generation: draws are inputs with their ranges. `bounded(lo, hi)` is [lo, hi). `randRange` is taken as the closed range [lo, hi].
- `Framing.TryExtractOne`: requires that `4 + len` fits in a signed `int` (`HeadersFit` over the buffer). Larger declared lengths overflow in `static_cast<int>` and are not modelled.
- `Framing.PackJson`: a payload of 2^32 bytes or more wraps in the quint32 header, and this is modelled. Such a frame cannot be decoded, so the round-trip lemmas require payloads within the `int` bound.
- `peerPort()` without a socket (server/ClientConnection.cpp:38-40) has no return value; the port is taken as an input.
- `ClientConnection.Create`: its construction log line is emitted before the server connects to the session's signals, so `OnNewConnection` does not relay it.
- `Json.ToUpperAscii`: `QString::toUpper` is modelled for ASCII letters only.
- The presentation layer (server/MainWindow.cpp) and process start-up (client/main.cpp) are not part of this model.
- The code draws the send delay, `cpu_usage`, `memory_usage` and `uptime` half-open: [10, 100), [0, 100), [0, 1000000), and the model does the same. A send tick checks started and connected before re-arming. A malformed frame produces no log line.

## Findings

| source | as written | input that shows it | evidently intended | confidence | as-written member | corrected member |
|---|---|---|---|---|---|---|
| client/DeviceClient.cpp:24-33 | Only `onDisconnected` starts the retry timer, and the socket reports `disconnected()` only after it was connected. A failed first `connectToHost` runs no handler. | The agent starts while no server listens, and the first attempt fails. | A failed attempt arms the retry timer, so the agent retries every 5000 ms. | medium; not executed (depends on Qt not signalling `disconnected()` for a failed connect) | `DeviceClient.ConnectAttemptFails` with `AgentLifecycle.FirstConnectFailureIsFinal` | `DeviceClient.ConnectAttemptFailsRetrying` with `AgentLifecycle.FirstConnectFailureRetries` |
| client/DeviceClient.cpp:65-70 | `onDisconnected` keeps `buffer_`, so bytes of a frame cut short by the disconnect survive into the next connection. | The link drops after a frame header arrived without its payload. After reconnecting, the new ConnectAck is read as that frame's payload. | The receive buffer is cleared on disconnect. | high; not executed | `DeviceClient.OnDisconnected` with `AgentLifecycle.StaleBytesSwallowAck` | `DeviceClient.OnDisconnectedClearingBuffer` with `AgentLifecycle.ClearedBufferSeesAck` |
