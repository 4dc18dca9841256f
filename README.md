# Remote CAN server: one client session

This project is a Dafny model of the per-client session of the remote CAN server,
`ClientBusConnection` in `can/interfaces/remote/server.py`. The server gives remote
clients access to a local CAN bus over TCP. For each client the session runs in
four stages:

1. **Handshake.** The client sends a `BusRequest`, which is checked against the
   protocol version, and then a `FilterConfig`. Both settings are merged into the
   session's own copy of the server configuration, and the bus is opened with the
   result. A wrong event or a version mismatch raises before the bus open is
   tried, and sends the client nothing. Once the open has been tried, the session
   flushes one reply: a `BusResponse` or a `RemoteException`.
2. **Client-to-bus relay.** Each decoded client event is dispatched by its type:
   - frames go to `bus.send`, and a failed send queues a `TransmitFail`;
   - periodic starts and stops go to the `send_tasks` registry;
   - `ConnectionClosed` ends the loop.
3. **Bus-to-client relay.** Each round polls the bus and queues every frame
   available. A bus error is queued as a `RemoteException` and sets the stop flag.
   The queue is written in a single `sendall`, and only when there is data and the
   socket is writable. The bus is shut down once after the loop ends.
4. **Registration.** The connection registers with the server's list of clients.

The model has two layers:

- **Pure functions.** Each stage is a function over values, with its properties
  proved as contracts and lemmas:
  - `SessionConfig`, `Periodic`, `Handshake`, `ClientRelay`, `BusRelay`, `Clients`;
  - all of them use the events and driver results defined in `Events`.
- **Classes.** Module `Server` has `RemoteServer` and `ClientBusConnection`. Their
  fields mirror the instance state of the Python objects:
  - `config`, `sendTasks`, the outbound queue `outbox`, the written payloads `wire`,
    `stopped`, `busOpened` and `shutdownCount`;
  - the bus calls made, `busLog`, and the server's `clients`.

  Each method updates these fields with the source's own loops. It is proved to
  leave exactly the state the pure functions give.

The socket, the event codec and the bus driver appear only through their results,
passed as parameters:
- `events` is the sequence of decoded client events.
- `open` is the outcome of constructing the bus from a configuration.
- `failing` holds the indices of the client events whose `bus.send` raises `CanError`.
- Each bus-to-client round is a `Round`: the results of its `recv` calls, and
  whether `select` found the socket writable.
- The protocol version is a constructor parameter, since its definition lies
  outside `server.py`.
- When the given events run out, the session is reported as still waiting for
  input (`AwaitingEvent`, `AwaitingInput`). A `recv` past the end of a round's
  results finds no frame.

In some places the code does something other than what one might expect of
such a protocol. The model follows the code:

- **A stop for an unregistered ID** is not ignored. Indexing `send_tasks` at
  line 143 raises `KeyError`, which ends the session; the model has an
  `UnknownTask` exit for this.
- **A stop does not remove the task.** Line 143 only calls `stop()`, so the
  entry stays and the ID stays registered.
- **A second start for a registered ID** does not replace the task. Line 135
  only calls `modify_data` with the new frame, so the new period and duration
  are ignored, and the session makes no call that restarts a stopped task.
  Whether `modify_data` itself revives a stopped task is up to the bus driver.
- **The version check comes first** (line 65). It runs before the bitrate is
  merged into the configuration (line 69), so a mismatch leaves the copy untouched.
- **A bus error may never reach the client.** In the round that meets it,
  the queue is written only if the socket was writable (lines 152 and 165).
  The loop then exits and shuts the bus down (line 169), and nothing flushes
  the queue afterwards, `finish` included. The `RemoteException`, and any frames
  queued with it, then stay unsent. `BusRelay.UnreadyFatalRoundKeepsException`
  proves this, and `BusRelay.FatalRoundMayLoseException` gives an instance.
  The relay lemmas speak of what is queued; what is written is only what
  `BusRelay.SendLoopDelivers` puts on the wire.
- **A connected session is registered twice** with the server (lines 58 and 85)
  and removed once (line 95). The classes do exactly this; see "## Findings".

## Model

| member | source | states |
|---|---|---|
| SessionConfig.SetDefault | can/interfaces/remote/server.py:69 | A key already present keeps its value; an absent key gets the default. No other key changes, and no key is removed. |
| SessionConfig.Merged | can/interfaces/remote/server.py:48-74 | The bus configuration is the server's keys plus `bitrate` and `can_filters`. A server-fixed bitrate wins over the client's. The filters are always the client's. Every other server key is kept. |
| Periodic.StartCall | can/interfaces/remote/server.py:133-140 | A start makes `modify_data` exactly when the ID is registered, and `send_periodic` with the frame, period and duration exactly when it is not. |
| Periodic.Start | can/interfaces/remote/server.py:132-141 | After a start, the registry keys are the old keys plus the frame's ID. A registered task gets the new frame and keeps its timing; a stopped task stays marked stopped, since no restart call is made. A new ID gets a running task built from the start's fields. Other entries are unchanged. |
| Periodic.Stop | can/interfaces/remote/server.py:142-143 | A stop fails with `KeyError` exactly when the ID is not registered. Otherwise it marks that task stopped and keeps every key and every other entry. |
| Periodic.StartKeepsTasksMatchLog | can/interfaces/remote/server.py:132-141 | A start keeps the registry in step with the bus calls: each registered ID has exactly one `send_periodic`, and no other ID has one. |
| Periodic.StopKeepsTasksMatchLog | can/interfaces/remote/server.py:142-143 | A stop of a registered task keeps the registry in step with the `send_periodic` calls made. |
| Periodic.RestartReplacesFrame | can/interfaces/remote/server.py:132-141 | A second start for the same ID only modifies the first task. One entry remains: the newer frame with the first start's timing. |
| Periodic.StartAfterStopStaysStopped | can/interfaces/remote/server.py:132-143 | A start after a stop for the same ID calls only `modify_data`. The task stays marked stopped: no restart call is made. |
| Handshake.Negotiate | can/interfaces/remote/server.py:60-88 | See the list below this table. |
| Handshake.ServerBitrateWins | can/interfaces/remote/server.py:69-77 | If the server configuration fixes a bitrate, the bus is opened with it whatever the client asked for, and with the client's filters. |
| ClientRelay.SendMsg | can/interfaces/remote/server.py:171-177 | Exactly one `bus.send` of the frame is made. A `CanError` queues exactly one `TransmitFail`. The registry is untouched. |
| ClientRelay.Dispatch | can/interfaces/remote/server.py:127-143 | See the list below this table. |
| ClientRelay.Run | can/interfaces/remote/server.py:124-143 | See the list below this table. |
| ClientRelay.RunTaskKeys | can/interfaces/remote/server.py:132-143 | After the loop, the registry keys are exactly the keys it started with plus the IDs of the starts read. |
| ClientRelay.RunStopsAtFirstUnknown | can/interfaces/remote/server.py:142-143 | The first stop that names an ID neither registered at the start nor started by an earlier event ends the loop with `KeyError` for that ID. It is the last event read. |
| ClientRelay.RunSends | can/interfaces/remote/server.py:126-129 | Each frame event read causes exactly one `bus.send` of its frame, in reading order, and nothing else calls `send`. |
| ClientRelay.RunTransmitFails | can/interfaces/remote/server.py:171-177 | The loop queues exactly one `TransmitFail` per rejected send, in order, and queues nothing else. |
| ClientRelay.RunKeepsTasksMatchLog | can/interfaces/remote/server.py:124-143 | For any client event sequence, no ID ever gets a second `send_periodic`, and the registry holds exactly the IDs a task was created for. |
| BusRelay.Translate | can/interfaces/remote/server.py:111-122 | `recv` returning `None` gives no event, a frame gives `CanMessage`, and a `CanError` gives `RemoteException`. |
| BusRelay.DrainShape | can/interfaces/remote/server.py:149-162 | See the list below this table. |
| BusRelay.Flush | can/interfaces/remote/server.py:164-166 | A write happens exactly when data is queued and the client is ready. It sends the whole queue as one payload and empties it. Otherwise the queue is kept intact. No event is lost, duplicated or reordered. |
| BusRelay.SendLoop | can/interfaces/remote/server.py:145-169 | A set stop flag ends the loop before any poll, with nothing changed. A loop whose flag is still clear at the end ran every round. |
| BusRelay.SendLoopDelivers | can/interfaces/remote/server.py:145-166 | Across all rounds, the wire followed by the queue is the old wire and queue followed by every drained event, in order. |
| BusRelay.SendLoopStopsAtFatal | can/interfaces/remote/server.py:147-161 | The loop stops exactly after the first round that meets a bus error. No earlier round met one. A loop that did not stop ran every round. |
| BusRelay.FatalRoundQueuesOneException | can/interfaces/remote/server.py:155-161 | In a round with a bus error, the last poll made is the error. Exactly one `RemoteException` is queued, and it comes last. Everything before it is a frame. |
| BusRelay.QuietRoundQueuesFrames | can/interfaces/remote/server.py:154-162 | A round without a bus error queues only `CanMessage` events. |
| BusRelay.SendLoopQueuesOneException | can/interfaces/remote/server.py:145-169 | Over the whole loop, a session stopped by a bus error queued frames, then exactly one `RemoteException` as the last event. A loop still running queued only frames. This is about the queue, not the wire. |
| BusRelay.UnreadyFatalRoundKeepsException | can/interfaces/remote/server.py:147-169 | When a bus error arrives in a round whose socket is not writable, the loop stops with nothing new written. The drained events, ending with the `RemoteException`, stay in the queue. |
| BusRelay.FatalRoundMayLoseException | can/interfaces/remote/server.py:147-169 | A session whose first poll is a bus error on an unwritable socket stops with an empty wire and one `RemoteException` left in the queue. |
| Clients.Remove | can/interfaces/remote/server.py:95 | `list.remove` fails exactly when the connection is absent. Otherwise it drops one occurrence, and every other entry keeps its count. |
| Clients.RegisterAsWritten | can/interfaces/remote/server.py:58-85 | `setup` adds the connection once, and a successful bus open adds it a second time. |
| Clients.StaleEntryAfterFinish | can/interfaces/remote/server.py:85-95 | A connected session registered both times still has an entry after the one `remove` in `finish`. |
| Clients.Register | can/interfaces/remote/server.py:58 | The connection is added once, and no other entry changes. |
| Clients.FinishDeregisters | can/interfaces/remote/server.py:92-96 | With a single registration, `finish` restores the list exactly as it was before `setup`. |
| Server.RemoteServer.constructor | can/interfaces/remote/server.py:33-36 | The server keeps the given configuration and starts with no clients. |
| Server.ClientBusConnection.Setup | can/interfaces/remote/server.py:44-58 | The session's configuration is a copy of the server's, and the server's is unchanged. The registry, queue and flags start empty or clear. The connection is registered once. |
| Server.ClientBusConnection.FlushAll | can/interfaces/remote/server.py:87 | The queue goes out as one `sendall` payload, and the queue is left empty. |
| Server.ClientBusConnection.RunHandshake | can/interfaces/remote/server.py:60-88 | The result, the configuration and the written payloads are those of `Negotiate`. The queue is left empty. The bus counts as open exactly when the handshake connected, and only then is the connection added to the server's list a second time. |
| Server.ClientBusConnection.Handle | can/interfaces/remote/server.py:60-90 | The handshake state is `Negotiate`'s, and the server's configuration is unchanged. A failed handshake starts neither relay and makes no bus call. A connected one adds the connection to the server's list again and relays `events[2..]` into the state and exit that `Run` gives. |
| Server.ClientBusConnection.SendMsg | can/interfaces/remote/server.py:171-177 | The registry, queue and bus calls become those of `ClientRelay.SendMsg`. |
| Server.ClientBusConnection.DispatchEvent | can/interfaces/remote/server.py:127-143 | The in-place `send_tasks`, queue and bus-call updates for one event are those of `Dispatch`, and so is the reason to leave the loop. |
| Server.ClientBusConnection.ReceiveFromClient | can/interfaces/remote/server.py:124-143 | A set stop flag reads nothing. Otherwise the loop leaves the state, the number of events read and the exit reason that `Run` gives. |
| Server.ClientBusConnection.SendToClientStep | can/interfaces/remote/server.py:149-166 | The queue, the wire, the stop flag and the number of polls after one round are those of `Step`: drain, then flush. |
| Server.ClientBusConnection.SendToClient | can/interfaces/remote/server.py:145-169 | The queue, wire and stop flag are those of `SendLoop`. `shutdown` is called exactly once when the loop exits, and not while it is still running. |
| Server.ClientBusConnection.Finish | can/interfaces/remote/server.py:92-96 | The connection leaves the server's list, then the stop flag is set. If it is not in the list, `ValueError` comes first and the flag is left unchanged. |

`Handshake.Negotiate` states:
- The bus is opened exactly when there is a `BusRequest` of the server's version followed by a `FilterConfig`.
- A wrong first event is a handshake error, and so is a wrong second event. Neither opens a bus or writes anything.
- A version mismatch fails before the open and leaves the configuration as the server's copy.
- The bus is opened with `Merged`.
- A failed open writes exactly one `RemoteException`.
- The session connects exactly when the open succeeds. It then writes only `BusResponse(channel_info)`.

`ClientRelay.Dispatch` dispatches by event type:
- A frame is one `SendMsg`.
- `ConnectionClosed` leaves the loop.
- A periodic start takes the `StartCall` and `Start` updates.
- A stop takes `Stop`, or leaves the loop with `KeyError` when the ID is unknown.
- Any other event is ignored.

`ClientRelay.Run`:
- It never reads past the events given.
- It ends at the first `ConnectionClosed` it reads, or at a stop of an unregistered ID.
- Otherwise it reads every event.
- Registry keys are never removed. `RunTaskKeys` gives their exact value, and
  `RunStopsAtFirstUnknown` shows that the `KeyError` comes at the first unknown stop.

`BusRelay.DrainShape`:
- Draining ends at the first poll that gives no frame.
- The frames are queued in poll order.
- The stop flag is set exactly when that last poll was a bus error. In that case the `RemoteException` is queued after the frames.

## Left out

- **Socket I/O.** The model leaves out `TCP_NODELAY`, `recv(256)` with the refill loop of `_next_event`, and `select` (lines 46, 100-109, 152). Decoded events and socket readiness are inputs instead.
- **Socket failures.** Every `sendall` (lines 87 and 166) succeeds in the model, and so does every `recv` (line 107). In the source, a failed write in `_send_to_client` ends that thread by exception, so `bus.shutdown()` at line 169 never runs. A failed `recv` ends `handle` the same way. `getpeername()` at line 93, evaluated as an argument of the log call at the start of `finish`, also succeeds in the model. On a socket the peer has reset it raises `OSError`, and then neither `clients.remove(self)` at line 95 nor `stop_event.set()` at line 96 runs. The send thread keeps polling, and `bus.shutdown()` at line 169 is never reached.
- Server.ClientBusConnection.Finish: its contract assumes `getpeername()` at line 93 succeeds. When it raises, the connection is not removed and the stop flag is not set, and the model has no such outcome.
- Server.ClientBusConnection.SendToClient: its promise of exactly one shutdown covers only runs where every write succeeds. A failed `sendall` at line 166 skips the shutdown at line 169, and the model has no such outcome.
- **The event codec and stream framer.** `Connection`, with `send_event`, `next_data`, `data_ready` and `next_event`, is not part of this model. It stands as the list of events queued (`outbox`), the list of payloads written (`wire`), and the input event sequence.
- **The bus driver.** Construction, `send`, `recv`, `send_periodic`, `modify_data`, `stop` and `shutdown` are foreign calls. They appear as parameters or as entries in the recorded call log `busLog`.
- **Driver exceptions other than the ones handled.** Exceptions raised by `send_periodic`, `modify_data` or `stop`, and non-`CanError` exceptions from `send` or `recv`, are not modelled.
- **Threading.** `stop_event` is a plain flag, and the two relay loops are separate methods with no interleaving. `send_thread.start`, `is_alive` and `join(3)` are not modelled.
- **The timeouts.** The 0.5 s and 2 s timeouts (lines 149 and 152) are not modelled. A round's poll results and readiness are given.
- **Logging.** Every `logger` call is left out. The only argument that can fail, `getpeername()` at line 93, is covered under "Socket failures".
- **`RemoteServer.__init__` beyond these fields.** Only `config` and `clients` are modelled. The address, port defaulting and TCP server construction are wiring.
- **Frames** carry only the arbitration ID and data bytes. Other attributes pass through unchanged and are not modelled.
- **Filters** are always a list. A client sending no filter list (`None`) is not distinguished from an empty one.
- **Periodic-task handles are values.** `Task` holds the state the session gave the handle, not the driver's timer. The model does not cover how the driver reacts to `modify_data` on a task whose `stop()` was called, which some backends take as a restart. Nor does it cover a `duration` that has run out.
- **Registration follows the code.** `Setup` uses `Clients.Register` for the append at line 58, and `RunHandshake` adds the second append of line 85. Together they give `Clients.RegisterAsWritten`. `Clients.FinishDeregisters` assumes a single append, so it states the intended behaviour, not what the classes do.

## Findings

| source | as written | input that shows it | evidently intended | confidence | as-written member | corrected member |
|---|---|---|---|---|---|---|
| can/interfaces/remote/server.py:58-95 | `setup` adds the connection to `server.clients`, and a successful bus open adds it again. `finish` removes one occurrence. | An empty client list and one session whose bus opens: after `finish` the list still holds that connection once. | Each connection is registered once, so `finish` removes it completely. | medium, not executed | Clients.StaleEntryAfterFinish | Clients.FinishDeregisters |
