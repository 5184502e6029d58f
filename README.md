# Random-word loop server, modelled in Dafny

A small demo server picks a random word from a fixed vocabulary every five seconds and
pushes each new word to the browsers connected over WebSocket; an HTTP control surface
starts the loop and reports its state. The repository holds two revisions of the server
logic: a single-file server (`server.js`, module globals, start/stop/current-word routes, no
push channel) and a structured one (`WordManager`, `WebSocketManager`, `ApiRoutes`,
`ErrorHandler`), plus the browser-side `WebSocketClient` with reconnection.

This project models those pieces, one Dafny module per source file:

| module | file | form |
|---|---|---|
| `Constants` | `src/config/constants.js` | constants |
| `Protocol` | push messages and HTTP reply bodies | datatypes |
| `WordLoop` | `src/utils/wordManager.js` | class `WordManager` over transition functions `Start`, `Tick`, `Stop` |
| `WebSocketRegistry` | `src/websocket/websocketManager.js` | class `WebSocketManager` with a loop-based `Broadcast` and `CloseAllConnections` |
| `ApiRouting` | `src/routes/apiRoutes.js` | class `ApiRoutes` over a `WordManager` and a `WebSocketManager` |
| `SingleFileServer` | `server.js` | class `Server` (the globals) over transition functions |
| `ReconnectingClient` | `public/modules/websocketClient.js` | class `WebSocketClient` plus the back-off functions |
| `ErrorHandling` | `src/utils/errorHandler.js` | pure functions |
| `Seqs`, `Wrappers` | helpers | duplicate-free sequences; Option / Result / Exception |

How the environment enters the model:

- The random index `Math.floor(Math.random() * words.length)` is a parameter `pick < |words|`.
- The handle returned by `setInterval` is a parameter `timer`. One firing of the interval is
  an explicit `IntervalFired` method, which requires the interval to be scheduled.
- A JavaScript `Set` of sockets is a duplicate-free `seq<Socket>` in insertion order, which is
  the order `forEach` visits. `Members()` is its set.
- Each `send` is appended to a ghost `outbox` as a `Delivery(target, payload, ok)`. Which
  sockets' sends fail is an input, `failed`. A payload is the `Message` value; JSON
  serialisation is not modelled.
- A thrown `Error` is an `Exception(message)` in a `Result`.
- `process.env.NODE_ENV` is a parameter `nodeEnv`.

Where the two server revisions differ, the model keeps both behaviours apart:

- **Stop and the current word.** `server.js` clears `currentWord` on stop (server.js:72).
  `WordManager.stopWordLoop` keeps it (src/utils/wordManager.js:47-53).
  `SingleFileServer.StopClearsWordUnlikeWordManager` states both outcomes side by side.
- **The word invariant.** For `server.js` the invariant is that a word is held exactly while
  the loop runs. For `WordManager` a word may outlive the loop, and the invariant is that an
  interval is scheduled exactly while the loop runs.
- **The stale interval handle.** `server.js` calls `clearInterval(loopInterval)` but never sets
  `loopInterval` back to null. The model therefore tracks whether a timer is still scheduled in
  a separate `armed` flag.

Behaviour the model keeps exactly as the code has it:

- A failed send during a broadcast is only logged. The socket stays in the registry until its
  own `close` or `error` event removes it.
- `ApiRoutes` has no stop-loop route. Only start-loop, current-word and status exist.
- `WordManager` does not clear the current word on stop, and stopping an idle manager is not
  rejected.
- A new connection does not receive the current word. It waits for the next tick.

## Model

| member | source | states |
|---|---|---|
| `Constants.WordsWellFormed` | src/config/constants.js:4 | the vocabulary has five distinct, non-empty words |
| `Seqs.DistinctCard` | src/websocket/websocketManager.js:87-89 | a duplicate-free sequence has as many elements as its set, so `clients.size` is the number of members |
| `WordLoop.RandomWord` | src/utils/wordManager.js:13-16 | the picked word is an element of the vocabulary |
| `WordLoop.Start` | src/utils/wordManager.js:19-44 | starting fails exactly when the loop already runs; the failure carries "Loop is already running" and leaves the state unchanged; a successful start returns a vocabulary word, makes it current, marks the loop running and schedules a 5000 ms interval holding the callback flag |
| `WordLoop.Tick` | src/utils/wordManager.js:29-41 | one interval firing makes a vocabulary word current; the running flag and the interval stay as they were; the callback receives that same word exactly when one was given |
| `WordLoop.Stop` | src/utils/wordManager.js:47-53 | from either state the loop ends up stopped with no interval, and the current word is kept |
| `WordLoop.StopIdempotent` | src/utils/wordManager.js:47-53 | stopping twice is the same as stopping once |
| `WordLoop.StartAfterStop` | src/utils/wordManager.js:19-53 | after any stop, a start succeeds |
| `WordLoop.Run` | src/utils/wordManager.js:19-53 | any sequence of starts, ticks and stops keeps the invariant: an interval exists exactly while running, a running loop has a word, and every word is from the vocabulary |
| `WordLoop.WordManager.constructor` | src/utils/wordManager.js:5-10 | a new manager holds the vocabulary, has no word, is not running and has no interval |
| `WordLoop.WordManager.StartWordLoop` | src/utils/wordManager.js:19-44 | the new fields and the returned result are those of `Start`, and the invariant is kept |
| `WordLoop.WordManager.IntervalFired` | src/utils/wordManager.js:29-41 | the new fields and the word handed to `onWordChange` are those of `Tick` |
| `WordLoop.WordManager.StopWordLoop` | src/utils/wordManager.js:47-53 | the new fields are those of `Stop`, from either state and without error |
| `WordLoop.WordManager.GetCurrentState` | src/utils/wordManager.js:56-61 | the snapshot is exactly the current word and the running flag; it is a read-only function |
| `WordLoop.WordManager.Cleanup` | src/utils/wordManager.js:64-66 | has the same effect as `StopWordLoop` |
| `WebSocketRegistry.Added` | src/websocket/websocketManager.js:31 | adding puts the socket in the member set; a present socket leaves the registry unchanged; no duplicates arise |
| `WebSocketRegistry.Removed` | src/websocket/websocketManager.js:33-41 | removal takes exactly that socket out of the member set; an absent socket leaves the registry unchanged; no duplicates arise |
| `WebSocketRegistry.Offers` | src/websocket/websocketManager.js:45-61 | a broadcast makes no more sends than there are registered sockets (that each member gets at most one is `OffersOncePerMember`) |
| `WebSocketRegistry.OffersSound` | src/websocket/websocketManager.js:49-61 | every send of a broadcast carries the one payload to an OPEN member, and it is marked failed exactly when that member's send fails |
| `WebSocketRegistry.OffersComplete` | src/websocket/websocketManager.js:49-61 | every OPEN member is sent the payload |
| `WebSocketRegistry.OffersOncePerMember` | src/websocket/websocketManager.js:49-61 | in a duplicate-free registry no member is sent one broadcast twice |
| `WebSocketRegistry.WebSocketManager.constructor` | src/websocket/websocketManager.js:5-8 | a new manager has no clients and no server |
| `WebSocketRegistry.WebSocketManager.HandleConnection` | src/websocket/websocketManager.js:29-31 | the registry becomes `Added(clients, ws)`; nothing is sent |
| `WebSocketRegistry.WebSocketManager.OnClose` | src/websocket/websocketManager.js:33-36 | the registry becomes `Removed(clients, ws)` |
| `WebSocketRegistry.WebSocketManager.OnError` | src/websocket/websocketManager.js:38-41 | the registry becomes `Removed(clients, ws)` |
| `WebSocketRegistry.WebSocketManager.Broadcast` | src/websocket/websocketManager.js:45-69 | broadcasting has no failure outcome; it appends the sends to the OPEN members in visiting order and leaves the registry unchanged, even when sends fail |
| `WebSocketRegistry.WebSocketManager.SendToClient` | src/websocket/websocketManager.js:72-84 | a send happens only to an OPEN socket; otherwise nothing is sent; the promise rejects exactly when that send failed |
| `WebSocketRegistry.WebSocketManager.GetConnectedClientsCount` | src/websocket/websocketManager.js:87-89 | the count is the number of members |
| `WebSocketRegistry.WebSocketManager.CloseAllConnections` | src/websocket/websocketManager.js:92-103 | every member gets `close(code, reason)` and is CLOSING unless it was already CLOSED; the registry itself is not changed; the code and reason default to 1000 and "Server shutting down" |
| `WebSocketRegistry.WebSocketManager.Cleanup` | src/websocket/websocketManager.js:118-121 | the shutdown call `closeAllConnections()` uses the defaults: every member is asked to close with code 1000 and reason "Server shutting down" and is CLOSING unless it was already CLOSED |
| `ApiRouting.StartLoopReply` | src/routes/apiRoutes.js:30-48 | success returns "Word loop started" with the initial word; "Loop is already running" returns a plain failure with status 200; any other error returns status 500 with "Internal server error" |
| `ApiRouting.StartLoopErrorsMatchHandler` | src/routes/apiRoutes.js:38-48 | outside development mode the route's failure replies match `handleApiError` in status, success flag and message |
| `ApiRouting.ApiRoutes.constructor` | src/routes/apiRoutes.js:5-10 | the router is bound to the given word manager and connection registry |
| `ApiRouting.ApiRoutes.StartLoop` | src/routes/apiRoutes.js:14-50 | the manager makes the `Start` transition with a callback; on success the initial `wordUpdate` goes to the OPEN clients before the reply; a rejected start broadcasts nothing and changes nothing |
| `ApiRouting.ApiRoutes.IntervalFired` | src/routes/apiRoutes.js:16-22 | every tick of the router's interval broadcasts a `wordUpdate` carrying the new current word; the registry and the server are unchanged |
| `ApiRouting.ApiRoutes.CurrentWord` | src/routes/apiRoutes.js:53-59 | reports the current word and the running flag exactly as `getCurrentState` gives them |
| `ApiRouting.ApiRoutes.Status` | src/routes/apiRoutes.js:62-77 | reports the running flag and the word, and `connectedClients` equal to the number of registered sockets |
| `ApiRouting.StartTwice` | src/routes/apiRoutes.js:14-48 | a second start is rejected; the initial word broadcast by the first start is the word still current |
| `SingleFileServer.GetRandomWord` | server.js:22-25 | the picked word is from the file's vocabulary, which is also the vocabulary of the application constants |
| `SingleFileServer.StartLoop` | server.js:28-51 | starting while running replies "Loop is already running" and changes nothing; otherwise the loop runs with a scheduled timer and a vocabulary word, and the reply's `initialWord` is that word |
| `SingleFileServer.Tick` | server.js:41-44 | a scheduled timer's firing makes a vocabulary word current and changes nothing else |
| `SingleFileServer.StopLoop` | server.js:62-78 | stopping while running clears the word, the running flag and the timer, and replies success; stopping while idle replies "Loop is not running" and changes nothing |
| `SingleFileServer.Serve` | server.js:17-78 | any sequence of requests keeps the invariant: a word exists exactly while the loop runs and exactly while the timer is scheduled |
| `SingleFileServer.StopClearsWordUnlikeWordManager` | server.js:70-72 | after a start and a stop, `server.js` holds no word, while `WordManager` still holds the word it picked |
| `SingleFileServer.Server.constructor` | server.js:17-19 | the globals start with no word, not running and no interval |
| `SingleFileServer.Server.HandleStartLoop` | server.js:28-51 | the new globals and the reply are those of `StartLoop` |
| `SingleFileServer.Server.IntervalFired` | server.js:41-44 | the new globals are those of `Tick` |
| `SingleFileServer.Server.HandleStopLoop` | server.js:62-78 | the new globals and the reply are those of `StopLoop` |
| `SingleFileServer.Server.HandleCurrentWord` | server.js:54-59 | reports the globals unchanged |
| `ReconnectingClient.BackoffSchedule` | public/modules/websocketClient.js:70-72 | the delays of attempts 1 to 5 are 3000, 6000, 12000, 24000 and 48000 ms |
| `ReconnectingClient.BackoffGrows` | public/modules/websocketClient.js:72 | each delay doubles the one before and is at least the base delay |
| `ReconnectingClient.ReconnectStep` | public/modules/websocketClient.js:69-86 | below the maximum the counter rises by exactly one and the wait is 3000·2^(attempts-1); at the maximum the counter stays and the client gives up with "Unable to reconnect to server"; the counter never exceeds the maximum |
| `ReconnectingClient.ConsecutiveFailures` | public/modules/websocketClient.js:69-86 | the k-th disconnection in a row retries with the k-th back-off delay while the counter is below the maximum, and gives up after that |
| `ReconnectingClient.RetriesAreCapped` | public/modules/websocketClient.js:70-71 | from a fresh client, exactly the first five disconnections in a row lead to a retry |
| `ReconnectingClient.WebSocketClient.constructor` | public/modules/websocketClient.js:3-11 | a new client has no socket and is disconnected; it has 0 attempts, maximum 5, base delay 3000 and no handlers |
| `ReconnectingClient.WebSocketClient.Connect` | public/modules/websocketClient.js:14-47 | the new socket replaces the old one, unless creating it threw |
| `ReconnectingClient.WebSocketClient.OnOpen` | public/modules/websocketClient.js:19-24 | connected, with the attempt counter reset to 0 |
| `ReconnectingClient.WebSocketClient.OnClose` | public/modules/websocketClient.js:30-35 | disconnected, then the counter and the plan follow `ReconnectStep` |
| `ReconnectingClient.WebSocketClient.OnError` | public/modules/websocketClient.js:37-41 | disconnected, with nothing else changed |
| `ReconnectingClient.WebSocketClient.HandleReconnect` | public/modules/websocketClient.js:69-86 | the counter and the plan follow `ReconnectStep`, so the counter stays within the maximum |
| `ReconnectingClient.WebSocketClient.ReconnectDelayElapsed` | public/modules/websocketClient.js:76-81 | after the wait the client reconnects exactly when it is still disconnected |
| `ReconnectingClient.WebSocketClient.On` | public/modules/websocketClient.js:89-91 | the handler for that type replaces any earlier one; the other types keep theirs |
| `ReconnectingClient.WebSocketClient.HandleMessage` | public/modules/websocketClient.js:50-66 | the handler registered for the message's type runs, with the parsed message; if none is registered or parsing failed, no handler runs |
| `ReconnectingClient.WebSocketClient.Send` | public/modules/websocketClient.js:94-100 | a message goes out exactly when a socket exists and the client is connected |
| `ErrorHandling.CreateErrorResponse` | src/utils/errorHandler.js:4-15 | `success` is false and the message is the given one; `error` is present exactly when an error is given and details are requested, and it then equals the error's message |
| `ErrorHandling.CreateSuccessResponse` | src/utils/errorHandler.js:18-29 | `success` is true and the message is the given one; `data` is present exactly when data is given, and it is that data |
| `ErrorHandling.HandleApiError` | src/utils/errorHandler.js:32-43 | "Loop is already running" returns status 200 with that message and no details; any other error returns status 500 with "Internal server error", and details appear exactly in development mode |
| `ErrorHandling.SafeExecute` | src/utils/errorHandler.js:46-53 | the operation's result is returned unchanged, and its error is thrown again unchanged |

## Left out

- Console logging, the display manager's status and notification calls, and `Date` timestamps. These are output only.
- Real timers. `setInterval` and `setTimeout` are replaced by the explicit `IntervalFired` and `ReconnectDelayElapsed` steps. Wall-clock time is not modelled. The 5000 ms period is recorded only in `WordManager`'s `Interval`, and each back-off wait only as the `delay` of `RetryAfter`; neither wait is simulated.
- `ReconnectingClient.WebSocketClient.HandleMessage`: the `requestAnimationFrame` wait between parsing a message and looking up its handler (public/modules/websocketClient.js:56-61) is dropped. The handler is looked up at once, so a handler registered with `on` during that frame, which the browser would call, is not the one the model calls.
- `Math.random`. It is replaced by the `pick` index, so no distribution property is stated.
- JSON serialisation and parsing. A payload is a `Message` value, and a failed `JSON.parse` is an absent message.
- The `ws` library's own state changes. The server's side of a `Socket` is modelled: `close(code, reason)` records the close frame and moves a socket that is not CLOSED to CLOSING. The handshake that would later make it CLOSED, and every other `readyState` change, are not modelled; the state is otherwise set by whoever builds the socket.
- Promise concurrency. `Broadcast` offers its sends one after another and "settles" when its loop ends. Overlapping broadcasts are not modelled.
- `WebSocketManager.initialize` and `closeServer`, and the `closeServer` half of `cleanup`. These are library glue: they attach the `ws` server to the HTTP server and close it. `Cleanup` models only the `closeAllConnections()` half.
- `WebSocketClient.close()` and `getConnectionStatus()`. The first only forwards to the browser socket, and the second reads one flag. `GetConnectionStatus` has no contract.
- The `uptime` and `timestamp` fields of `/status`. They depend on the process and the clock.
- Express routing, middleware, `listen`, signal handling and `process.exit` in src/server/server.js and app.js. These are process-level I/O. The shutdown path's calls to `cleanup` and `closeAllConnections` are modelled as methods.
- Events from an earlier browser socket. `connect` installs new handlers on each socket, but the client methods do not distinguish which socket an event came from.
