# chromium-cli relay, agent connection, request log and console capture in Dafny

chromium-cli lets a command-line client drive one or more Chromium-family browsers. A small
Node.js relay (`server/index.js`) accepts HTTP requests from the CLI. It keeps a registry of
connected browser extensions keyed by browser id. It forwards each request as an envelope
`{requestId, action, params}` over that browser's WebSocket and waits for the matching reply, or
for a 30-second timeout. In each browser, the extension's `Connection` object
(`extension/js/lib/connection.js`) keeps the socket open; it reconnects with capped linear backoff
and dispatches each incoming envelope to a registered action handler. Two of those handlers'
back ends are modelled as well:

- the bounded network request log of `extension/js/api/network.js`;
- the bounded console buffer of the content script `extension/js/content/console-capture.js`.

The project models these four parts.

- `relay.dfy` (module `Relay`) is the relay state as a value, with one transition function per
  event:
  - a browser connects, or a socket closes;
  - a browser's message arrives;
  - a request's timer fires;
  - an HTTP request is routed.

  Pending requests are keys of `pending`. A settled promise is a write-once entry of `outcomes`.
  A routed request returns a `RouteWait`, and `Finish` computes the HTTP answer once what it waits
  for has settled. Event traces (`Step`, `Run`) carry the invariants and the "settles exactly once"
  property.
- `routes.dfy` (module `Routes`) holds the pure parts of `handleRoute`:
  - the action name;
  - the target browser;
  - the loop that builds the action parameters.
- `server.dfy` (module `Server`) holds class `RelayServer`. Its fields are the relay's
  module-level maps and counter, and each handler is a method specified by the matching `Relay`
  transition.
- `connection.dfy` (module `AgentConnection`) holds the agent's state as a value, its
  transitions and the lemmas about them. It also holds class `Connection`, whose methods are
  specified by those transitions.
- `network.dfy` (module `Network`) holds the listener bodies and the log merge. It has `getLog`,
  `getRequest` and `getStats` as functions on the log, the counting loop of `getStats` as a
  method, and class `NetworkLog` with the module's mutable state.
- `console_capture.dfy` (module `ConsoleCapture`) holds `serialize`, the message format and the
  500-entry buffer, plus class `Page` for the injection guard and the interceptors.
- `protocol.dfy` (module `Protocol`) connects the two ends: an envelope the relay sends is answered
  by the agent's `handleMessage`, and that reply settles exactly the relay request it answers.
- Supporting modules model parts of JavaScript itself:
  - `values.dfy`: JavaScript values, truthiness, `String()`, `||`, `===`, `parseInt`, `Number()`, and property reads and writes on plain objects, which fall back to Object.prototype;
  - `jsmaps.dfy`: insertion-ordered `Map`, and the counters kept in plain objects;
  - `text.dfy`: decimal rendering, white-space trimming, numeric strings, `split`/`join` and `includes`;
  - `bounded.dfy`: the push-then-shift buffer shared by the request log and the console buffer;
  - `wrappers.dfy`: `Option` and `Result`.

Where the code and its description differ, the model follows the code:

- The registry record is built from the `x-browser-id` and `x-browser-name` headers when the socket
  connects. The agent's later `identify` message is not used to register anything. It is
  dropped, because it has no `requestId` (`Protocol.IdentifyIsDropped`).
- `sendToBrowser` sends on the socket without checking its state.
- A reply settles a pending request whichever browser sends it. The browser id passed to
  `handleBrowserMessage` is not compared with anything.

## Model

| member | source | states |
|---|---|---|
| Relay.Initial | server/index.js:8-13 | The relay starts with no browsers, no pending requests, no settled requests and the counter at 0, and satisfies the relay invariant. |
| Relay.RequestIdIssued | server/index.js:69 | `req-N` counts as an id the counter has issued exactly when 1 <= N <= counter. |
| Relay.Connected | server/index.js:18-23 | A connection sets the record {socket, name, connectedAt} under the header id (or `browser-<time>`), replacing any record with that id. The socket's close handler remembers that id. Nothing else changes, and the invariant is kept. |
| Relay.Closed | server/index.js:34-37 | A close deletes the registry record of the id the socket connected with, from the map and from the insertion order. A socket with no close handler changes nothing. The invariant is kept. |
| Relay.Settlement | server/index.js:55-59 | A truthy `success` resolves with `data`. Otherwise the promise rejects with `error`, or with `Unknown error` when `error` is falsy. |
| Relay.Replied | server/index.js:44-60 | A message whose `requestId` is falsy or not pending changes nothing. A matching one removes the pending entry and writes its settlement once. The invariant is kept. |
| Relay.TimedOut | server/index.js:70-73 | A firing timer removes its pending entry and rejects it with `Request timeout`. A timer for a request no longer pending changes nothing. |
| Relay.Send | server/index.js:62-79 | Sending to an unregistered target rejects at once with `Browser not found: <id>` and changes nothing, counter included. Otherwise the counter goes up by one, `req-<counter>` becomes pending with its delay, and the envelope goes out on that browser's socket. The fresh id is neither pending nor settled. |
| Relay.SendEach | server/index.js:81-91 | The fan-out makes one ticket per browser id, in registry order. It leaves the registry and the settled outcomes alone and keeps the invariant. |
| Relay.SendEachRegistered | server/index.js:83-89 | When every id is registered, the i-th send gets `req-<counter+i+1>`, which is left pending. |
| Relay.SendToAll | server/index.js:81-91 | `sendToAllBrowsers` makes one ticket per registered browser, in registration order, each carrying that browser's id. The registry and the settled outcomes are left alone. |
| Relay.ResultOf | server/index.js:86-87 | Each fan-out result carries the browser id of its request. |
| Relay.FanOutResults | server/index.js:90 | `Promise.all` has settled exactly when every ticket has settled. It gives one result per ticket, in order. |
| Relay.Infos | server/index.js:139-143 | The browser list has one `{id, name, connectedAt}` per registered id, in registration order. |
| Relay.Finish | server/index.js:174-188 | The HTTP answer is known exactly when what the route waits for has settled. A single request answers its resolved data or throws its rejection message. For a fan-out of other than one ticket, the answer is the list of results; for exactly one ticket it succeeds exactly when that result is a success. An immediate answer or rejection is passed through. |
| Relay.Route | server/index.js:131-189 | `/status`, `/` and `/browsers` answer at once and change nothing. Every route keeps the relay invariant. |
| Relay.RouteKeeps | server/index.js:131-189 | Routing never changes a settled outcome, never drops a pending request without settling it, and never lowers the counter. |
| Relay.StepKeeps | server/index.js:18-79 | Every event keeps the invariant. Settled outcomes stay written, a request leaves `pending` only by settling, and the counter never decreases. |
| Relay.RunKeeps | server/index.js:18-79 | The same holds for every sequence of events. |
| Relay.SettlesExactlyOnce | server/index.js:49-53 | After any sequence of events, an issued request is pending exactly when it is unsettled, and a settlement is never overwritten. |
| Relay.ConnectSupersedes | server/index.js:23 | Connecting again with a registered id keeps the registry order, points the record at the new socket and leaves the other records alone. |
| Relay.StaleCloseDropsNewer | server/index.js:18-37 | Two sockets connect with the same id and then the first one closes. The close removes the record, although the second socket is still open and its close handler is still armed. |
| Relay.LateReplyIgnored | server/index.js:47-73 | After a timeout, the request is rejected with `Request timeout` and a later reply for it changes nothing. |
| Relay.DuplicateReplyIgnored | server/index.js:49-53 | After a reply settles a request, a second reply or its timer changes nothing. |
| Relay.TimersSettleAll | server/index.js:70-73 | Once the timers of a set of issued requests have fired, every one of them is settled. |
| Relay.TimeoutStep | server/index.js:70-73 | The first of a list of timers settles its request, if it was pending, and leaves every already settled request and the counter as they were. |
| Relay.FanOutTickets | server/index.js:81-89 | Fan-out makes exactly one ticket per browser registered at call time, in order. Ticket i is `req-<counter+i+1>` and pending, and the counter rises by the number of browsers. |
| Relay.TicketsSettleAfterTimers | server/index.js:84-90 | Pending tickets have all settled once their timers have fired, after any other events. The results keep the tickets' browser ids. |
| Relay.FanOutOnePerBrowser | server/index.js:81-91 | Fan-out never rejects: every ticket is a sent request. After any events followed by the timers, `Promise.all` yields one result per browser registered at call time, in order. |
| Relay.NoBrowsersEmptyAnswer | server/index.js:174-184 | With no browser connected, an action for all browsers answers `[]` at once. |
| Relay.FinishSingleTicket | server/index.js:178-181 | A single fan-out result is flattened: its data is the answer, and its failure is thrown. |
| Relay.SingleBrowserFlattened | server/index.js:174-182 | With one browser connected, an action for all browsers answers with that browser's settlement itself, not with a list. |
| Relay.UnknownTargetFails | server/index.js:185-187 | A route naming a browser that is not connected fails with `Browser not found: <id>` and changes nothing. |
| Relay.StatusListsBrowsers | server/index.js:133-146 | `/status` and `/` answer `chromium-cli`, `1.0.0` and one entry per connected browser, in registration order, without changing the state. |
| Relay.BrowsersListsBrowsers | server/index.js:149-158 | `/browsers` answers with the same list of connected browsers and changes nothing. |
| Relay.KnownTargetForwards | server/index.js:185-188 | When the route names a connected browser, exactly one envelope goes to that browser. It carries `req-<counter+1>`, the dotted action and the merged parameters. The HTTP answer is that request's settlement. |
| Routes.ActionName | server/index.js:165 | The action is the path without its first character, with every `/` turned into `.`. |
| Routes.ActionNameOfSegments | server/index.js:165 | `/a/b/c` names the action `a.b.c`, for any segments free of `/`. |
| Routes.FirstValue | server/index.js:161 | `searchParams.get` returns none exactly when no entry has the key. Otherwise it returns the value of the first entry with that key. |
| Routes.TargetOf | server/index.js:161 | The query's `browser` wins unless it is missing or empty; then the body's `browser` field is used. |
| Routes.ActionParams | server/index.js:166-172 | The parameters never hold `browser`. A key is present exactly when the body has it, or a query entry gives it and it is not `__proto__`. A key given in the query takes its last query value, as a string; any other key keeps its body value. |
| Routes.ProtoQueryKey | server/index.js:171 | A query entry `__proto__` reaches the parameters exactly when the body has its own `__proto__`, which it then overrides. Otherwise the assignment goes to the inherited accessor and is lost. |
| Routes.BuildActionParams | server/index.js:166-172 | The spread-delete-loop code builds exactly those parameters. |
| Server.RelayServer.constructor | server/index.js:8-13 | The relay object starts in the initial state. |
| Server.RelayServer.OnConnection | server/index.js:18-23 | The connection handler performs `Connected` on the object's fields. |
| Server.RelayServer.OnClose | server/index.js:34-37 | The close handler performs `Closed`. |
| Server.RelayServer.HandleBrowserMessage | server/index.js:44-60 | Message handling performs `Replied`. |
| Server.RelayServer.OnTimeout | server/index.js:70-73 | The timer callback performs `TimedOut`. |
| Server.RelayServer.SendToBrowser | server/index.js:62-79 | The object's new state and the returned ticket are those of `Send`. |
| Server.RelayServer.SendToAllBrowsers | server/index.js:81-91 | The loop over the registry leaves the state and the tickets that `SendToAll` specifies. |
| Server.RelayServer.HandleRoute | server/index.js:131-189 | The synchronous part of `handleRoute` leaves the state and the wait that `Route` specifies. |
| Protocol.AgentReplySettles | server/index.js:44-60 | The agent's reply to an envelope settles exactly that pending request. Its outcome is the handler's result, the thrown message, or `Unknown action: <a>`. |
| Protocol.IdentifyIsDropped | server/index.js:47 | The agent's `identify` message has no `requestId`, so the relay ignores it. |
| Protocol.RequestRoundTrip | server/index.js:62-79 | A request to a connected browser is answered by its agent. The HTTP call then completes with the handler's outcome, and a later timeout changes nothing. |
| AgentConnection.DetectBrowserName | extension/js/lib/connection.js:17-25 | The name is one of six, decided by the first test that matches, in order: `Edg/` gives `edge`, then `Brave` gives `brave`, `OPR/` or `Opera` gives `opera`, `Vivaldi` gives `vivaldi` and `Chrome` gives `chrome`. With no match it is `chromium`. Each name comes with an if-and-only-if. |
| AgentConnection.New | extension/js/lib/connection.js:3-15 | A new manager is disconnected, has no socket, zero attempts and no handlers, is not initialized, and has a null browser id. It holds the storage value it was given. The server URL is `config.serverUrl` when truthy, otherwise the default. The browser name is `config.browserName` when truthy, otherwise the detected name. |
| AgentConnection.ReconnectDelay | extension/js/lib/connection.js:99 | The delay is min(2000 × attempts, 30000), so it lies in [2000, 30000] after an increment. |
| AgentConnection.ReconnectDelayMonotone | extension/js/lib/connection.js:99 | The delay never decreases as the attempt count grows. |
| AgentConnection.Rescheduled | extension/js/lib/connection.js:92-103 | With the limit at Infinity, scheduling a reconnect always raises the attempt count by exactly 1. It sets a timer for the new count's delay and changes nothing else. |
| AgentConnection.ConsecutiveDelaysNonDecreasing | extension/js/lib/connection.js:98-99 | Of two consecutive reconnects, the second delay is at least the first. |
| AgentConnection.Initialized | extension/js/lib/connection.js:27-40 | Initializing a second time changes nothing. A truthy stored id is reused. Otherwise the id `<name>-<time>-<random>` is generated and stored. Nothing else changes. |
| AgentConnection.ConnectAttempted | extension/js/lib/connection.js:42-90 | `connect` always initializes first. While the socket is OPEN it does nothing else. Otherwise it makes a new CONNECTING socket with the next id, or, when the constructor throws, keeps the old socket and schedules a reconnect with the next delay. It never sends, notifies, changes `connected` or touches the handlers. |
| AgentConnection.Transmit | extension/js/lib/connection.js:125-129 | `send` puts the data on the current socket only when it is OPEN. Otherwise nothing happens. |
| AgentConnection.Opened | extension/js/lib/connection.js:51-63 | On open, the manager becomes connected with zero attempts and notifies `connected`. When the socket that opened is the current one, it becomes OPEN and receives `{type: identify, browserId, browserName}`. The handler reads `this.ws`, so when a newer socket is current the identify goes to it only if it is OPEN. |
| AgentConnection.SocketClosed | extension/js/lib/connection.js:74-79 | Every close sets `connected` false, notifies `disconnected`, marks the socket closed when it is the current one, and schedules a reconnect: one more attempt and a timer with its delay. Nothing is sent. |
| AgentConnection.SocketError | extension/js/lib/connection.js:81-84 | An error only notifies `error`. The socket, `connected`, the sent messages, the attempts and the timers are unchanged. |
| AgentConnection.ReplyFor | extension/js/lib/connection.js:105-123 | No reply exactly when `requestId` or `action` is falsy. Otherwise the reply carries the same `requestId`. It is `Unknown action: <a>` when no handler is registered. Otherwise it is success with the handler's result on `params \|\| {}`, or failure with the thrown message. |
| AgentConnection.Handled | extension/js/lib/connection.js:105-123 | `handleMessage` sends exactly the reply `ReplyFor` gives, on the current socket, when there is one and the socket is OPEN. Otherwise nothing changes. |
| AgentConnection.WithHandler | extension/js/lib/connection.js:131-133 | `registerHandler` adds or replaces the handler for that action and keeps the others. |
| AgentConnection.Disconnected | extension/js/lib/connection.js:145-150 | `disconnect` drops the socket and changes nothing else. |
| AgentConnection.StatusOf | extension/js/lib/connection.js:152-160 | The status report carries the connected flag, the browser id and name, the server URL and the attempt count of the manager. |
| AgentConnection.NewValid | extension/js/lib/connection.js:3-15 | A new manager satisfies the manager invariant: a stored id once initialized, known socket ids and bounded timer delays. |
| AgentConnection.ScheduleReconnectKeeps | extension/js/lib/connection.js:92-103 | Scheduling a reconnect keeps the invariant. |
| AgentConnection.TransmitKeeps | extension/js/lib/connection.js:125-129 | A send keeps the invariant. |
| AgentConnection.InitializedKeeps | extension/js/lib/connection.js:27-40 | Initialization keeps the invariant. |
| AgentConnection.ConnectKeeps | extension/js/lib/connection.js:42-90 | A connect keeps the invariant. |
| AgentConnection.OpenedKeeps | extension/js/lib/connection.js:51-63 | The open handler keeps the invariant. |
| AgentConnection.ClosedKeeps | extension/js/lib/connection.js:74-79 | The close handler keeps the invariant. |
| AgentConnection.HandledKeeps | extension/js/lib/connection.js:105-123 | Message handling keeps the invariant. |
| AgentConnection.StepKeeps | extension/js/lib/connection.js:42-150 | Every event keeps the invariant. |
| AgentConnection.RunKeeps | extension/js/lib/connection.js:42-150 | Every sequence of events keeps the invariant. |
| AgentConnection.ReconnectDelaysBounded | extension/js/lib/connection.js:92-103 | Every reconnect delay ever scheduled lies in [2000, 30000], whatever happens. |
| AgentConnection.InitRunsOnce | extension/js/lib/connection.js:27-40 | A second `init` changes nothing. A first one that generates an id stores it. |
| AgentConnection.OneReplyPerRequest | extension/js/lib/connection.js:105-123 | With the socket OPEN, a message with a truthy `requestId` and `action` gets exactly one reply, with the same `requestId`. Any other message leaves the manager unchanged. |
| AgentConnection.RegisteredHandlerAnswers | extension/js/lib/connection.js:110-117 | A handler just registered for an action answers that action's requests with its result, or with its thrown message. |
| AgentConnection.SendDroppedUnlessOpen | extension/js/lib/connection.js:125-129 | A send on a socket that is not OPEN is dropped. |
| AgentConnection.DisconnectKeepsAttempts | extension/js/lib/connection.js:145-150 | After `disconnect` there is no socket, but the attempt count and `connected` are left as they were. |
| AgentConnection.DisconnectStillReconnects | extension/js/lib/connection.js:145-150 | The close that follows `disconnect` still runs the close handler, which schedules a reconnect. |
| AgentConnection.StoredIdIdentifies | extension/js/lib/connection.js:30-33 | With an id already in storage, the first connection identifies with that stored id. |
| AgentConnection.RestartKeepsId | extension/js/lib/connection.js:27-40 | A manager built after a restart, from the storage an initialized manager left behind, initializes to the same browser id. |
| AgentConnection.FirstStartWithStoredId | extension/js/lib/connection.js:3-63 | A manager built with a truthy stored id, then connected and opened, sends exactly one message: the identify with that stored id. |
| AgentConnection.Connection.constructor | extension/js/lib/connection.js:3-15 | The object starts as `New` describes, with the storage value it is given. |
| AgentConnection.Connection.Init | extension/js/lib/connection.js:27-40 | `init` performs `Initialized` on the fields. |
| AgentConnection.Connection.ScheduleReconnect | extension/js/lib/connection.js:92-103 | `scheduleReconnect` performs `Rescheduled`. |
| AgentConnection.Connection.Connect | extension/js/lib/connection.js:42-90 | `connect` performs `ConnectAttempted`. |
| AgentConnection.Connection.Send | extension/js/lib/connection.js:125-129 | `send` performs `Transmit`. |
| AgentConnection.Connection.OnOpen | extension/js/lib/connection.js:51-63 | The open handler performs `Opened`. |
| AgentConnection.Connection.OnClose | extension/js/lib/connection.js:74-79 | The close handler performs `SocketClosed`. |
| AgentConnection.Connection.OnError | extension/js/lib/connection.js:81-84 | The error handler performs `SocketError`. |
| AgentConnection.Connection.HandleMessage | extension/js/lib/connection.js:105-123 | `handleMessage` performs `Handled`. |
| AgentConnection.Connection.RegisterHandler | extension/js/lib/connection.js:131-133 | `registerHandler` performs `WithHandler`. |
| AgentConnection.Connection.Disconnect | extension/js/lib/connection.js:145-150 | `disconnect` performs `Disconnected`. |
| AgentConnection.Connection.GetStatus | extension/js/lib/connection.js:152-160 | `getStatus` reports the connected flag, both ids, the server URL and the attempt count, and changes nothing. |
| Values.ParseInt | extension/js/api/network.js:111 | `parseInt` yields a number or NaN, and gives a number back unchanged. Leading white space is JavaScript's set: the white space and line terminator characters. |
| Values.ToNumber | extension/js/api/network.js:155 | Undefined, NaN and symbols coerce to NaN. |
| Values.ToNumberOfRendering | extension/js/api/network.js:155 | A number written out as a string coerces back to that number, and so does a one-item array holding it. |
| Values.Minus | extension/js/api/network.js:155 | Subtraction gives a number exactly when both sides coerce to numbers, and then it is the difference of the coerced values. Null counts as 0, booleans as 0 and 1, numeric strings as their value, and undefined as NaN. |
| Values.MinusOfNumericString | extension/js/api/network.js:155 | A numeric string minus a number is the difference of the two numbers. |
| Values.Inherited | extension/js/api/network.js:213-218 | A plain object reads a truthy inherited value exactly for the Object.prototype method names and `__proto__`, and a function for each method name. |
| Values.Lookup | extension/js/api/network.js:213-218 | `o[k]` gives the own property when there is one, and the inherited value otherwise. |
| Values.AssignProperty | server/index.js:171 | `o[k] = v` with a non-object `v` sets the own property, except that `__proto__` without an own property is left alone. |
| Values.PlusOne | extension/js/api/network.js:213-218 | `x + 1` adds 1 to a number, and appends `1` to a string, a function or an object rendered as a string. |
| Text.TrimEnd | extension/js/api/network.js:155 | Trimming the end leaves a prefix of the input that does not end in white space. |
| Text.NumericString | extension/js/api/network.js:155 | A string that is empty after trimming white space coerces to 0. |
| Text.NumericStringOfInt | extension/js/api/network.js:155 | A string coerces back to the number its decimal rendering spells. |
| Text.NumericStringRejects | extension/js/api/network.js:155 | A string holding any character other than white space, a sign or a digit coerces to NaN. |
| Bounded.Push | extension/js/api/network.js:80-85 | Push-then-shift appends the entry last and drops the oldest entry only when the length exceeds the bound, so a log within the bound stays within it. |
| Bounded.Window | extension/js/api/network.js:80-85 | The window is the last `max` elements of a sequence, or all of it when it is shorter. |
| Bounded.PushWindow | extension/js/api/network.js:80-85 | Pushing onto the window of a sequence gives the window of the sequence with that element appended. |
| Bounded.PushAllWindow | extension/js/api/network.js:80-85 | A run of pushes onto a log within the bound leaves the window of the log followed by everything pushed. |
| Network.RequestEntry | extension/js/api/network.js:15-24 | The logged entry has exactly the keys type, requestId, url, method, tabId, timeStamp and initiator, each copied from the details. So `type` is `details.type`, which overrides the literal `request`. |
| Network.FindIndex | extension/js/api/network.js:88 | `find` gives the first entry whose `requestId` is `===` the id, or none when no entry has it. |
| Network.UpdatedLog | extension/js/api/network.js:87-92 | The merge keeps the length. It changes only the first matching entry, which `Object.assign` overlays with the updates, and with no match the log is unchanged. |
| Network.UpdateKeepsLookups | extension/js/api/network.js:87-92 | Updates that do not touch `requestId` never change which entry any later lookup finds. |
| Network.QueryOf | extension/js/api/network.js:111-116 | `url`, `method` and `type` are copied unchanged. A truthy `tabId`, `limit` or `since` is `parseInt` of the parameter. Otherwise `tabId` and `since` are undefined and `limit` is 100. |
| Network.QueryOfStrings | extension/js/api/network.js:111-116 | Query-string values (strings) for `tabId`, `limit` and `since` parse to the numbers they spell, including 0, and the absent `url`, `method` and `type` stay undefined. |
| Network.GlobPattern | extension/js/api/network.js:125 | The pattern holds no `?`, and a glob without `*` or `?` is its own pattern. |
| Network.FilterChainIsConjunction | extension/js/api/network.js:118-141 | The filter chain fails exactly when a truthy `url` is not a string, or its pattern is not a valid regular expression, or a truthy `method` is not a string. The `url` failures come first, with their messages. Otherwise it keeps, in order, exactly the entries that pass every supplied filter. |
| Network.SliceStart | extension/js/api/network.js:144 | `slice(start)` starts at 0 for NaN. A negative start keeps the last `-start` elements, or all of them when there are fewer. A non-negative start is the start itself, capped at the length. |
| Network.DurationOf | extension/js/api/network.js:155 | `duration` is undefined exactly when `completedAt` is falsy. With numeric times it is `completedAt - timeStamp`. |
| Network.Summaries | extension/js/api/network.js:144-156 | The answer maps each entry to its summary, one for one. |
| Network.GetLog | extension/js/api/network.js:110-157 | `getLog` fails exactly when the filter chain fails, with the same message. Otherwise it answers at most as many entries as passed the filters. |
| Network.GetLogNewestFirst | extension/js/api/network.js:110-157 | Answer entry i summarizes the i-th matching log entry counted from the newest. Every entry in the answer is in the log and passes every supplied filter. |
| Network.GetLogLimit | extension/js/api/network.js:115-144 | A limit n >= 1 gives min(n, matching) entries, and at most 100 when no limit is given. A limit of 0 or NaN gives every matching entry, because `slice(-0)` is `slice(0)`. A negative limit -n gives every matching entry but the oldest n. |
| Network.GetRequest | extension/js/api/network.js:159-184 | `Request ID required` exactly when neither `requestId` nor `id` is truthy. `Request not found` exactly when no entry matches. Otherwise the answer is the detail of the first matching entry. |
| Network.TallyByTotal | extension/js/api/network.js:213-214 | The intended counts: a counts object sums to the number of entries counted into it. |
| Network.TallyByCount | extension/js/api/network.js:209-219 | The intended counts: a key's count is the number of entries counted under that key. A key is absent exactly when that count is 0. |
| Network.StatsOf | extension/js/api/network.js:200-220 | `total` is the number of filtered entries, `completed` and `failed` are at most `total`, and the three counts objects are well formed. |
| Network.StatsConsistent | extension/js/api/network.js:192-222 | `total` is the filtered count, and `completed` and `failed` are at most `total`. `byMethod` and `byType` each sum to `total`. `byStatus` sums to the number of entries with a truthy status code. |
| Network.StatusGroupsCounted | extension/js/api/network.js:216-219 | A status group appears in `byStatus` exactly when some entry with a truthy status code falls under it, with the count of those entries. |
| Network.CountEntries | extension/js/api/network.js:209-220 | The counting loop computes exactly the statistics `StatsOf` specifies. |
| Network.TallyAsWrittenAgrees | extension/js/api/network.js:213-218 | The counting statement on plain objects, as written, produces exactly the intended counts whenever no key is an Object.prototype name. |
| Network.ToStringMethodCountIsText | extension/js/api/network.js:213 | As written, one request with method `toString` leaves the text `function toString() { [native code] }1` as its count; the intended count is 1. |
| Network.ProtoMethodDropped | extension/js/api/network.js:213 | As written, one request with method `__proto__` is not counted at all; the intended tally counts it once and sums to 1. |
| Network.Copies | extension/js/api/network.js:9-28 | n listener sets add n copies of the same entry. |
| Network.UpdateIdempotent | extension/js/api/network.js:87-92 | A merge that leaves `requestId` alone, done twice, gives the same log as done once. That is why a second listener set does not change the result of an update listener. |
| Network.RestartedLoggingDuplicates | extension/js/api/network.js:9-28 | After logging is stopped and started again, two listener sets are registered, and a request is logged twice. |
| Network.NetworkLog.constructor | extension/js/api/network.js:4-6 | The log starts empty with logging off. |
| Network.NetworkLog.InitNetworkLogging | extension/js/api/network.js:9-78 | Initialization turns logging on and keeps the log. It registers one more listener set unless logging was already on, so it registers another after `stopLogging`. |
| Network.NetworkLog.AddLogEntry | extension/js/api/network.js:80-85 | `addLogEntry` is the bounded push, and the log stays within 1000 entries. |
| Network.NetworkLog.UpdateLogEntry | extension/js/api/network.js:87-92 | `updateLogEntry` is the first-match merge. |
| Network.NetworkLog.RunUpdateListeners | extension/js/api/network.js:30-75 | With logging on, each registered listener set runs the same merge, and the log ends as after one merge. With logging off, nothing changes. |
| Network.NetworkLog.OnBeforeRequest | extension/js/api/network.js:12-28 | With logging on, each registered listener set appends its own copy of the request entry through the bounded push, so the log becomes the last 1000 entries of the old log followed by one copy per set. With logging off it records nothing. |
| Network.NetworkLog.OnSendHeaders | extension/js/api/network.js:31-36 | With logging on, the listener merges the request headers. With logging off, it does nothing. |
| Network.NetworkLog.OnHeadersReceived | extension/js/api/network.js:42-48 | With logging on, the listener merges the status and the response headers. With logging off, it does nothing. |
| Network.NetworkLog.OnCompleted | extension/js/api/network.js:55-62 | With logging on, the listener merges completion. With logging off, it does nothing. |
| Network.NetworkLog.OnErrorOccurred | extension/js/api/network.js:67-73 | With logging on, the listener merges the error. With logging off, it does nothing. |
| Network.NetworkLog.StartLogging | extension/js/api/network.js:96-99 | `startLogging` initializes and answers `{logging: true}`. |
| Network.NetworkLog.StopLogging | extension/js/api/network.js:101-104 | `stopLogging` turns logging off and answers `{logging: false}`. The listeners stay registered. |
| Network.NetworkLog.IsLogging | extension/js/api/network.js:106-108 | `isLogging` reports the flag. |
| Network.NetworkLog.ClearLog | extension/js/api/network.js:186-190 | `clearLog` answers the previous length and leaves the log empty. |
| Network.NetworkLog.GetLogOf | extension/js/api/network.js:110-157 | `getLog` on the live log answers `GetLog` and changes nothing. |
| Network.NetworkLog.GetRequestOf | extension/js/api/network.js:159-184 | `getRequest` on the live log answers `GetRequest` and changes nothing. |
| Network.NetworkLog.GetStats | extension/js/api/network.js:192-223 | `getStats` answers the statistics of the tab-filtered log and changes nothing. |
| ConsoleCapture.Level.Name | extension/js/content/console-capture.js:58-62 | The recorded level is one of `log`, `warn`, `error`, `info` and `debug`. |
| ConsoleCapture.LevelNamesDistinct | extension/js/content/console-capture.js:58-62 | The five interceptors record five different level names. |
| ConsoleCapture.Serialize | extension/js/content/console-capture.js:22-36 | The cases in order: `undefined`, `null`, `[Function: <name or anonymous>]`, `Symbol(<description>)`, `<name>: <message>` for an error, the JSON text of an object or array or `[Object]` when that throws, and `String()` for the rest. |
| ConsoleCapture.SerializeAsString | extension/js/content/console-capture.js:22-36 | Any argument that is not a function, an error or an object serializes as `String()` renders it. This covers undefined, null, symbols and primitives. |
| ConsoleCapture.ErrorBeforeObject | extension/js/content/console-capture.js:27-28 | Errors are caught before the object case and always show `name: message`, even where `String()` would drop an empty message. |
| ConsoleCapture.SerializeAll | extension/js/content/console-capture.js:44 | Every argument is serialized, one for one. |
| ConsoleCapture.MessageOf | extension/js/content/console-capture.js:44 | No arguments give the empty message, and one argument gives its serialization. With two or more, the message starts with the first serialization and a space. |
| ConsoleCapture.MessageSplitsIntoArguments | extension/js/content/console-capture.js:44 | The message is the serialized arguments joined by one space. When no part holds a space, splitting at spaces gives the parts back. |
| ConsoleCapture.Recorded | extension/js/content/console-capture.js:41-50 | Each call appends exactly one entry {level, now, message} at the end. It drops the oldest entry only when the buffer was full, and the length stays at most 500. |
| ConsoleCapture.FullBufferSlides | extension/js/content/console-capture.js:47-50 | A full buffer stays at 500 entries and loses exactly its oldest one. |
| ConsoleCapture.Page.Inject | extension/js/content/console-capture.js:4-9 | A second injection does nothing. The first one creates an empty buffer and installs the interceptors. |
| ConsoleCapture.Page.Call | extension/js/content/console-capture.js:39-54 | An intercepted call records one entry in the bounded buffer and then forwards the call to the original console method. |

## Left out

- HTTP and WebSocket plumbing is not modelled:
  - body streaming, CORS headers, `OPTIONS`, the upgrade path check, `listen` and SIGINT;
  - the `err.statusCode || 500` error response. A route's thrown error is the `Failure` of `Finish`.
- JSON is not modelled. `JSON.parse` and `JSON.stringify` of envelopes and replies are taken as the identity on values, and a message that fails to parse is never delivered.
- Promises and timers are an explicit sequential event trace.
  - A timer is a `Timeout` event, and its delay is recorded but not compared with a clock.
  - A handler's `await` completes within the same step.
  - Events are never delivered concurrently.
- Date.now and Math.random are not modelled. They are the parameters `idStamp`, `connectedAt`, `now` and `suffix`.
- Socket objects are reduced to ids with a ready state. `ws.send` on the relay side never throws, and a closing socket's queued frames are not modelled.
- `notifyStatus` is left out: every status is appended to `notices`, as though an `onStatusChange` callback were installed. The null check on the callback and what the callback does are not modelled.
- `maxReconnectAttempts` is fixed at Infinity, as in the source. The "max attempts reached" branch is modelled but unreachable.
- The reset of `reconnectAttempts` that extension/js/background.js does after `disconnect` is not part of this model.
- Regular expressions are not modelled. The test of a URL against the pattern built from the `url` glob is the parameter `urlMatches`, and the error `new RegExp` throws for an invalid pattern is the parameter `regexError`.
- Floating point is not modelled.
  - `since`, `timeStamp` and status codes are integers.
  - `parseFloat` is modelled as `parseInt`.
  - `Math.floor(code / 100)` is integer division.
  - `Number()` of a string (Text.NumericString, Values.ToNumber) reads only optionally signed decimal integers between white space. Fractions, exponents, `0x`/`0o`/`0b` prefixes and `Infinity` coerce to NaN here.
  - A Symbol, which makes `Number()` and `+` throw, coerces to NaN instead.
- Network.StatusGroupsCounted: the keys of the `byMethod`, `byType` and `byStatus` objects are kept in insertion order. JavaScript lists integer-like property keys first. Objects used as keys are rendered with `String()`.
- Chrome's webRequest runs the listeners of each registered set in turn, and the model runs them in registration order. Nothing else runs in between.
- Network.FilterChainIsConjunction: `toUpperCase` is modelled on ASCII letters only (Text.ToUpper). Full Unicode case mapping is not modelled, so a method like `poſt`, which JavaScript upper-cases to `POST`, keeps no entries here.
- Values.AtLeast: `>=` is always a numeric comparison. The string-to-string comparison of JavaScript never occurs here, because `since` is a parsed number or NaN.
- Values.AssignProperty: only non-object values are assigned. Assigning an object to `__proto__`, which replaces the prototype, does not occur in the modelled code.
- Values.Inherited: Object.prototype is modelled as an object without fields of its own.
- Network.TallyByTotal: this states the intended counts. The counts objects as the source writes them differ for keys named after Object.prototype members; see the finding below.
- Network.TallyByCount: this states the intended counts, as for TallyByTotal; see the finding below.
- A request body that parses to something other than an object (an array, a number) is not modelled. The body is a map of fields.
- ConsoleCapture.Serialize: `JSON.stringify` is the parameter `stringify`, and `arg.name` of a function is given. `JSON.stringify` answering `undefined` (an object with a `toJSON` that returns undefined), which `join` turns into the empty string, is not modelled.
- The CLI, the popup, the other action handlers (tabs, windows, dom, storage and screenshot), console.js and the wiring in background.js are not part of this model.

## Findings

| source | as written | input that shows it | evidently intended | confidence | as-written member | corrected member |
|---|---|---|---|---|---|---|
| extension/js/api/network.js:213-214 | The counts objects are plain `{}`, so reading a key not yet counted finds the Object.prototype member of that name, and a write to `__proto__` goes to its accessor | one log entry whose method is `toString` (its count becomes the text `function toString() { [native code] }1`), or `__proto__` (it is not counted, so `byMethod` sums to 0 with `total` 1) | every method and type is counted as a number, and each counts object sums to `total` | not executed | Network.TallyAsWritten, Network.ToStringMethodCountIsText, Network.ProtoMethodDropped | Network.TallyBy, Network.TallyByTotal, Network.StatsConsistent |
