/** The agent side of extension/js/lib/connection.js: the WebSocket connection manager that runs in
    the extension's service worker. The pure part is a state machine over an `Agent` record, one
    transition per entry point or socket callback; class `Connection` holds the same fields and its
    methods are specified by those transitions. The socket is abstract: `Socket(id, readyState)` for
    the current one and an outbox `sent` of (socket, message) pairs. Reconnect timers are recorded by
    their delay; a timer firing is a later call of `Connect`. */
module AgentConnection {
  import opened Wrappers
  import opened Text
  import opened Values

  type SocketId = nat

  datatype ReadyState = Connecting | Open | Closing | Closed

  datatype Socket = Socket(id: SocketId, readyState: ReadyState)

  /** What an action handler does with its parameters: returns a result, or throws an error whose
      `message` property is given. */
  datatype HandlerOutcome = Returned(result: Value) | Threw(message: Value)

  type Handler = Value -> HandlerOutcome

  /** `maxReconnectAttempts`: a count, or Infinity. */
  datatype Limit = Unlimited | AtMost(n: nat)

  const DefaultServerUrl: string := "ws://127.0.0.1:8765/ws"
  const BaseDelayMs: nat := 2000
  const MaxDelayMs: nat := 30000
  const MaxReconnectAttempts: Limit := Unlimited

  datatype Agent = Agent(
    serverUrl: Value,
    browserName: Value,
    browserId: Value,
    ws: Option<Socket>,
    connected: bool,
    reconnectAttempts: nat,
    handlers: map<string, Handler>,
    initialized: bool,
    /** The `chromium-cli-browser-id` entry of chrome.storage.local (undefined when absent). */
    stored: Value,
    nextSocket: SocketId,
    sent: seq<(SocketId, Value)>,
    /** The statuses passed to notifyStatus, in order. */
    notices: seq<string>,
    /** The delays of the reconnect timers set so far, in order. */
    timers: seq<nat>)

  predicate KnownBrowserName(name: string) {
    name == "edge" || name == "brave" || name == "opera" || name == "vivaldi" || name == "chrome" || name == "chromium"
  }

  /** detectBrowserName: user-agent substrings tested in a fixed order, the first match deciding. */
  function DetectBrowserName(ua: string): (name: string)
    ensures KnownBrowserName(name)
    ensures name == "edge" <==> Contains(ua, "Edg/")
    ensures name == "brave" <==> !Contains(ua, "Edg/") && Contains(ua, "Brave")
    ensures name == "opera" <==>
      !Contains(ua, "Edg/") && !Contains(ua, "Brave") && (Contains(ua, "OPR/") || Contains(ua, "Opera"))
    ensures name == "vivaldi" <==>
      !Contains(ua, "Edg/") && !Contains(ua, "Brave") && !Contains(ua, "OPR/") && !Contains(ua, "Opera")
      && Contains(ua, "Vivaldi")
    ensures name == "chrome" <==>
      !Contains(ua, "Edg/") && !Contains(ua, "Brave") && !Contains(ua, "OPR/") && !Contains(ua, "Opera")
      && !Contains(ua, "Vivaldi") && Contains(ua, "Chrome")
    ensures name == "chromium" <==>
      !Contains(ua, "Edg/") && !Contains(ua, "Brave") && !Contains(ua, "OPR/") && !Contains(ua, "Opera")
      && !Contains(ua, "Vivaldi") && !Contains(ua, "Chrome")
  {
    if Contains(ua, "Edg/") then "edge"
    else if Contains(ua, "Brave") then "brave"
    else if Contains(ua, "OPR/") || Contains(ua, "Opera") then "opera"
    else if Contains(ua, "Vivaldi") then "vivaldi"
    else if Contains(ua, "Chrome") then "chrome"
    else "chromium"
  }

  /** The constructor: `config.serverUrl || default`, `config.browserName || detectBrowserName()`.
      `stored` is what chrome.storage.local holds under `chromium-cli-browser-id` when the worker
      starts: undefined on a first start, the id an earlier run stored after a restart. */
  function New(config: map<string, Value>, ua: string, stored: Value): (a: Agent)
    ensures !a.connected && a.ws == None && a.reconnectAttempts == 0 && a.handlers == map[] && !a.initialized
    ensures a.browserId == Null && a.stored == stored && a.sent == [] && a.timers == []
    ensures Truthy(a.serverUrl) && Truthy(a.browserName)
    ensures Truthy(Field(Obj(config), "serverUrl")) ==> a.serverUrl == Field(Obj(config), "serverUrl")
    ensures !Truthy(Field(Obj(config), "serverUrl")) ==> a.serverUrl == Str(DefaultServerUrl)
    ensures Truthy(Field(Obj(config), "browserName")) ==> a.browserName == Field(Obj(config), "browserName")
    ensures !Truthy(Field(Obj(config), "browserName")) ==> a.browserName == Str(DetectBrowserName(ua))
  {
    var c := Obj(config);
    Agent(Or(Field(c, "serverUrl"), Str(DefaultServerUrl)), Or(Field(c, "browserName"), Str(DetectBrowserName(ua))),
          Null, None, false, 0, map[], false, stored, 0, [], [], [])
  }

  // ---------------------------------------------------------------- reconnect backoff

  /** The delay before reconnect attempt `attempts`: linear in the attempt, capped. */
  function ReconnectDelay(attempts: nat): (d: nat)
    ensures attempts >= 1 ==> BaseDelayMs <= d <= MaxDelayMs
    ensures d == MaxDelayMs || d == BaseDelayMs * attempts
  {
    if BaseDelayMs * attempts < MaxDelayMs then BaseDelayMs * attempts else MaxDelayMs
  }

  lemma ReconnectDelayMonotone(m: nat, n: nat)
    requires m <= n
    ensures ReconnectDelay(m) <= ReconnectDelay(n)
  {
    assert BaseDelayMs * m <= BaseDelayMs * n;
  }

  predicate Reached(attempts: nat, limit: Limit) {
    limit.AtMost? && attempts >= limit.n
  }

  /** scheduleReconnect: unless the limit is reached, one more attempt and a timer for its delay. */
  function Rescheduled(a: Agent): (r: Agent)
    ensures r.reconnectAttempts == a.reconnectAttempts + 1
    ensures r.timers == a.timers + [ReconnectDelay(r.reconnectAttempts)]
    ensures r == a.(reconnectAttempts := r.reconnectAttempts, timers := r.timers)
  {
    if Reached(a.reconnectAttempts, MaxReconnectAttempts) then a
    else
      var n := a.reconnectAttempts + 1;
      a.(reconnectAttempts := n, timers := a.timers + [ReconnectDelay(n)])
  }

  /** Two reconnects in a row wait at least as long the second time. */
  lemma ConsecutiveDelaysNonDecreasing(a: Agent)
    ensures var r := Rescheduled(Rescheduled(a));
      |r.timers| == |a.timers| + 2 && r.timers[|a.timers|] <= r.timers[|a.timers| + 1]
  {
    ReconnectDelayMonotone(a.reconnectAttempts + 1, a.reconnectAttempts + 2);
  }

  // ---------------------------------------------------------------- transitions

  /** init: runs once; reuses a truthy stored id, otherwise stores `<browserName>-<now>-<suffix>`.
      `now` stands for Date.now() and `suffix` for the random base-36 part. */
  function Initialized(a: Agent, now: int, suffix: string): (r: Agent)
    ensures r.initialized
    ensures a.initialized ==> r == a
    ensures !a.initialized && Truthy(a.stored) ==> r == a.(browserId := a.stored, initialized := true)
    ensures !a.initialized && !Truthy(a.stored) ==>
      r.browserId == Str(JsString(a.browserName) + "-" + IntToString(now) + "-" + suffix) && r.stored == r.browserId
    ensures r == a.(browserId := r.browserId, stored := r.stored, initialized := true)
  {
    if a.initialized then a
    else if Truthy(a.stored) then a.(browserId := a.stored, initialized := true)
    else
      var id := Str(JsString(a.browserName) + "-" + IntToString(now) + "-" + suffix);
      a.(browserId := id, stored := id, initialized := true)
  }

  predicate IsOpen(a: Agent) {
    a.ws.Some? && a.ws.value.readyState == Open
  }

  /** connect: init, then nothing while the socket is OPEN; otherwise a new socket, or a reconnect
      when the WebSocket constructor throws. */
  function ConnectAttempted(a: Agent, now: int, suffix: string, constructorThrows: bool): (r: Agent)
    ensures var b := Initialized(a, now, suffix);
      r.initialized && r.browserId == b.browserId && r.stored == b.stored
    ensures IsOpen(a) ==> r == Initialized(a, now, suffix)
    ensures r.sent == a.sent && r.connected == a.connected && r.notices == a.notices && r.handlers == a.handlers
    ensures !IsOpen(a) && !constructorThrows ==>
      && r.ws == Some(Socket(a.nextSocket, Connecting)) && r.nextSocket == a.nextSocket + 1
      && r.reconnectAttempts == a.reconnectAttempts && r.timers == a.timers
    ensures !IsOpen(a) && constructorThrows ==>
      && r.ws == a.ws && r.nextSocket == a.nextSocket
      && r.reconnectAttempts == a.reconnectAttempts + 1 && r.timers == a.timers + [ReconnectDelay(a.reconnectAttempts + 1)]
  {
    var b := Initialized(a, now, suffix);
    if IsOpen(b) then b
    else if constructorThrows then Rescheduled(b)
    else b.(ws := Some(Socket(b.nextSocket, Connecting)), nextSocket := b.nextSocket + 1)
  }

  /** send / ws.send: the message goes out only on an OPEN socket. */
  function Transmit(a: Agent, data: Value): (r: Agent)
    ensures IsOpen(a) ==> r == a.(sent := a.sent + [(a.ws.value.id, data)])
    ensures !IsOpen(a) ==> r == a
  {
    if IsOpen(a) then a.(sent := a.sent + [(a.ws.value.id, data)]) else a
  }

  function IdentifyMessage(browserId: Value, browserName: Value): Value {
    Obj(map["type" := Str("identify"), "browserId" := browserId, "browserName" := browserName])
  }

  /** Socket `sock` reaching OPEN. The handler reads `this.ws`, which may be a newer socket. */
  function Opened(a: Agent, sock: SocketId): (r: Agent)
    ensures r.connected && r.reconnectAttempts == 0 && r.notices == a.notices + ["connected"]
    ensures r.browserId == a.browserId && r.timers == a.timers && r.nextSocket == a.nextSocket
    ensures a.ws.Some? && a.ws.value.id == sock ==>
      r.ws == Some(Socket(sock, Open)) && r.sent == a.sent + [(sock, IdentifyMessage(a.browserId, a.browserName))]
    ensures !(a.ws.Some? && a.ws.value.id == sock) ==>
      && r.ws == a.ws
      && r.sent == if IsOpen(a) then a.sent + [(a.ws.value.id, IdentifyMessage(a.browserId, a.browserName))] else a.sent
  {
    var b := if a.ws.Some? && a.ws.value.id == sock then a.(ws := Some(Socket(sock, Open))) else a;
    var c := b.(connected := true, reconnectAttempts := 0, notices := b.notices + ["connected"]);
    Transmit(c, IdentifyMessage(c.browserId, c.browserName))
  }

  /** Socket `sock` closing: its onclose handler. */
  function SocketClosed(a: Agent, sock: SocketId): (r: Agent)
    ensures !r.connected && r.notices == a.notices + ["disconnected"] && r.sent == a.sent
    ensures a.ws.Some? && a.ws.value.id == sock ==> r.ws == Some(Socket(sock, Closed))
    ensures !(a.ws.Some? && a.ws.value.id == sock) ==> r.ws == a.ws
    ensures r.reconnectAttempts == a.reconnectAttempts + 1
    ensures r.timers == a.timers + [ReconnectDelay(a.reconnectAttempts + 1)]
  {
    var b := if a.ws.Some? && a.ws.value.id == sock then a.(ws := Some(Socket(sock, Closed))) else a;
    Rescheduled(b.(connected := false, notices := b.notices + ["disconnected"]))
  }

  /** Socket `sock` reporting an error: its onerror handler only notifies. */
  function SocketError(a: Agent, sock: SocketId): (r: Agent)
    ensures r.notices == a.notices + ["error"]
    ensures r.ws == a.ws && r.connected == a.connected && r.sent == a.sent
    ensures r.reconnectAttempts == a.reconnectAttempts && r.timers == a.timers
  {
    a.(notices := a.notices + ["error"])
  }

  /** The reply handleMessage sends for `msg`, or None when it sends nothing. */
  function ReplyFor(handlers: map<string, Handler>, msg: Value): (r: Option<Value>)
    ensures r.None? <==> !Truthy(Field(msg, "requestId")) || !Truthy(Field(msg, "action"))
    ensures r.Some? ==> Field(r.value, "requestId") == Field(msg, "requestId")
    ensures r.Some? && !(Field(msg, "action").Str? && Field(msg, "action").s in handlers) ==>
      Field(r.value, "success") == Bool(false)
      && Field(r.value, "error") == Str("Unknown action: " + JsString(Field(msg, "action")))
    ensures r.Some? && Field(msg, "action").Str? && Field(msg, "action").s in handlers ==>
      match handlers[Field(msg, "action").s](Or(Field(msg, "params"), Obj(map[])))
      case Returned(v) => Field(r.value, "success") == Bool(true) && Field(r.value, "data") == v
      case Threw(m) => Field(r.value, "success") == Bool(false) && Field(r.value, "error") == m
  {
    var requestId := Field(msg, "requestId");
    var action := Field(msg, "action");
    if !Truthy(requestId) || !Truthy(action) then None
    else if !(action.Str? && action.s in handlers) then
      Some(Obj(map["requestId" := requestId, "success" := Bool(false),
                   "error" := Str("Unknown action: " + JsString(action))]))
    else
      match handlers[action.s](Or(Field(msg, "params"), Obj(map[])))
      case Returned(v) => Some(Obj(map["requestId" := requestId, "success" := Bool(true), "data" := v]))
      case Threw(m) => Some(Obj(map["requestId" := requestId, "success" := Bool(false), "error" := m]))
  }

  /** handleMessage, with the handler completing before anything else happens. */
  function Handled(a: Agent, msg: Value): (r: Agent)
    ensures ReplyFor(a.handlers, msg).None? || !IsOpen(a) ==> r == a
    ensures ReplyFor(a.handlers, msg).Some? && IsOpen(a) ==>
      r == a.(sent := a.sent + [(a.ws.value.id, ReplyFor(a.handlers, msg).value)])
  {
    match ReplyFor(a.handlers, msg)
    case None => a
    case Some(reply) => Transmit(a, reply)
  }

  /** registerHandler: a later registration for the same action replaces the earlier one. */
  function WithHandler(a: Agent, action: string, handler: Handler): (r: Agent)
    ensures r.handlers.Keys == a.handlers.Keys + {action} && r.handlers[action] == handler
    ensures forall k :: k in a.handlers && k != action ==> r.handlers[k] == a.handlers[k]
  {
    a.(handlers := a.handlers[action := handler])
  }

  /** disconnect: the socket is closed and forgotten; the reconnect count is left alone. */
  function Disconnected(a: Agent): (r: Agent)
    ensures r.ws == None
    ensures r == a.(ws := None)
  {
    a.(ws := None)
  }

  datatype StatusReport = StatusReport(connected: bool, browserId: Value, browserName: Value,
                                       serverUrl: Value, reconnectAttempts: nat)

  /** getStatus: a snapshot of the five fields. */
  function StatusOf(a: Agent): (r: StatusReport)
    ensures r.connected == a.connected && r.browserId == a.browserId && r.browserName == a.browserName
    ensures r.serverUrl == a.serverUrl && r.reconnectAttempts == a.reconnectAttempts
  {
    StatusReport(a.connected, a.browserId, a.browserName, a.serverUrl, a.reconnectAttempts)
  }

  // ---------------------------------------------------------------- event traces

  datatype Event =
    | ConnectCall(now: int, suffix: string, constructorThrows: bool)
    | OpenEvent(sock: SocketId)
    | CloseEvent(sock: SocketId)
    | ErrorEvent(sock: SocketId)
    | MessageEvent(msg: Value)
    | SendCall(data: Value)
    | RegisterCall(action: string, handler: Handler)
    | DisconnectCall

  function Step(a: Agent, e: Event): Agent {
    match e
    case ConnectCall(now, suffix, throws) => ConnectAttempted(a, now, suffix, throws)
    case OpenEvent(sock) => Opened(a, sock)
    case CloseEvent(sock) => SocketClosed(a, sock)
    case ErrorEvent(sock) => SocketError(a, sock)
    case MessageEvent(msg) => Handled(a, msg)
    case SendCall(data) => Transmit(a, data)
    case RegisterCall(action, handler) => WithHandler(a, action, handler)
    case DisconnectCall => Disconnected(a)
  }

  function Run(a: Agent, events: seq<Event>): Agent
    decreases |events|
  {
    if events == [] then a else Run(Step(a, events[0]), events[1..])
  }

  /** What holds of the manager's fields between events. */
  ghost predicate Valid(a: Agent) {
    && (a.initialized ==> a.browserId == a.stored && Truthy(a.stored))
    && (a.ws.Some? ==> a.ws.value.id < a.nextSocket)
    && (forall i :: 0 <= i < |a.sent| ==> a.sent[i].0 < a.nextSocket)
    && (forall i :: 0 <= i < |a.timers| ==> BaseDelayMs <= a.timers[i] <= MaxDelayMs)
  }

  lemma NewValid(config: map<string, Value>, ua: string, stored: Value)
    ensures Valid(New(config, ua, stored))
  {
  }

  lemma ScheduleReconnectKeeps(a: Agent)
    requires Valid(a)
    ensures Valid(Rescheduled(a))
  {
    var r := Rescheduled(a);
    forall i | 0 <= i < |r.timers|
      ensures BaseDelayMs <= r.timers[i] <= MaxDelayMs
    {
      if i < |a.timers| {
        assert r.timers[i] == a.timers[i];
      }
    }
  }

  lemma TransmitKeeps(a: Agent, data: Value)
    requires Valid(a)
    ensures Valid(Transmit(a, data))
  {
    var r := Transmit(a, data);
    forall i | 0 <= i < |r.sent|
      ensures r.sent[i].0 < r.nextSocket
    {
      if i < |a.sent| {
        assert r.sent[i] == a.sent[i];
      }
    }
  }

  lemma InitializedKeeps(a: Agent, now: int, suffix: string)
    requires Valid(a)
    ensures Valid(Initialized(a, now, suffix))
  {
  }

  lemma ConnectKeeps(a: Agent, now: int, suffix: string, constructorThrows: bool)
    requires Valid(a)
    ensures Valid(ConnectAttempted(a, now, suffix, constructorThrows))
  {
    var b := Initialized(a, now, suffix);
    InitializedKeeps(a, now, suffix);
    if !IsOpen(b) && constructorThrows {
      ScheduleReconnectKeeps(b);
    }
  }

  lemma OpenedKeeps(a: Agent, sock: SocketId)
    requires Valid(a)
    ensures Valid(Opened(a, sock))
  {
    var b := if a.ws.Some? && a.ws.value.id == sock then a.(ws := Some(Socket(sock, Open))) else a;
    TransmitKeeps(b.(connected := true, reconnectAttempts := 0, notices := b.notices + ["connected"]),
                  IdentifyMessage(b.browserId, b.browserName));
  }

  lemma ClosedKeeps(a: Agent, sock: SocketId)
    requires Valid(a)
    ensures Valid(SocketClosed(a, sock))
  {
    var b := if a.ws.Some? && a.ws.value.id == sock then a.(ws := Some(Socket(sock, Closed))) else a;
    ScheduleReconnectKeeps(b.(connected := false, notices := b.notices + ["disconnected"]));
  }

  lemma HandledKeeps(a: Agent, msg: Value)
    requires Valid(a)
    ensures Valid(Handled(a, msg))
  {
    var reply := ReplyFor(a.handlers, msg);
    if reply.Some? {
      TransmitKeeps(a, reply.value);
    }
  }

  lemma StepKeeps(a: Agent, e: Event)
    requires Valid(a)
    ensures Valid(Step(a, e))
  {
    match e
    case ConnectCall(now, suffix, throws) => ConnectKeeps(a, now, suffix, throws);
    case OpenEvent(sock) => OpenedKeeps(a, sock);
    case CloseEvent(sock) => ClosedKeeps(a, sock);
    case ErrorEvent(sock) =>
    case MessageEvent(msg) => HandledKeeps(a, msg);
    case SendCall(data) => TransmitKeeps(a, data);
    case RegisterCall(action, handler) =>
    case DisconnectCall =>
  }

  lemma {:induction false} RunKeeps(a: Agent, events: seq<Event>)
    requires Valid(a)
    ensures Valid(Run(a, events))
    decreases |events|
  {
    if events != [] {
      StepKeeps(a, events[0]);
      RunKeeps(Step(a, events[0]), events[1..]);
    }
  }

  /** Every reconnect timer ever set waits between 2 and 30 seconds. */
  lemma ReconnectDelaysBounded(config: map<string, Value>, ua: string, stored: Value, events: seq<Event>)
    ensures var r := Run(New(config, ua, stored), events);
      forall i :: 0 <= i < |r.timers| ==> BaseDelayMs <= r.timers[i] <= MaxDelayMs
  {
    NewValid(config, ua, stored);
    RunKeeps(New(config, ua, stored), events);
  }

  // ---------------------------------------------------------------- properties

  /** A second init changes nothing, and the id from the first is the one in storage. */
  lemma InitRunsOnce(a: Agent, now1: int, suffix1: string, now2: int, suffix2: string)
    ensures var b := Initialized(a, now1, suffix1);
      Initialized(b, now2, suffix2) == b && (!a.initialized ==> b.stored == b.browserId)
  {
  }

  /** A well-formed request on an open socket gets exactly one reply, carrying its requestId;
      a message without requestId or action gets none. */
  lemma OneReplyPerRequest(a: Agent, msg: Value)
    ensures var r := Handled(a, msg);
      && (Truthy(Field(msg, "requestId")) && Truthy(Field(msg, "action")) && IsOpen(a) ==>
            |r.sent| == |a.sent| + 1 && r.sent[..|a.sent|] == a.sent
            && r.sent[|a.sent|].0 == a.ws.value.id
            && Field(r.sent[|a.sent|].1, "requestId") == Field(msg, "requestId"))
      && (!Truthy(Field(msg, "requestId")) || !Truthy(Field(msg, "action")) ==> r == a)
  {
    var reply := ReplyFor(a.handlers, msg);
    if reply.Some? && IsOpen(a) {
      assert Handled(a, msg).sent == a.sent + [(a.ws.value.id, reply.value)];
    }
  }

  /** After registerHandler(action, h), a request for `action` is answered by h, not an older handler. */
  lemma RegisteredHandlerAnswers(a: Agent, action: string, h: Handler, requestId: Value, params: Value)
    requires Truthy(requestId) && action != ""
    ensures var msg := Obj(map["requestId" := requestId, "action" := Str(action), "params" := params]);
      var reply := ReplyFor(WithHandler(a, action, h).handlers, msg);
      reply.Some? &&
      match h(Or(params, Obj(map[])))
      case Returned(v) => Field(reply.value, "success") == Bool(true) && Field(reply.value, "data") == v
      case Threw(m) => Field(reply.value, "success") == Bool(false) && Field(reply.value, "error") == m
  {
    var msg := Obj(map["requestId" := requestId, "action" := Str(action), "params" := params]);
    assert Field(msg, "action") == Str(action) && Field(msg, "requestId") == requestId;
    assert Field(msg, "params") == params;
    assert WithHandler(a, action, h).handlers[action] == h;
  }

  /** Data sent while the socket is not OPEN is dropped. */
  lemma SendDroppedUnlessOpen(a: Agent, data: Value)
    requires !IsOpen(a)
    ensures Transmit(a, data) == a
  {
  }

  /** disconnect forgets the socket but keeps connected and reconnectAttempts as they were. */
  lemma DisconnectKeepsAttempts(a: Agent)
    ensures var r := Disconnected(a);
      r.ws == None && !IsOpen(r) && r.reconnectAttempts == a.reconnectAttempts && r.connected == a.connected
  {
  }

  /** disconnect closes the socket but leaves its onclose handler in place, so the close that follows
      still schedules a reconnect. */
  lemma DisconnectStillReconnects(a: Agent)
    requires a.ws.Some?
    ensures var r := SocketClosed(Disconnected(a), a.ws.value.id);
      && r.ws == None && !r.connected
      && r.reconnectAttempts == a.reconnectAttempts + 1
      && r.timers == a.timers + [ReconnectDelay(a.reconnectAttempts + 1)]
  {
  }

  /** The browser id travels unchanged from a stored value into the identify message. */
  lemma StoredIdIdentifies(a: Agent, now: int, suffix: string)
    requires !a.initialized && Truthy(a.stored) && !IsOpen(a)
    ensures var b := Opened(ConnectAttempted(a, now, suffix, false), a.nextSocket);
      b.sent == a.sent + [(a.nextSocket, IdentifyMessage(a.stored, a.browserName))]
  {
  }

  /** A worker restarted with the storage an initialized run left behind comes back under the same
      browser id, whatever the clock and the random suffix say the second time. */
  lemma RestartKeepsId(a: Agent, config: map<string, Value>, ua: string, now: int, suffix: string)
    requires Valid(a) && a.initialized
    ensures Initialized(New(config, ua, a.stored), now, suffix).browserId == a.browserId
  {
  }

  /** A fresh worker finding an id in storage identifies with it on its first open socket. */
  lemma FirstStartWithStoredId(config: map<string, Value>, ua: string, stored: Value, now: int, suffix: string)
    requires Truthy(stored)
    ensures var a := New(config, ua, stored);
      Opened(ConnectAttempted(a, now, suffix, false), 0).sent == [(0, IdentifyMessage(stored, a.browserName))]
  {
    StoredIdIdentifies(New(config, ua, stored), now, suffix);
  }

  // ---------------------------------------------------------------- the manager object

  class Connection {
    var serverUrl: Value
    var browserName: Value
    var browserId: Value
    var ws: Option<Socket>
    var connected: bool
    var reconnectAttempts: nat
    var handlers: map<string, Handler>
    var initialized: bool
    var stored: Value
    var nextSocket: SocketId
    var sent: seq<(SocketId, Value)>
    var notices: seq<string>
    var timers: seq<nat>

    function Model(): Agent
      reads this
    {
      Agent(serverUrl, browserName, browserId, ws, connected, reconnectAttempts, handlers, initialized,
            stored, nextSocket, sent, notices, timers)
    }

    constructor (config: map<string, Value>, ua: string, stored: Value)
      ensures Model() == New(config, ua, stored)
    {
      var c := Obj(config);
      serverUrl := Or(Field(c, "serverUrl"), Str(DefaultServerUrl));
      browserName := Or(Field(c, "browserName"), Str(DetectBrowserName(ua)));
      browserId := Null;
      ws := None;
      connected := false;
      reconnectAttempts := 0;
      handlers := map[];
      initialized := false;
      this.stored := stored;
      nextSocket := 0;
      sent := [];
      notices := [];
      timers := [];
    }

    method Init(now: int, suffix: string)
      modifies this
      ensures Model() == Initialized(old(Model()), now, suffix)
    {
      if initialized {
        return;
      }
      if Truthy(stored) {
        browserId := stored;
      } else {
        browserId := Str(JsString(browserName) + "-" + IntToString(now) + "-" + suffix);
        stored := browserId;
      }
      initialized := true;
    }

    method ScheduleReconnect()
      modifies this
      ensures Model() == Rescheduled(old(Model()))
    {
      if Reached(reconnectAttempts, MaxReconnectAttempts) {
        return;
      }
      reconnectAttempts := reconnectAttempts + 1;
      var delay := ReconnectDelay(reconnectAttempts);
      timers := timers + [delay];
    }

    method Connect(now: int, suffix: string, constructorThrows: bool)
      modifies this
      ensures Model() == ConnectAttempted(old(Model()), now, suffix, constructorThrows)
    {
      Init(now, suffix);
      if ws.Some? && ws.value.readyState == Open {
        return;
      }
      if constructorThrows {
        ScheduleReconnect();
      } else {
        ws := Some(Socket(nextSocket, Connecting));
        nextSocket := nextSocket + 1;
      }
    }

    method Send(data: Value)
      modifies this
      ensures Model() == Transmit(old(Model()), data)
    {
      if ws.Some? && ws.value.readyState == Open {
        sent := sent + [(ws.value.id, data)];
      }
    }

    method OnOpen(sock: SocketId)
      modifies this
      ensures Model() == Opened(old(Model()), sock)
    {
      if ws.Some? && ws.value.id == sock {
        ws := Some(Socket(sock, Open));
      }
      connected := true;
      reconnectAttempts := 0;
      notices := notices + ["connected"];
      // this.ws.send: throws on a null or CONNECTING socket and discards on a closing one
      if ws.Some? && ws.value.readyState == Open {
        sent := sent + [(ws.value.id, IdentifyMessage(browserId, browserName))];
      }
    }

    method OnClose(sock: SocketId)
      modifies this
      ensures Model() == SocketClosed(old(Model()), sock)
    {
      if ws.Some? && ws.value.id == sock {
        ws := Some(Socket(sock, Closed));
      }
      connected := false;
      notices := notices + ["disconnected"];
      ScheduleReconnect();
    }

    method OnError(sock: SocketId)
      modifies this
      ensures Model() == SocketError(old(Model()), sock)
    {
      notices := notices + ["error"];
    }

    method HandleMessage(msg: Value)
      modifies this
      ensures Model() == Handled(old(Model()), msg)
    {
      var reply := ReplyFor(handlers, msg);
      if reply.Some? {
        Send(reply.value);
      }
    }

    method RegisterHandler(action: string, handler: Handler)
      modifies this
      ensures Model() == WithHandler(old(Model()), action, handler)
    {
      handlers := handlers[action := handler];
    }

    method Disconnect()
      modifies this
      ensures Model() == Disconnected(old(Model()))
    {
      if ws.Some? {
        ws := None;
      }
    }

    method GetStatus() returns (status: StatusReport)
      ensures status == StatusOf(Model())
    {
      status := StatusReport(connected, browserId, browserName, serverUrl, reconnectAttempts);
    }
  }
}
