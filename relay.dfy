/** The relay's state (server/index.js) as a value, and one transition function per event:
    a browser connects, a socket closes, a browser's message arrives, a request's timer fires, and an
    HTTP request is routed. The registry is the insertion-ordered `browsers` map; each pending request
    is a key of `pending` (with the delay of its timer) until its promise settles, and a settled
    promise is a write-once entry of `outcomes`. Sockets are outboxes: `wire` lists every envelope
    sent, with the socket it went to. */
module Relay {
  import opened Wrappers
  import opened Text
  import opened Values
  import opened JsMaps
  import opened Routes

  /** The identity of a WebSocket object accepted by the server. */
  type SocketId = nat

  /** `timeoutMs` default of sendToBrowser and sendToAllBrowsers. */
  const DefaultTimeoutMs: nat := 30000

  datatype BrowserRecord = BrowserRecord(ws: SocketId, name: string, connectedAt: int)

  /** How a request's promise settled. */
  datatype Outcome = Resolved(data: Value) | Rejected(message: string)

  datatype Outgoing = Outgoing(socket: SocketId, message: Value)

  datatype State = State(
    browsers: JsMap<string, BrowserRecord>,
    closeIds: map<SocketId, string>,  // the browser id each open socket's close listener deletes
    pending: map<string, nat>,        // request id -> delay of its armed timer
    outcomes: map<string, Outcome>,   // request id -> settlement, written once
    counter: nat,                     // requestIdCounter
    wire: seq<Outgoing>)

  function Initial(): (s: State)
    ensures Valid(s)
    ensures s.browsers.keys == [] && s.pending == map[] && s.outcomes == map[] && s.counter == 0
  {
    State(EmptyMap(), map[], map[], map[], 0, [])
  }

  /** `req-N`, the id of the N-th request. */
  function RequestId(n: nat): string {
    "req-" + NatToString(n)
  }

  /** `id` is `req-N` for some N in 1..counter: an id the counter has already handed out. */
  predicate Issued(id: string, counter: nat) {
    && |id| > 4
    && id[..4] == "req-"
    && match ParseNat(id[4..]) case Some(n) => 1 <= n <= counter case None => false
  }

  lemma RequestIdIssued(n: nat, counter: nat)
    ensures Issued(RequestId(n), counter) <==> 1 <= n <= counter
  {
    var id := RequestId(n);
    assert id[..4] == "req-";
    assert id[4..] == NatToString(n);
    ParseNatToString(n);
  }

  /** The relay's invariant: the registry is a well-formed ordered map, no request is both pending and
      settled, and every pending or settled id is one the counter has handed out. */
  ghost predicate Valid(s: State) {
    && s.browsers.Valid()
    && (forall id :: id in s.pending ==> id !in s.outcomes)
    && (forall id :: id in s.pending ==> Issued(id, s.counter))
    && (forall id :: id in s.outcomes ==> Issued(id, s.counter))
  }

  // ---------------------------------------------------------------- registry

  /** The `x-browser-id` header, or `browser-<time>` when it is missing or empty. */
  function BrowserIdOf(idHeader: Option<string>, idStamp: int): string {
    if idHeader.Some? && idHeader.value != "" then idHeader.value else "browser-" + IntToString(idStamp)
  }

  /** The `x-browser-name` header, or `unknown`. */
  function BrowserNameOf(nameHeader: Option<string>): string {
    if nameHeader.Some? && nameHeader.value != "" then nameHeader.value else "unknown"
  }

  /** A WebSocket connection is accepted: its record is set under its id, replacing any record with
      that id, and its close listener remembers the id. */
  function Connected(s: State, ws: SocketId, idHeader: Option<string>, nameHeader: Option<string>,
                     idStamp: int, connectedAt: int): (t: State)
    ensures var id := BrowserIdOf(idHeader, idStamp);
      && t.browsers.values == s.browsers.values[id := BrowserRecord(ws, BrowserNameOf(nameHeader), connectedAt)]
      && t.closeIds == s.closeIds[ws := id]
    ensures t.pending == s.pending && t.outcomes == s.outcomes && t.counter == s.counter && t.wire == s.wire
    ensures Valid(s) ==> Valid(t)
  {
    var id := BrowserIdOf(idHeader, idStamp);
    s.(browsers := s.browsers.Set(id, BrowserRecord(ws, BrowserNameOf(nameHeader), connectedAt)),
       closeIds := s.closeIds[ws := id])
  }

  /** A socket closes: its listener deletes the record under the id it captured, whichever socket that
      record now belongs to. Pending requests are left to their timers. */
  function Closed(s: State, ws: SocketId): (t: State)
    ensures ws !in s.closeIds ==> t == s
    ensures ws in s.closeIds ==>
      && t.browsers.values == s.browsers.values - {s.closeIds[ws]}
      && t.browsers.keys == Without(s.browsers.keys, s.closeIds[ws])
      && t.closeIds == s.closeIds - {ws}
    ensures t.pending == s.pending && t.outcomes == s.outcomes && t.counter == s.counter && t.wire == s.wire
    ensures Valid(s) ==> Valid(t)
  {
    if ws in s.closeIds then
      s.(browsers := s.browsers.Delete(s.closeIds[ws]), closeIds := s.closeIds - {ws})
    else s
  }

  // ---------------------------------------------------------------- correlator

  /** How a reply settles its request: resolved with `data` on a truthy `success`, otherwise rejected
      with `String(error || 'Unknown error')`. */
  function Settlement(msg: Value): (o: Outcome)
    ensures Truthy(Field(msg, "success")) ==> o == Resolved(Field(msg, "data"))
    ensures !Truthy(Field(msg, "success")) && Field(msg, "error").Str? && Field(msg, "error").s != "" ==>
              o == Rejected(Field(msg, "error").s)
    ensures !Truthy(Field(msg, "success")) && !Truthy(Field(msg, "error")) ==> o == Rejected("Unknown error")
  {
    if Truthy(Field(msg, "success")) then Resolved(Field(msg, "data"))
    else Rejected(JsString(Or(Field(msg, "error"), Str("Unknown error"))))
  }

  /** A request id the message names that is pending, if any. */
  predicate Matches(s: State, msg: Value) {
    var rid := Field(msg, "requestId");
    Truthy(rid) && rid.Str? && rid.s in s.pending
  }

  /** handleBrowserMessage: a message without a truthy `requestId`, or naming no pending request,
      changes nothing; a matching one cancels the timer, removes the entry and settles it. */
  function Replied(s: State, msg: Value): (t: State)
    ensures !Matches(s, msg) ==> t == s
    ensures Matches(s, msg) ==>
      var id := Field(msg, "requestId").s;
      t == s.(pending := s.pending - {id}, outcomes := s.outcomes[id := Settlement(msg)])
    ensures Valid(s) ==> Valid(t)
  {
    var rid := Field(msg, "requestId");
    if !Truthy(rid) then s
    else if !(rid.Str? && rid.s in s.pending) then s
    else s.(pending := s.pending - {rid.s}, outcomes := s.outcomes[rid.s := Settlement(msg)])
  }

  /** The timer of request `id` fires: the entry is removed and the request rejected. A timer that was
      cleared never fires, which the model expresses by ignoring ids that are not pending. */
  function TimedOut(s: State, id: string): (t: State)
    ensures id !in s.pending ==> t == s
    ensures id in s.pending ==>
      t == s.(pending := s.pending - {id}, outcomes := s.outcomes[id := Rejected("Request timeout")])
    ensures Valid(s) ==> Valid(t)
  {
    if id in s.pending then
      s.(pending := s.pending - {id}, outcomes := s.outcomes[id := Rejected("Request timeout")])
    else s
  }

  /** `{ requestId, action, params }` as sent to a browser. */
  function RequestEnvelope(id: string, action: string, params: map<string, Value>): Value {
    Obj(map["requestId" := Str(id), "action" := Str(action), "params" := Obj(params)])
  }

  /** `browsers.get(target)` finds a record: only string keys are stored. */
  predicate Registered(s: State, target: Value) {
    target.Str? && target.s in s.browsers.values
  }

  datatype Sending = Sending(next: State, request: Result<string, string>)

  /** sendToBrowser: an unknown target rejects at once and nothing changes; otherwise the counter is
      incremented, `req-<counter>` becomes pending with its timer, and the envelope goes out on the
      browser's socket. The returned id is the ticket on which the promise later settles. */
  function Send(s: State, target: Value, action: string, params: map<string, Value>, timeoutMs: nat): (r: Sending)
    ensures !Registered(s, target) ==> r == Sending(s, Failure("Browser not found: " + JsString(target)))
    ensures Registered(s, target) ==>
      var id := RequestId(s.counter + 1);
      && r.request == Success(id)
      && r.next.counter == s.counter + 1
      && r.next.pending == s.pending[id := timeoutMs]
      && r.next.wire == s.wire + [Outgoing(s.browsers.values[target.s].ws, RequestEnvelope(id, action, params))]
    ensures r.next.browsers == s.browsers && r.next.closeIds == s.closeIds && r.next.outcomes == s.outcomes
    ensures Valid(s) ==> Valid(r.next)
    ensures Valid(s) && r.request.Success? ==> r.request.value !in s.pending && r.request.value !in s.outcomes
  {
    if !Registered(s, target) then Sending(s, Failure("Browser not found: " + JsString(target)))
    else
      var n := s.counter + 1;
      var id := RequestId(n);
      RequestIdIssued(n, n);
      RequestIdIssued(n, s.counter);
      var rec := s.browsers.values[target.s];
      Sending(s.(counter := n, pending := s.pending[id := timeoutMs],
                 wire := s.wire + [Outgoing(rec.ws, RequestEnvelope(id, action, params))]),
              Success(id))
  }

  // ---------------------------------------------------------------- fan-out

  /** One browser's request within a fan-out. */
  datatype Ticket = Ticket(browserId: string, request: Result<string, string>)

  datatype FanOutStart = FanOutStart(next: State, tickets: seq<Ticket>)

  /** The loop of sendToAllBrowsers over `ids`, one send per id, in order. */
  function SendEach(s: State, ids: seq<string>, action: string, params: map<string, Value>, timeoutMs: nat): (r: FanOutStart)
    ensures |r.tickets| == |ids|
    ensures forall i :: 0 <= i < |ids| ==> r.tickets[i].browserId == ids[i]
    ensures r.next.browsers == s.browsers && r.next.closeIds == s.closeIds && r.next.outcomes == s.outcomes
    ensures s.pending.Keys <= r.next.pending.Keys && s.counter <= r.next.counter
    ensures Valid(s) ==> Valid(r.next)
    decreases |ids|
  {
    if ids == [] then FanOutStart(s, [])
    else
      var first := Send(s, Str(ids[0]), action, params, timeoutMs);
      var rest := SendEach(first.next, ids[1..], action, params, timeoutMs);
      FanOutStart(rest.next, [Ticket(ids[0], first.request)] + rest.tickets)
  }

  /** The sends still to do for `ids` after the tickets `done`, as sendToAllBrowsers' loop sees them. */
  function FanFrom(s: State, ids: seq<string>, done: seq<Ticket>, action: string, params: map<string, Value>,
                   timeoutMs: nat): FanOutStart {
    var rest := SendEach(s, ids, action, params, timeoutMs);
    FanOutStart(rest.next, done + rest.tickets)
  }

  /** One turn of the sendToAllBrowsers loop: the send to `ids[i]` followed by the sends to the rest. */
  lemma FanFromStep(s: State, ids: seq<string>, i: nat, done: seq<Ticket>,
                    action: string, params: map<string, Value>, timeoutMs: nat)
    requires i < |ids|
    ensures var first := Send(s, Str(ids[i]), action, params, timeoutMs);
      FanFrom(s, ids[i..], done, action, params, timeoutMs) ==
      FanFrom(first.next, ids[i + 1..], done + [Ticket(ids[i], first.request)], action, params, timeoutMs)
  {
    assert ids[i..][1..] == ids[i + 1..];
    var first := Send(s, Str(ids[i]), action, params, timeoutMs);
    var rest := SendEach(first.next, ids[i + 1..], action, params, timeoutMs);
    assert done + ([Ticket(ids[i], first.request)] + rest.tickets) == (done + [Ticket(ids[i], first.request)]) + rest.tickets;
  }

  lemma FanFromEnds(s: State, ids: seq<string>, done: seq<Ticket>, action: string, params: map<string, Value>, timeoutMs: nat)
    ensures FanFrom(s, ids[|ids|..], done, action, params, timeoutMs) == FanOutStart(s, done)
  {
    assert ids[|ids|..] == [];
    assert done + [] == done;
  }

  /** sendToAllBrowsers: one send per browser registered at call time, in registration order. */
  function SendToAll(s: State, action: string, params: map<string, Value>, timeoutMs: nat): (r: FanOutStart)
    ensures |r.tickets| == |s.browsers.keys|
    ensures forall i :: 0 <= i < |r.tickets| ==> r.tickets[i].browserId == s.browsers.keys[i]
    ensures r.next.browsers == s.browsers && r.next.outcomes == s.outcomes
  {
    SendEach(s, s.browsers.keys, action, params, timeoutMs)
  }

  /** When every id is registered, the i-th send is given `req-<counter + i + 1>` and leaves it pending. */
  lemma {:induction false} SendEachRegistered(s: State, ids: seq<string>, action: string,
                                              params: map<string, Value>, timeoutMs: nat)
    requires forall i :: 0 <= i < |ids| ==> ids[i] in s.browsers.values
    ensures var r := SendEach(s, ids, action, params, timeoutMs);
      && r.next.counter == s.counter + |ids|
      && forall i :: 0 <= i < |ids| ==>
           r.tickets[i].request == Success(RequestId(s.counter + i + 1))
           && RequestId(s.counter + i + 1) in r.next.pending
    decreases |ids|
  {
    if ids != [] {
      var first := Send(s, Str(ids[0]), action, params, timeoutMs);
      SendEachRegistered(first.next, ids[1..], action, params, timeoutMs);
      var r := SendEach(s, ids, action, params, timeoutMs);
      var rest := SendEach(first.next, ids[1..], action, params, timeoutMs);
      assert r == FanOutStart(rest.next, [Ticket(ids[0], first.request)] + rest.tickets);
      assert Registered(s, Str(ids[0]));
      assert first.next.counter == s.counter + 1;
      assert RequestId(s.counter + 1) in rest.next.pending.Keys;
      forall i | 0 <= i < |ids|
        ensures r.tickets[i].request == Success(RequestId(s.counter + i + 1))
        ensures RequestId(s.counter + i + 1) in r.next.pending
      {
        if i > 0 {
          assert r.tickets[i] == rest.tickets[i - 1];
          assert first.next.counter + (i - 1) + 1 == s.counter + i + 1;
        }
      }
    }
  }

  datatype FanResult = FanOk(browserId: string, data: Value) | FanErr(browserId: string, error: string)

  predicate Settled(t: Ticket, outcomes: map<string, Outcome>) {
    t.request.Failure? || t.request.value in outcomes
  }

  /** `{browserId, success: true, data}` or `{browserId, success: false, error: error.message}`. */
  function ResultOf(t: Ticket, outcomes: map<string, Outcome>): (r: FanResult)
    requires Settled(t, outcomes)
    ensures r.browserId == t.browserId
  {
    if t.request.Failure? then FanErr(t.browserId, t.request.error)
    else match outcomes[t.request.value]
      case Resolved(d) => FanOk(t.browserId, d)
      case Rejected(m) => FanErr(t.browserId, m)
  }

  /** Promise.all over the tickets: available once every ticket has settled, one result per ticket,
      failures included, never a rejection. */
  function FanOutResults(tickets: seq<Ticket>, outcomes: map<string, Outcome>): (r: Option<seq<FanResult>>)
    ensures r.Some? <==> forall i :: 0 <= i < |tickets| ==> Settled(tickets[i], outcomes)
    ensures r.Some? ==> |r.value| == |tickets|
    ensures r.Some? ==> forall i :: 0 <= i < |tickets| ==> r.value[i] == ResultOf(tickets[i], outcomes)
  {
    if forall i :: 0 <= i < |tickets| ==> Settled(tickets[i], outcomes) then
      Some(seq(|tickets|, i requires 0 <= i < |tickets| => ResultOf(tickets[i], outcomes)))
    else None
  }

  // ---------------------------------------------------------------- router

  datatype BrowserInfo = BrowserInfo(id: string, name: string, connectedAt: int)

  /** The `data` of a successful HTTP response. */
  datatype RouteData =
    | Data(value: Value)
    | Results(results: seq<FanResult>)
    | ServerStatus(server: string, version: string, browsers: seq<BrowserInfo>)
    | BrowserList(browsers: seq<BrowserInfo>)

  /** What handleRoute is waiting for after its synchronous part. `Failure` is a thrown error. */
  datatype RouteWait =
    | Answered(answer: Result<RouteData, string>)
    | AwaitOne(request: Result<string, string>)
    | AwaitAll(tickets: seq<Ticket>)

  datatype Routing = Routing(next: State, wait: RouteWait)

  /** `Array.from(browsers.entries()).map(...)` in registration order. */
  function Infos(keys: seq<string>, values: map<string, BrowserRecord>): (r: seq<BrowserInfo>)
    ensures Distinct(keys) && (forall k :: k in keys ==> k in values) ==>
      |r| == |keys| && forall i :: 0 <= i < |keys| ==>
        r[i] == BrowserInfo(keys[i], values[keys[i]].name, values[keys[i]].connectedAt)
    decreases |keys|
  {
    if keys == [] then []
    else
      (if keys[0] in values then [BrowserInfo(keys[0], values[keys[0]].name, values[keys[0]].connectedAt)] else [])
      + Infos(keys[1..], values)
  }

  /** handleRoute up to its first await. */
  function Route(s: State, path: string, query: Query, body: map<string, Value>): (r: Routing)
    ensures path == "/status" || path == "/" || path == "/browsers" ==> r.next == s && r.wait.Answered?
    ensures Valid(s) ==> Valid(r.next)
  {
    if path == "/status" || path == "/" then
      Routing(s, Answered(Success(ServerStatus("chromium-cli", "1.0.0", Infos(s.browsers.keys, s.browsers.values)))))
    else if path == "/browsers" then
      Routing(s, Answered(Success(BrowserList(Infos(s.browsers.keys, s.browsers.values)))))
    else
      var target := TargetOf(query, body);
      var action := ActionName(path);
      var params := ActionParams(body, query);
      if TargetsAll(target) then
        var f := SendToAll(s, action, params, DefaultTimeoutMs);
        Routing(f.next, AwaitAll(f.tickets))
      else
        var one := Send(s, target, action, params, DefaultTimeoutMs);
        Routing(one.next, AwaitOne(one.request))
  }

  /** The HTTP result once what the route waits for has settled (None while it has not): a single
      fan-out result is flattened and its failure thrown. */
  function Finish(w: RouteWait, outcomes: map<string, Outcome>): (r: Option<Result<RouteData, string>>)
    ensures w.Answered? ==> r == Some(w.answer)
    ensures w.AwaitOne? && w.request.Failure? ==> r == Some(Failure(w.request.error))
    ensures w.AwaitOne? && w.request.Success? ==>
      && (r.None? <==> w.request.value !in outcomes)
      && (r.Some? && outcomes[w.request.value].Resolved? ==> r.value == Success(Data(outcomes[w.request.value].data)))
      && (r.Some? && outcomes[w.request.value].Rejected? ==> r.value == Failure(outcomes[w.request.value].message))
    ensures w.AwaitAll? ==> (r.None? <==> FanOutResults(w.tickets, outcomes).None?)
    ensures w.AwaitAll? && r.Some? && |w.tickets| != 1 ==>
      r.value == Success(Results(FanOutResults(w.tickets, outcomes).value))
    ensures w.AwaitAll? && r.Some? && |w.tickets| == 1 ==>
      (r.value.Success? <==> FanOutResults(w.tickets, outcomes).value[0].FanOk?)
  {
    match w
    case Answered(a) => Some(a)
    case AwaitOne(Failure(e)) => Some(Failure(e))
    case AwaitOne(Success(id)) =>
      if id !in outcomes then None
      else (match outcomes[id]
        case Resolved(d) => Some(Success(Data(d)))
        case Rejected(m) => Some(Failure(m)))
    case AwaitAll(tickets) =>
      match FanOutResults(tickets, outcomes)
      case None => None
      case Some(results) =>
        if |results| == 1 then
          (match results[0]
            case FanOk(_, d) => Some(Success(Data(d)))
            case FanErr(_, e) => Some(Failure(e)))
        else Some(Success(Results(results)))
  }

  // ---------------------------------------------------------------- event traces

  datatype Event =
    | Connect(ws: SocketId, idHeader: Option<string>, nameHeader: Option<string>, idStamp: int, connectedAt: int)
    | Close(ws: SocketId)
    | Message(msg: Value)
    | Timeout(requestId: string)
    | Request(path: string, query: Query, body: map<string, Value>)

  function Step(s: State, e: Event): State {
    match e
    case Connect(ws, idHeader, nameHeader, idStamp, connectedAt) => Connected(s, ws, idHeader, nameHeader, idStamp, connectedAt)
    case Close(ws) => Closed(s, ws)
    case Message(msg) => Replied(s, msg)
    case Timeout(id) => TimedOut(s, id)
    case Request(path, query, body) => Route(s, path, query, body).next
  }

  function Run(s: State, events: seq<Event>): State
    decreases |events|
  {
    if events == [] then s else Run(Step(s, events[0]), events[1..])
  }

  /** From `s` to `t` no settlement was lost or rewritten, every request that stopped being pending
      was settled, and the counter did not go back. */
  ghost predicate Kept(s: State, t: State) {
    && (forall id :: id in s.outcomes ==> id in t.outcomes && t.outcomes[id] == s.outcomes[id])
    && (forall id :: id in s.pending && id !in t.pending ==> id in t.outcomes)
    && s.counter <= t.counter
  }

  lemma RouteKeeps(s: State, path: string, query: Query, body: map<string, Value>)
    requires Valid(s)
    ensures Kept(s, Route(s, path, query, body).next)
  {
    if !(path == "/status" || path == "/" || path == "/browsers") {
      var target := TargetOf(query, body);
      var params := ActionParams(body, query);
      if TargetsAll(target) {
        var f := SendToAll(s, ActionName(path), params, DefaultTimeoutMs);
        assert s.pending.Keys <= f.next.pending.Keys;
      }
    }
  }

  lemma StepKeeps(s: State, e: Event)
    requires Valid(s)
    ensures Valid(Step(s, e)) && Kept(s, Step(s, e))
  {
    match e
    case Request(path, query, body) =>
      RouteKeeps(s, path, query, body);
    case Connect(ws, idHeader, nameHeader, idStamp, connectedAt) =>
    case Close(ws) =>
    case Message(msg) =>
    case Timeout(id) =>
  }

  /** Along any trace the invariant holds and every settlement is final. */
  lemma {:induction false} RunKeeps(s: State, events: seq<Event>)
    requires Valid(s)
    ensures Valid(Run(s, events)) && Kept(s, Run(s, events))
    decreases |events|
  {
    if events != [] {
      var t := Step(s, events[0]);
      StepKeeps(s, events[0]);
      RunKeeps(t, events[1..]);
    }
  }

  /** Each request settles exactly once: a settled request is never pending again and keeps its
      outcome whatever happens later; a pending one is, after any trace, pending or settled. */
  lemma SettlesExactlyOnce(s: State, events: seq<Event>, id: string)
    requires Valid(s)
    requires id in s.pending || id in s.outcomes
    ensures var t := Run(s, events);
      && (id in t.pending <==> id !in t.outcomes)
      && (id in s.outcomes ==> id in t.outcomes && t.outcomes[id] == s.outcomes[id])
  {
    RunKeeps(s, events);
  }

  // ---------------------------------------------------------------- properties

  /** A connection under an id that is already registered replaces that record in place: the
      registry keeps its size and order and now names the new socket. */
  lemma ConnectSupersedes(s: State, ws: SocketId, id: string, nameHeader: Option<string>, idStamp: int, connectedAt: int)
    requires Valid(s) && id != "" && id in s.browsers.values
    ensures var t := Connected(s, ws, Some(id), nameHeader, idStamp, connectedAt);
      && t.browsers.keys == s.browsers.keys
      && t.browsers.values[id].ws == ws
      && forall k :: k in s.browsers.values && k != id ==> t.browsers.values[k] == s.browsers.values[k]
  {
  }

  /** Closing a superseded socket deletes the newer record: after two connections under the same id,
      closing the first leaves no record for the id although the second socket is still open. */
  lemma StaleCloseDropsNewer(s: State, ws1: SocketId, ws2: SocketId, id: string, stamp: int, at1: int, at2: int)
    requires ws1 != ws2 && id != ""
    ensures var t := Closed(Connected(Connected(s, ws1, Some(id), None, stamp, at1), ws2, Some(id), None, stamp, at2), ws1);
      && id !in t.browsers.values
      && ws2 in t.closeIds && t.closeIds[ws2] == id
  {
    var s1 := Connected(s, ws1, Some(id), None, stamp, at1);
    var s2 := Connected(s1, ws2, Some(id), None, stamp, at2);
    assert s2.closeIds[ws1] == id;
  }

  /** Once a request has timed out, a reply naming it changes nothing. */
  lemma LateReplyIgnored(s: State, id: string, msg: Value)
    requires Valid(s) && id in s.pending
    requires Field(msg, "requestId") == Str(id)
    ensures var t := TimedOut(s, id);
      && t.outcomes[id] == Rejected("Request timeout")
      && Replied(t, msg) == t
  {
  }

  /** Once a reply has settled a request, a second reply or its timer changes nothing. */
  lemma DuplicateReplyIgnored(s: State, msg: Value, again: Value)
    requires Valid(s) && Matches(s, msg)
    requires Field(again, "requestId") == Field(msg, "requestId")
    ensures var t := Replied(s, msg);
      && Replied(t, again) == t
      && TimedOut(t, Field(msg, "requestId").s) == t
  {
  }

  /** The `Timeout` events of the given request ids, in order. */
  function Timeouts(ids: seq<string>): (es: seq<Event>)
    ensures |es| == |ids| && forall i :: 0 <= i < |ids| ==> es[i] == Timeout(ids[i])
  {
    seq(|ids|, i requires 0 <= i < |ids| => Timeout(ids[i]))
  }

  lemma RunTimeoutFirst(s: State, id: string, rest: seq<Event>)
    ensures Run(s, [Timeout(id)] + rest) == Run(TimedOut(s, id), rest)
  {
    assert ([Timeout(id)] + rest)[1..] == rest;
  }

  /** The first timer of a run settles its request and leaves the others pending or settled. */
  lemma TimeoutStep(s: State, ids: seq<string>)
    requires Valid(s) && ids != []
    requires forall i :: 0 <= i < |ids| ==> ids[i] in s.pending || ids[i] in s.outcomes
    ensures var t := TimedOut(s, ids[0]);
      && Run(s, Timeouts(ids)) == Run(t, Timeouts(ids[1..]))
      && Valid(t) && ids[0] in t.outcomes
      && forall i :: 0 <= i < |ids| - 1 ==> ids[1..][i] in t.pending || ids[1..][i] in t.outcomes
  {
    var t := TimedOut(s, ids[0]);
    assert Timeouts(ids) == [Timeout(ids[0])] + Timeouts(ids[1..]);
    RunTimeoutFirst(s, ids[0], Timeouts(ids[1..]));
    forall i | 0 <= i < |ids| - 1 ensures ids[1..][i] in t.pending || ids[1..][i] in t.outcomes {
      assert ids[1..][i] == ids[i + 1];
    }
  }

  /** Every request settles: firing the timers of requests that are pending or settled leaves each of
      them settled. */
  lemma {:induction false} TimersSettleAll(s: State, ids: seq<string>)
    requires Valid(s)
    requires forall i :: 0 <= i < |ids| ==> ids[i] in s.pending || ids[i] in s.outcomes
    ensures forall i :: 0 <= i < |ids| ==> ids[i] in Run(s, Timeouts(ids)).outcomes
    decreases |ids|
  {
    if ids != [] {
      var t := TimedOut(s, ids[0]);
      var rest := ids[1..];
      TimeoutStep(s, ids);
      TimersSettleAll(t, rest);
      RunKeeps(t, Timeouts(rest));
      var r := Run(t, Timeouts(rest));
      forall i | 0 <= i < |ids| ensures ids[i] in r.outcomes {
        if i > 0 {
          assert ids[i] == rest[i - 1];
        }
      }
    }
  }


  /** The request ids behind a fan-out's tickets. */
  function TicketIds(tickets: seq<Ticket>): (ids: seq<string>)
    requires forall i :: 0 <= i < |tickets| ==> tickets[i].request.Success?
    ensures |ids| == |tickets| && forall i :: 0 <= i < |tickets| ==> ids[i] == tickets[i].request.value
  {
    seq(|tickets|, i requires 0 <= i < |tickets| => tickets[i].request.value)
  }

  /** Fan-out never rejects: it sends one fresh request per browser registered at call time, in
      registration order, and each of them is pending afterwards. */
  lemma FanOutTickets(s: State, action: string, params: map<string, Value>, timeoutMs: nat)
    requires Valid(s)
    ensures var f := SendToAll(s, action, params, timeoutMs);
      && |f.tickets| == |s.browsers.keys|
      && (forall i :: 0 <= i < |f.tickets| ==>
            f.tickets[i] == Ticket(s.browsers.keys[i], Success(RequestId(s.counter + i + 1))))
      && (forall i :: 0 <= i < |f.tickets| ==> f.tickets[i].request.value in f.next.pending)
      && f.next.counter == s.counter + |s.browsers.keys|
  {
    var keys := s.browsers.keys;
    assert forall i :: 0 <= i < |keys| ==> keys[i] in s.browsers.values by {
      forall i | 0 <= i < |keys| ensures keys[i] in s.browsers.values {
        assert keys[i] in keys;
      }
    }
    SendEachRegistered(s, keys, action, params, timeoutMs);
  }

  /** Tickets whose requests are pending are all settled once their timers have fired, whatever
      happened in between. */
  lemma TicketsSettleAfterTimers(n: State, tickets: seq<Ticket>, later: seq<Event>)
    requires Valid(n)
    requires forall i :: 0 <= i < |tickets| ==> tickets[i].request.Success? && tickets[i].request.value in n.pending
    ensures var results := FanOutResults(tickets, Run(Run(n, later), Timeouts(TicketIds(tickets))).outcomes);
      && results.Some? && |results.value| == |tickets|
      && forall i :: 0 <= i < |tickets| ==> results.value[i].browserId == tickets[i].browserId
  {
    var ids := TicketIds(tickets);
    var u := Run(n, later);
    RunKeeps(n, later);
    assert forall i :: 0 <= i < |ids| ==> ids[i] in u.pending || ids[i] in u.outcomes;
    TimersSettleAll(u, ids);
    var t := Run(u, Timeouts(ids));
    assert forall i :: 0 <= i < |tickets| ==> Settled(tickets[i], t.outcomes) by {
      forall i | 0 <= i < |tickets| ensures Settled(tickets[i], t.outcomes) {
        assert ids[i] == tickets[i].request.value;
      }
    }
    var results := FanOutResults(tickets, t.outcomes);
    forall i | 0 <= i < |tickets| ensures results.value[i].browserId == tickets[i].browserId {
      assert results.value[i] == ResultOf(tickets[i], t.outcomes);
    }
  }

  /** Fan-out yields exactly one result per browser registered at call time: whatever happens after
      the sends, once the timers have fired every result is there, in registration order. */
  lemma FanOutOnePerBrowser(s: State, action: string, params: map<string, Value>, timeoutMs: nat, later: seq<Event>)
    requires Valid(s)
    ensures var f := SendToAll(s, action, params, timeoutMs);
      forall i :: 0 <= i < |f.tickets| ==> f.tickets[i].request.Success?
    ensures var f := SendToAll(s, action, params, timeoutMs);
      var results := FanOutResults(f.tickets, Run(Run(f.next, later), Timeouts(TicketIds(f.tickets))).outcomes);
      && results.Some?
      && |results.value| == |s.browsers.keys|
      && forall i :: 0 <= i < |s.browsers.keys| ==> results.value[i].browserId == s.browsers.keys[i]
  {
    var f := SendToAll(s, action, params, timeoutMs);
    FanOutTickets(s, action, params, timeoutMs);
    TicketsSettleAfterTimers(f.next, f.tickets, later);
  }

  /** With no browser connected a fan-out route answers `[]` at once. */
  lemma NoBrowsersEmptyAnswer(s: State, path: string, query: Query, body: map<string, Value>, outcomes: map<string, Outcome>)
    requires s.browsers.keys == []
    requires path != "/status" && path != "/" && path != "/browsers"
    requires TargetsAll(TargetOf(query, body))
    ensures Finish(Route(s, path, query, body).wait, outcomes) == Some(Success(Results([])))
  {
  }

  /** A fan-out to one browser is answered as that browser's own result. */
  lemma FinishSingleTicket(browserId: string, id: string, outcomes: map<string, Outcome>)
    ensures Finish(AwaitAll([Ticket(browserId, Success(id))]), outcomes) ==
        if id !in outcomes then None
        else match outcomes[id]
          case Resolved(d) => Some(Success(Data(d)))
          case Rejected(m) => Some(Failure(m))
  {
    var tickets := [Ticket(browserId, Success(id))];
    if id in outcomes {
      var results := FanOutResults(tickets, outcomes);
      assert results.Some? && |results.value| == 1;
      assert results.value[0] == ResultOf(tickets[0], outcomes);
    }
  }

  /** With exactly one browser connected a fan-out route answers like a direct request: its data, or
      its error thrown. */
  lemma SingleBrowserFlattened(s: State, path: string, query: Query, body: map<string, Value>, outcomes: map<string, Outcome>)
    requires Valid(s) && |s.browsers.keys| == 1
    requires path != "/status" && path != "/" && path != "/browsers"
    requires TargetsAll(TargetOf(query, body))
    ensures var id := RequestId(s.counter + 1);
      Finish(Route(s, path, query, body).wait, outcomes) ==
        if id !in outcomes then None
        else match outcomes[id]
          case Resolved(d) => Some(Success(Data(d)))
          case Rejected(m) => Some(Failure(m))
  {
    var id := RequestId(s.counter + 1);
    var f := SendToAll(s, ActionName(path), ActionParams(body, query), DefaultTimeoutMs);
    FanOutTickets(s, ActionName(path), ActionParams(body, query), DefaultTimeoutMs);
    assert Route(s, path, query, body).wait == AwaitAll(f.tickets);
    assert f.tickets == [Ticket(s.browsers.keys[0], Success(id))];
    FinishSingleTicket(s.browsers.keys[0], id, outcomes);
  }

  /** A route naming a browser that is not connected fails with `Browser not found` and changes
      nothing. */
  lemma UnknownTargetFails(s: State, path: string, query: Query, body: map<string, Value>, outcomes: map<string, Outcome>)
    requires path != "/status" && path != "/" && path != "/browsers"
    requires !TargetsAll(TargetOf(query, body)) && !Registered(s, TargetOf(query, body))
    ensures var r := Route(s, path, query, body);
      && r.next == s
      && Finish(r.wait, outcomes) == Some(Failure("Browser not found: " + JsString(TargetOf(query, body))))
  {
  }

  /** `/status` and `/` answer at once with the server's name, its version and one entry per
      connected browser, in registration order, without touching the state. */
  lemma StatusListsBrowsers(s: State, path: string, query: Query, body: map<string, Value>)
    requires Valid(s) && (path == "/status" || path == "/")
    ensures var r := Route(s, path, query, body);
      && r.next == s
      && r.wait.Answered? && r.wait.answer.Success? && r.wait.answer.value.ServerStatus?
      && r.wait.answer.value.server == "chromium-cli" && r.wait.answer.value.version == "1.0.0"
      && var infos := r.wait.answer.value.browsers;
         && |infos| == |s.browsers.keys|
         && forall i :: 0 <= i < |infos| ==>
              infos[i].id == s.browsers.keys[i] && infos[i].name == s.browsers.values[s.browsers.keys[i]].name
  {
  }

  /** `/browsers` answers at once with the same list, without the server fields. */
  lemma BrowsersListsBrowsers(s: State, query: Query, body: map<string, Value>)
    requires Valid(s)
    ensures var r := Route(s, "/browsers", query, body);
      && r.next == s
      && r.wait == Answered(Success(BrowserList(Infos(s.browsers.keys, s.browsers.values))))
      && |Infos(s.browsers.keys, s.browsers.values)| == |s.browsers.keys|
  {
  }

  /** A route naming a connected browser sends it one envelope carrying the action derived from the
      path and the merged parameters, and answers with whatever that request settles to. */
  lemma KnownTargetForwards(s: State, path: string, query: Query, body: map<string, Value>, outcomes: map<string, Outcome>)
    requires path != "/status" && path != "/" && path != "/browsers"
    requires !TargetsAll(TargetOf(query, body)) && Registered(s, TargetOf(query, body))
    ensures var r := Route(s, path, query, body);
      var id := RequestId(s.counter + 1);
      var target := TargetOf(query, body).s;
      && r.next.wire == s.wire + [Outgoing(s.browsers.values[target].ws,
                                           RequestEnvelope(id, ActionName(path), ActionParams(body, query)))]
      && r.next.pending == s.pending[id := DefaultTimeoutMs]
      && Finish(r.wait, outcomes) ==
           if id !in outcomes then None
           else match outcomes[id]
             case Resolved(d) => Some(Success(Data(d)))
             case Rejected(m) => Some(Failure(m))
  {
    var target := TargetOf(query, body);
    var one := Send(s, target, ActionName(path), ActionParams(body, query), DefaultTimeoutMs);
    assert Route(s, path, query, body) == Routing(one.next, AwaitOne(one.request));
    assert one.request == Success(RequestId(s.counter + 1));
  }
}
