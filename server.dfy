/** The relay process of server/index.js as an object: its module-level `browsers` and
    `pendingRequests` maps and `requestIdCounter` are fields that each event handler updates in place.
    Every method is specified by the transition of module Relay it carries out, so the properties
    proved there hold of the object. */
module Server {
  import opened Wrappers
  import opened Values
  import opened JsMaps
  import opened Routes
  import opened Relay

  class RelayServer {
    var browsers: JsMap<string, BrowserRecord>
    var closeIds: map<SocketId, string>
    var pending: map<string, nat>
    var outcomes: map<string, Outcome>
    var requestIdCounter: nat
    var wire: seq<Outgoing>

    /** The relay state these fields hold. */
    function Model(): State
      reads this
    {
      State(browsers, closeIds, pending, outcomes, requestIdCounter, wire)
    }

    ghost predicate Valid()
      reads this
    {
      Relay.Valid(Model())
    }

    constructor ()
      ensures Model() == Initial() && Valid()
    {
      browsers := EmptyMap();
      closeIds := map[];
      pending := map[];
      outcomes := map[];
      requestIdCounter := 0;
      wire := [];
    }

    /** The `connection` handler. */
    method OnConnection(ws: SocketId, idHeader: Option<string>, nameHeader: Option<string>, idStamp: int, connectedAt: int)
      requires Valid()
      modifies this
      ensures Valid()
      ensures Model() == Connected(old(Model()), ws, idHeader, nameHeader, idStamp, connectedAt)
    {
      var browserId := BrowserIdOf(idHeader, idStamp);
      var browserName := BrowserNameOf(nameHeader);
      browsers := browsers.Set(browserId, BrowserRecord(ws, browserName, connectedAt));
      closeIds := closeIds[ws := browserId];
    }

    /** The socket's `close` handler. */
    method OnClose(ws: SocketId)
      requires Valid()
      modifies this
      ensures Valid()
      ensures Model() == Closed(old(Model()), ws)
    {
      if ws in closeIds {
        browsers := browsers.Delete(closeIds[ws]);
        closeIds := closeIds - {ws};
      }
    }

    /** handleBrowserMessage, for a message that parsed as JSON. */
    method HandleBrowserMessage(msg: Value)
      requires Valid()
      modifies this
      ensures Valid()
      ensures Model() == Replied(old(Model()), msg)
    {
      var requestId := Field(msg, "requestId");
      if !Truthy(requestId) {
        return;
      }
      if !(requestId.Str? && requestId.s in pending) {
        return;
      }
      pending := pending - {requestId.s};
      outcomes := outcomes[requestId.s := Settlement(msg)];
    }

    /** The timer callback of request `requestId`. */
    method OnTimeout(requestId: string)
      requires Valid()
      modifies this
      ensures Valid()
      ensures Model() == TimedOut(old(Model()), requestId)
    {
      if requestId in pending {
        pending := pending - {requestId};
        outcomes := outcomes[requestId := Rejected("Request timeout")];
      }
    }

    /** sendToBrowser; the result is the request id the promise settles on, or its immediate rejection. */
    method SendToBrowser(target: Value, action: string, params: map<string, Value>, timeoutMs: nat)
      returns (request: Result<string, string>)
      requires Valid()
      modifies this
      ensures Valid()
      ensures Sending(Model(), request) == Send(old(Model()), target, action, params, timeoutMs)
    {
      if !(target.Str? && target.s in browsers.values) {
        return Failure("Browser not found: " + JsString(target));
      }
      ghost var before := Model();
      var browser := browsers.values[target.s];
      requestIdCounter := requestIdCounter + 1;
      var requestId := RequestId(requestIdCounter);
      pending := pending[requestId := timeoutMs];
      wire := wire + [Outgoing(browser.ws, RequestEnvelope(requestId, action, params))];
      request := Success(requestId);
      assert Model() == Send(before, target, action, params, timeoutMs).next;
    }

    /** sendToAllBrowsers up to Promise.all: one send per registered browser, in registration order. */
    method SendToAllBrowsers(action: string, params: map<string, Value>, timeoutMs: nat)
      returns (tickets: seq<Ticket>)
      requires Valid()
      modifies this
      ensures Valid()
      ensures FanOutStart(Model(), tickets) == SendToAll(old(Model()), action, params, timeoutMs)
    {
      ghost var start := Model();
      var ids := browsers.keys;
      tickets := [];
      assert ids[0..] == ids;
      var i := 0;
      while i < |ids|
        invariant 0 <= i <= |ids|
        invariant Valid() && browsers == start.browsers
        invariant SendToAll(start, action, params, timeoutMs) == FanFrom(Model(), ids[i..], tickets, action, params, timeoutMs)
      {
        FanFromStep(Model(), ids, i, tickets, action, params, timeoutMs);
        var request := SendToBrowser(Str(ids[i]), action, params, timeoutMs);
        tickets := tickets + [Ticket(ids[i], request)];
        i := i + 1;
      }
      FanFromEnds(Model(), ids, tickets, action, params, timeoutMs);
    }

    /** handleRoute up to its first await; Relay.Finish gives the HTTP result once it settles. */
    method HandleRoute(path: string, query: Query, body: map<string, Value>) returns (wait: RouteWait)
      requires Valid()
      modifies this
      ensures Valid()
      ensures Routing(Model(), wait) == Route(old(Model()), path, query, body)
    {
      if path == "/status" || path == "/" {
        return Answered(Success(ServerStatus("chromium-cli", "1.0.0", Infos(browsers.keys, browsers.values))));
      }
      if path == "/browsers" {
        return Answered(Success(BrowserList(Infos(browsers.keys, browsers.values))));
      }
      var browserId := TargetOf(query, body);
      var targetAll := TargetsAll(browserId);
      var action := ActionName(path);
      var actionParams := BuildActionParams(body, query);
      if targetAll {
        var results := SendToAllBrowsers(action, actionParams, DefaultTimeoutMs);
        wait := AwaitAll(results);
      } else {
        var request := SendToBrowser(browserId, action, actionParams, DefaultTimeoutMs);
        wait := AwaitOne(request);
      }
    }
  }
}
