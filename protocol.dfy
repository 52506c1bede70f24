/** The wire protocol between the relay (server/index.js) and the agent
    (extension/js/lib/connection.js): a request envelope the relay sends is answered by the agent's
    handleMessage, and that reply settles the relay's pending request. JSON encoding on the socket
    is taken as the identity on these values. */
module Protocol {
  import opened Wrappers
  import opened Values
  import R = Relay
  import A = AgentConnection

  /** How the relay settles a request for `action` that the agent answers with `handlers`. */
  function ExpectedOutcome(handlers: map<string, A.Handler>, action: string, params: map<string, Value>): R.Outcome {
    if action !in handlers then R.Rejected("Unknown action: " + action)
    else match handlers[action](Obj(params))
      case Returned(v) => R.Resolved(v)
      case Threw(m) => R.Rejected(JsString(Or(m, Str("Unknown error"))))
  }

  /** The agent's reply to a pending request's envelope settles exactly that request. */
  lemma AgentReplySettles(s: R.State, id: string, action: string, params: map<string, Value>,
                          handlers: map<string, A.Handler>)
    requires id in s.pending && id != "" && action != ""
    ensures var reply := A.ReplyFor(handlers, R.RequestEnvelope(id, action, params));
      && reply.Some?
      && R.Replied(s, reply.value) ==
         s.(pending := s.pending - {id}, outcomes := s.outcomes[id := ExpectedOutcome(handlers, action, params)])
  {
    var envelope := R.RequestEnvelope(id, action, params);
    assert Field(envelope, "requestId") == Str(id) && Field(envelope, "action") == Str(action);
    assert Field(envelope, "params") == Obj(params);
    var reply := A.ReplyFor(handlers, envelope).value;
    assert R.Matches(s, reply);
  }

  /** The agent's identify message carries no requestId, so the relay drops it. */
  lemma IdentifyIsDropped(s: R.State, browserId: Value, browserName: Value)
    ensures R.Replied(s, A.IdentifyMessage(browserId, browserName)) == s
  {
    assert Field(A.IdentifyMessage(browserId, browserName), "requestId") == Undefined;
  }

  /** A request to a registered browser, answered by its agent, completes the HTTP call with the
      handler's result or its error; a timer firing afterwards changes nothing. */
  lemma RequestRoundTrip(s: R.State, browserId: string, action: string, params: map<string, Value>,
                         handlers: map<string, A.Handler>)
    requires R.Valid(s) && browserId in s.browsers.values && action != ""
    ensures var sent := R.Send(s, Str(browserId), action, params, R.DefaultTimeoutMs);
      && sent.request.Success?
      && sent.next.wire[|sent.next.wire| - 1].message == R.RequestEnvelope(sent.request.value, action, params)
      && var reply := A.ReplyFor(handlers, R.RequestEnvelope(sent.request.value, action, params));
         && reply.Some?
         && var settled := R.Replied(sent.next, reply.value);
            && R.Finish(R.AwaitOne(sent.request), settled.outcomes) ==
               Some(match ExpectedOutcome(handlers, action, params)
                    case Resolved(d) => Success(R.Data(d))
                    case Rejected(m) => Failure(m))
            && R.TimedOut(settled, sent.request.value) == settled
  {
    var sent := R.Send(s, Str(browserId), action, params, R.DefaultTimeoutMs);
    assert R.Registered(s, Str(browserId));
    AgentReplySettles(sent.next, sent.request.value, action, params, handlers);
  }
}
