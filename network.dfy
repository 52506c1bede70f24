/** The request log of extension/js/api/network.js: webRequest listeners append and update entries
    in a bounded in-memory log while logging is enabled, and API handlers query, clear and aggregate
    it. Log entries are the plain objects the listeners build, as maps from property name to value;
    `Object.assign` is map union with the updates winning. */
module Network {
  import opened Wrappers
  import opened Text
  import opened Values
  import opened JsMaps
  import Bounded

  const MaxLogSize: nat := 1000
  const DefaultLimit: int := 100

  type LogEntry = map<string, Value>

  /** `e.key`. */
  function Get(e: LogEntry, key: string): Value {
    if key in e then e[key] else Undefined
  }

  // ---------------------------------------------------------------- listener bodies

  /** The entry onBeforeRequest logs. The literal names `type` twice; the later `details.type` wins. */
  function RequestEntry(details: Value): (e: LogEntry)
    ensures e.Keys == {"type", "requestId", "url", "method", "tabId", "timeStamp", "initiator"}
    ensures forall k :: k in e ==> e[k] == Field(details, k)
  {
    map["type" := Str("request"),
        "requestId" := Field(details, "requestId"),
        "url" := Field(details, "url"),
        "method" := Field(details, "method"),
        "tabId" := Field(details, "tabId"),
        "type" := Field(details, "type"),
        "timeStamp" := Field(details, "timeStamp"),
        "initiator" := Field(details, "initiator")]
  }

  function SendHeadersUpdate(details: Value): LogEntry {
    map["requestHeaders" := Field(details, "requestHeaders")]
  }

  function HeadersReceivedUpdate(details: Value): LogEntry {
    map["statusCode" := Field(details, "statusCode"),
        "statusLine" := Field(details, "statusLine"),
        "responseHeaders" := Field(details, "responseHeaders")]
  }

  function CompletedUpdate(details: Value): LogEntry {
    map["completed" := Bool(true),
        "completedAt" := Field(details, "timeStamp"),
        "fromCache" := Field(details, "fromCache")]
  }

  function ErrorUpdate(details: Value): LogEntry {
    map["error" := Field(details, "error"),
        "errorAt" := Field(details, "timeStamp")]
  }

  predicate HasRequestId(e: LogEntry, requestId: Value) {
    StrictEquals(Get(e, "requestId"), requestId)
  }

  /** `requestLog.find(e => e.requestId === requestId)`, as an index. */
  function FindIndex(log: seq<LogEntry>, requestId: Value): (r: Option<nat>)
    ensures r.Some? ==> r.value < |log| && HasRequestId(log[r.value], requestId)
    ensures r.Some? ==> forall j :: 0 <= j < r.value ==> !HasRequestId(log[j], requestId)
    ensures r.None? ==> forall j :: 0 <= j < |log| ==> !HasRequestId(log[j], requestId)
    decreases |log|
  {
    if log == [] then None
    else if HasRequestId(log[0], requestId) then Some(0)
    else match FindIndex(log[1..], requestId)
      case None => None
      case Some(i) => Some(i + 1)
  }

  /** updateLogEntry: the updates are merged into the first entry with that requestId, if any. */
  function UpdatedLog(log: seq<LogEntry>, requestId: Value, updates: LogEntry): (r: seq<LogEntry>)
    ensures |r| == |log|
    ensures FindIndex(log, requestId).None? ==> r == log
    ensures FindIndex(log, requestId).Some? ==>
      var i := FindIndex(log, requestId).value;
      r[i] == log[i] + updates && forall j :: 0 <= j < |log| && j != i ==> r[j] == log[j]
  {
    match FindIndex(log, requestId)
    case None => log
    case Some(i) => log[i := log[i] + updates]
  }

  /** A merge never changes which entry a later lookup of another id finds, as long as it keeps
      `requestId`: the updates the listeners apply never name that property. */
  lemma UpdateKeepsLookups(log: seq<LogEntry>, requestId: Value, updates: LogEntry, other: Value)
    requires "requestId" !in updates
    ensures FindIndex(UpdatedLog(log, requestId, updates), other) == FindIndex(log, other)
  {
    var r := UpdatedLog(log, requestId, updates);
    assert forall j :: 0 <= j < |log| ==> Get(r[j], "requestId") == Get(log[j], "requestId");
    FindIndexAgree(log, r, other);
  }

  lemma {:induction false} FindIndexAgree(a: seq<LogEntry>, b: seq<LogEntry>, requestId: Value)
    requires |a| == |b| && forall j :: 0 <= j < |a| ==> Get(a[j], "requestId") == Get(b[j], "requestId")
    ensures FindIndex(a, requestId) == FindIndex(b, requestId)
    decreases |a|
  {
    if a != [] {
      FindIndexAgree(a[1..], b[1..], requestId);
    }
  }

  // ---------------------------------------------------------------- getLog

  /** `s.filter(f)`. */
  function Keep(s: seq<LogEntry>, f: LogEntry -> bool): (r: seq<LogEntry>)
    ensures |r| <= |s|
    ensures forall i :: 0 <= i < |r| ==> r[i] in s && f(r[i])
    decreases |s|
  {
    if s == [] then [] else (if f(s[0]) then [s[0]] else []) + Keep(s[1..], f)
  }

  lemma {:induction false} KeepAll(s: seq<LogEntry>, f: LogEntry -> bool)
    requires forall e :: e in s ==> f(e)
    ensures Keep(s, f) == s
    decreases |s|
  {
    if s != [] {
      KeepAll(s[1..], f);
    }
  }

  lemma {:induction false} KeepAgree(s: seq<LogEntry>, f: LogEntry -> bool, g: LogEntry -> bool)
    requires forall e :: e in s ==> f(e) == g(e)
    ensures Keep(s, f) == Keep(s, g)
    decreases |s|
  {
    if s != [] {
      KeepAgree(s[1..], f, g);
    }
  }

  /** Two filters in a row keep what their conjunction `h` keeps. */
  lemma {:induction false} KeepKeep(s: seq<LogEntry>, f: LogEntry -> bool, g: LogEntry -> bool, h: LogEntry -> bool)
    requires forall e :: h(e) == (f(e) && g(e))
    ensures Keep(Keep(s, f), g) == Keep(s, h)
    decreases |s|
  {
    if s != [] {
      KeepKeep(s[1..], f, g, h);
      assert Keep(s, f) == (if f(s[0]) then [s[0]] else []) + Keep(s[1..], f);
      KeepAppend((if f(s[0]) then [s[0]] else []), Keep(s[1..], f), g);
    }
  }

  lemma {:induction false} KeepAppend(a: seq<LogEntry>, b: seq<LogEntry>, g: LogEntry -> bool)
    ensures Keep(a + b, g) == Keep(a, g) + Keep(b, g)
    decreases |a|
  {
    if a == [] {
      assert a + b == b;
    } else {
      assert (a + b)[0] == a[0] && (a + b)[1..] == a[1..] + b;
      KeepAppend(a[1..], b, g);
    }
  }

  /** The getLog parameters after parsing: tabId and since are undefined when absent. */
  datatype Query = Query(tabId: Value, url: Value, httpMethod: Value, resourceType: Value, limit: Value, since: Value)

  /** The parameter parsing at the top of getLog: tabId, limit and since go through parseInt when
      truthy; url, method and type are taken as given. */
  function QueryOf(params: Value): (q: Query)
    ensures q.url == Field(params, "url") && q.httpMethod == Field(params, "method")
    ensures q.resourceType == Field(params, "type")
    ensures Truthy(Field(params, "tabId")) ==> q.tabId == ParseInt(Field(params, "tabId"))
    ensures !Truthy(Field(params, "tabId")) ==> q.tabId == Undefined
    ensures Truthy(Field(params, "limit")) ==> q.limit == ParseInt(Field(params, "limit"))
    ensures !Truthy(Field(params, "limit")) ==> q.limit == Num(DefaultLimit)
    ensures Truthy(Field(params, "since")) ==> q.since == ParseInt(Field(params, "since"))
    ensures !Truthy(Field(params, "since")) ==> q.since == Undefined
    ensures q.limit.Num? || q.limit.NaN?
  {
    Query(if Truthy(Field(params, "tabId")) then ParseInt(Field(params, "tabId")) else Undefined,
          Field(params, "url"),
          Field(params, "method"),
          Field(params, "type"),
          if Truthy(Field(params, "limit")) then ParseInt(Field(params, "limit")) else Num(DefaultLimit),
          if Truthy(Field(params, "since")) then ParseInt(Field(params, "since")) else Undefined)
  }

  /** Query-string parameters arrive as strings; each numeric one parses to the number it spells,
      zero included, since "0" is a truthy string. */
  lemma QueryOfStrings(tabId: int, limit: int, since: int)
    ensures var params := Obj(map["tabId" := Str(IntToString(tabId)), "limit" := Str(IntToString(limit)),
                                  "since" := Str(IntToString(since))]);
      var q := QueryOf(params);
      q.tabId == Num(tabId) && q.limit == Num(limit) && q.since == Num(since)
      && q.url == Undefined && q.httpMethod == Undefined && q.resourceType == Undefined
  {
    var m := map["tabId" := Str(IntToString(tabId)), "limit" := Str(IntToString(limit)),
                 "since" := Str(IntToString(since))];
    assert Field(Obj(m), "tabId") == Str(IntToString(tabId)) && Truthy(Str(IntToString(tabId)));
    assert Field(Obj(m), "limit") == Str(IntToString(limit)) && Truthy(Str(IntToString(limit)));
    assert Field(Obj(m), "since") == Str(IntToString(since)) && Truthy(Str(IntToString(since)));
    assert Field(Obj(m), "url") == Undefined && Field(Obj(m), "method") == Undefined;
    assert Field(Obj(m), "type") == Undefined;
    ParseIntToString(tabId);
    ParseIntToString(limit);
    ParseIntToString(since);
  }

  /** The tab filter getLog and getStats share. */
  function TabStage(s: seq<LogEntry>, tabId: Value): seq<LogEntry> {
    if !tabId.Undefined? then Keep(s, e => StrictEquals(Get(e, "tabId"), tabId)) else s
  }

  /** The glob as a regular expression: every `*` becomes `.*` and every `?` becomes `.`. */
  function GlobPattern(glob: string): (r: string)
    ensures forall i :: 0 <= i < |r| ==> r[i] != '?'
    ensures (forall i :: 0 <= i < |glob| ==> glob[i] != '*' && glob[i] != '?') ==> r == glob
    decreases |glob|
  {
    if glob == [] then []
    else
      var rest := GlobPattern(glob[1..]);
      assert forall i :: 1 <= i < |glob| ==> glob[1..][i - 1] == glob[i];
      (if glob[0] == '*' then ".*" else if glob[0] == '?' then "." else [glob[0]]) + rest
  }

  /** The filter chain of getLog. `urlMatches(pattern, url)` stands for `regex.test(url)` on the
      case-insensitive RegExp built from `pattern`, and `regexError(pattern)` for the message
      `new RegExp` throws with when `pattern` is not a valid regular expression (None when it is).
      A url or method that is not a string makes the handler throw as well. */
  function FilterChain(log: seq<LogEntry>, q: Query, urlMatches: (string, Value) -> bool, regexError: string -> Option<string>): Result<seq<LogEntry>, string> {
    var s1 := TabStage(log, q.tabId);
    if Truthy(q.url) && !q.url.Str? then Failure("url.replace is not a function")
    else if Truthy(q.url) && regexError(GlobPattern(q.url.s)).Some? then Failure(regexError(GlobPattern(q.url.s)).value)
    else
      var s2 := if Truthy(q.url) then Keep(s1, e => urlMatches(GlobPattern(q.url.s), Get(e, "url"))) else s1;
      if Truthy(q.httpMethod) && !q.httpMethod.Str? then Failure("method.toUpperCase is not a function")
      else
        var s3 := if Truthy(q.httpMethod) then Keep(s2, e => StrictEquals(Get(e, "method"), Str(ToUpper(q.httpMethod.s)))) else s2;
        var s4 := if Truthy(q.resourceType) then Keep(s3, e => StrictEquals(Get(e, "type"), q.resourceType)) else s3;
        var s5 := if !q.since.Undefined? then Keep(s4, e => AtLeast(Get(e, "timeStamp"), q.since)) else s4;
        Success(s5)
  }

  /** The conditions of the five filters, each true when its parameter is not supplied. */
  predicate TabOk(q: Query, e: LogEntry) {
    q.tabId.Undefined? || StrictEquals(Get(e, "tabId"), q.tabId)
  }

  predicate UrlOk(q: Query, urlMatches: (string, Value) -> bool, e: LogEntry) {
    !Truthy(q.url) || (q.url.Str? && urlMatches(GlobPattern(q.url.s), Get(e, "url")))
  }

  predicate MethodOk(q: Query, e: LogEntry) {
    !Truthy(q.httpMethod) || (q.httpMethod.Str? && StrictEquals(Get(e, "method"), Str(ToUpper(q.httpMethod.s))))
  }

  predicate TypeOk(q: Query, e: LogEntry) {
    !Truthy(q.resourceType) || StrictEquals(Get(e, "type"), q.resourceType)
  }

  predicate SinceOk(q: Query, e: LogEntry) {
    q.since.Undefined? || AtLeast(Get(e, "timeStamp"), q.since)
  }

  /** An entry passes every filter the query supplies. */
  predicate Matches(q: Query, urlMatches: (string, Value) -> bool, e: LogEntry) {
    TabOk(q, e) && UrlOk(q, urlMatches, e) && MethodOk(q, e) && TypeOk(q, e) && SinceOk(q, e)
  }

  /** `if (c) s = s.filter(p)` keeps what `!c || p` keeps. */
  lemma Stage(s: seq<LogEntry>, c: bool, p: LogEntry -> bool, ok: LogEntry -> bool)
    requires forall e :: ok(e) == (!c || p(e))
    ensures (if c then Keep(s, p) else s) == Keep(s, ok)
  {
    if c {
      KeepAgree(s, p, ok);
    } else {
      KeepAll(s, ok);
    }
  }

  /** The five filters one after the other keep what Matches keeps. */
  lemma FiveFilters(log: seq<LogEntry>, q: Query, urlMatches: (string, Value) -> bool)
    ensures Keep(Keep(Keep(Keep(Keep(log, e => TabOk(q, e)), e => UrlOk(q, urlMatches, e)),
                                e => MethodOk(q, e)), e => TypeOk(q, e)), e => SinceOk(q, e))
            == Keep(log, e => Matches(q, urlMatches, e))
  {
    var f1 := e => TabOk(q, e);
    var f2 := e => UrlOk(q, urlMatches, e);
    var f3 := e => MethodOk(q, e);
    var f4 := e => TypeOk(q, e);
    var f5 := e => SinceOk(q, e);
    var h2 := e => TabOk(q, e) && UrlOk(q, urlMatches, e);
    var h3 := e => TabOk(q, e) && UrlOk(q, urlMatches, e) && MethodOk(q, e);
    var h4 := e => TabOk(q, e) && UrlOk(q, urlMatches, e) && MethodOk(q, e) && TypeOk(q, e);
    KeepKeep(log, f1, f2, h2);
    KeepKeep(log, h2, f3, h3);
    KeepKeep(log, h3, f4, h4);
    KeepKeep(log, h4, f5, e => Matches(q, urlMatches, e));
  }

  /** The chain of filters is one filter by the conjunction of the supplied conditions; it throws
      exactly when a supplied url is not a string or not a valid pattern, or a supplied method is
      not a string, and the url's error comes first. */
  lemma FilterChainIsConjunction(log: seq<LogEntry>, q: Query, urlMatches: (string, Value) -> bool, regexError: string -> Option<string>)
    ensures FilterChain(log, q, urlMatches, regexError).Failure? <==>
      || (Truthy(q.url) && !q.url.Str?)
      || (Truthy(q.url) && q.url.Str? && regexError(GlobPattern(q.url.s)).Some?)
      || (Truthy(q.httpMethod) && !q.httpMethod.Str?)
    ensures Truthy(q.url) && !q.url.Str? ==>
      FilterChain(log, q, urlMatches, regexError) == Failure("url.replace is not a function")
    ensures Truthy(q.url) && q.url.Str? && regexError(GlobPattern(q.url.s)).Some? ==>
      FilterChain(log, q, urlMatches, regexError) == Failure(regexError(GlobPattern(q.url.s)).value)
    ensures FilterChain(log, q, urlMatches, regexError).Success? ==>
      FilterChain(log, q, urlMatches, regexError).value == Keep(log, e => Matches(q, urlMatches, e))
  {
    if FilterChain(log, q, urlMatches, regexError).Success? {
      Stage(log, !q.tabId.Undefined?, e => StrictEquals(Get(e, "tabId"), q.tabId), e => TabOk(q, e));
      var s1 := Keep(log, e => TabOk(q, e));
      if Truthy(q.url) {
        Stage(s1, true, e => urlMatches(GlobPattern(q.url.s), Get(e, "url")), e => UrlOk(q, urlMatches, e));
      } else {
        KeepAll(s1, e => UrlOk(q, urlMatches, e));
      }
      var s2 := Keep(s1, e => UrlOk(q, urlMatches, e));
      if Truthy(q.httpMethod) {
        Stage(s2, true, e => StrictEquals(Get(e, "method"), Str(ToUpper(q.httpMethod.s))), e => MethodOk(q, e));
      } else {
        KeepAll(s2, e => MethodOk(q, e));
      }
      var s3 := Keep(s2, e => MethodOk(q, e));
      Stage(s3, Truthy(q.resourceType), e => StrictEquals(Get(e, "type"), q.resourceType), e => TypeOk(q, e));
      var s4 := Keep(s3, e => TypeOk(q, e));
      Stage(s4, !q.since.Undefined?, e => AtLeast(Get(e, "timeStamp"), q.since), e => SinceOk(q, e));
      FiveFilters(log, q, urlMatches);
    }
  }

  /** `slice(start)`'s first index for an array of length `len`; NaN counts as 0. A negative start
      keeps the last `-start` elements (all of them when there are fewer); a start past the end
      keeps none. */
  function SliceStart(len: nat, start: Value): (k: nat)
    ensures k <= len
    ensures !start.Num? ==> k == 0
    ensures start.Num? && start.n < 0 ==> len - k == (if -start.n < len then -start.n else len)
    ensures start.Num? && start.n >= 0 ==> k == (if start.n < len then start.n else len)
  {
    if !start.Num? then 0
    else if start.n < 0 then (if len + start.n < 0 then 0 else len + start.n)
    else if start.n > len then len
    else start.n
  }

  /** Unary minus on a parsed number. */
  function Negate(v: Value): Value {
    if v.Num? then Num(-v.n) else NaN
  }

  function Reverse(s: seq<LogEntry>): (r: seq<LogEntry>)
    ensures |r| == |s| && forall i :: 0 <= i < |s| ==> r[i] == s[|s| - 1 - i]
    decreases |s|
  {
    if s == [] then [] else Reverse(s[1..]) + [s[0]]
  }

  /** `e.completedAt ? e.completedAt - e.timeStamp : undefined`. */
  function Duration(e: LogEntry): Value {
    if Truthy(Get(e, "completedAt")) then Minus(Get(e, "completedAt"), Get(e, "timeStamp")) else Undefined
  }

  lemma DurationOf(e: LogEntry)
    ensures !Truthy(Get(e, "completedAt")) <==> Duration(e) == Undefined
    ensures Get(e, "completedAt").Num? && Get(e, "completedAt").n != 0 && Get(e, "timeStamp").Num? ==>
      Duration(e) == Num(Get(e, "completedAt").n - Get(e, "timeStamp").n)
  {
  }

  const SummaryKeys: set<string> :=
    {"requestId", "url", "method", "tabId", "type", "statusCode", "completed", "error", "fromCache", "timeStamp"}

  const DetailKeys: set<string> :=
    SummaryKeys + {"initiator", "statusLine", "requestHeaders", "responseHeaders", "completedAt"}

  /** The object getLog returns for an entry. */
  function Summary(e: LogEntry): Value {
    Obj((map k | k in SummaryKeys :: Get(e, k))["duration" := Duration(e)])
  }

  /** The object getRequest returns for an entry. */
  function Detail(e: LogEntry): Value {
    Obj((map k | k in DetailKeys :: Get(e, k))["duration" := Duration(e)])
  }

  function Summaries(s: seq<LogEntry>): (r: seq<Value>)
    ensures |r| == |s| && forall i :: 0 <= i < |s| ==> r[i] == Summary(s[i])
  {
    seq(|s|, i requires 0 <= i < |s| => Summary(s[i]))
  }

  /** getLog: the filtered entries, the last `limit` of them, most recent first. */
  function GetLog(log: seq<LogEntry>, params: Value, urlMatches: (string, Value) -> bool, regexError: string -> Option<string>): (r: Result<seq<Value>, string>)
    ensures r.Failure? <==> FilterChain(log, QueryOf(params), urlMatches, regexError).Failure?
    ensures r.Failure? ==> r.error == FilterChain(log, QueryOf(params), urlMatches, regexError).error
    ensures r.Success? ==> |r.value| <= |FilterChain(log, QueryOf(params), urlMatches, regexError).value|
  {
    var q := QueryOf(params);
    match FilterChain(log, q, urlMatches, regexError)
    case Failure(m) => Failure(m)
    case Success(filtered) =>
      Success(Summaries(Reverse(filtered[SliceStart(|filtered|, Negate(q.limit))..])))
  }

  /** getLog's answer is the newest matching entries, newest first: entry `i` of the answer is the
      `i`-th matching entry from the end of the log. */
  lemma GetLogNewestFirst(log: seq<LogEntry>, params: Value, urlMatches: (string, Value) -> bool, regexError: string -> Option<string>)
    requires GetLog(log, params, urlMatches, regexError).Success?
    ensures var q := QueryOf(params);
      var matching := Keep(log, e => Matches(q, urlMatches, e));
      var r := GetLog(log, params, urlMatches, regexError).value;
      && |r| == |matching| - SliceStart(|matching|, Negate(q.limit))
      && forall i :: 0 <= i < |r| ==>
           r[i] == Summary(matching[|matching| - 1 - i])
           && matching[|matching| - 1 - i] in log
           && Matches(q, urlMatches, matching[|matching| - 1 - i])
  {
    FilterChainIsConjunction(log, QueryOf(params), urlMatches, regexError);
  }

  /** At most `limit` entries for a positive limit (100 when none is given); a limit of "0" or one
      that does not parse returns every matching entry; a negative limit `-n` returns all matching
      entries but the oldest `n`. */
  lemma GetLogLimit(log: seq<LogEntry>, params: Value, urlMatches: (string, Value) -> bool, regexError: string -> Option<string>)
    requires GetLog(log, params, urlMatches, regexError).Success?
    ensures var q := QueryOf(params);
      var matching := Keep(log, e => Matches(q, urlMatches, e));
      var r := GetLog(log, params, urlMatches, regexError).value;
      && (q.limit.Num? && q.limit.n >= 1 ==> |r| == if q.limit.n < |matching| then q.limit.n else |matching|)
      && (!Truthy(Field(params, "limit")) ==> |r| <= DefaultLimit)
      && (q.limit == Num(0) || q.limit.NaN? ==> |r| == |matching|)
      && (q.limit.Num? && q.limit.n < 0 ==> |r| == if -q.limit.n < |matching| then |matching| + q.limit.n else 0)
  {
    FilterChainIsConjunction(log, QueryOf(params), urlMatches, regexError);
  }

  // ---------------------------------------------------------------- getRequest

  function RequestIdParam(params: Value): Value {
    Or(Field(params, "requestId"), Field(params, "id"))
  }

  /** getRequest: the first entry with the given requestId (or id). */
  function GetRequest(log: seq<LogEntry>, params: Value): (r: Result<Value, string>)
    ensures r == Failure("Request ID required") <==> !Truthy(RequestIdParam(params))
    ensures r == Failure("Request not found") <==>
      Truthy(RequestIdParam(params)) && forall j :: 0 <= j < |log| ==> !HasRequestId(log[j], RequestIdParam(params))
    ensures r.Success? ==> exists i :: 0 <= i < |log| && HasRequestId(log[i], RequestIdParam(params))
                                       && r.value == Detail(log[i])
                                       && forall j :: 0 <= j < i ==> !HasRequestId(log[j], RequestIdParam(params))
  {
    var requestId := RequestIdParam(params);
    if !Truthy(requestId) then Failure("Request ID required")
    else match FindIndex(log, requestId)
      case None => Failure("Request not found")
      case Some(i) => Success(Detail(log[i]))
  }

  // ---------------------------------------------------------------- getStats

  datatype Stats = Stats(total: nat, completed: nat, failed: nat,
                         byMethod: JsMap<string, nat>, byType: JsMap<string, nat>, byStatus: JsMap<string, nat>)

  /** The number of entries whose property `key` is truthy. */
  function CountTruthy(s: seq<LogEntry>, key: string): (n: nat)
    ensures n <= |s|
    decreases |s|
  {
    if s == [] then 0 else CountTruthy(s[..|s| - 1], key) + (if Truthy(Get(s[|s| - 1], key)) then 1 else 0)
  }

  /** `Math.floor(code / 100) + 'xx'`. */
  function StatusGroup(code: Value): string {
    match ToNumber(code)
    case Some(n) => IntToString(n / 100) + "xx"
    case None => "NaNxx"
  }

  /** The key each entry is counted under in byMethod, byType and byStatus (none: not counted). */
  function MethodKey(e: LogEntry): Option<string> {
    Some(JsString(Get(e, "method")))
  }

  function TypeKey(e: LogEntry): Option<string> {
    Some(JsString(Get(e, "type")))
  }

  function StatusKey(e: LogEntry): Option<string> {
    if Truthy(Get(e, "statusCode")) then Some(StatusGroup(Get(e, "statusCode"))) else None
  }

  /** The counts object the loop of getStats builds for one key function. */
  function TallyBy(s: seq<LogEntry>, key: LogEntry -> Option<string>): (m: JsMap<string, nat>)
    ensures m.Valid()
    decreases |s|
  {
    if s == [] then EmptyMap()
    else
      var m := TallyBy(s[..|s| - 1], key);
      match key(s[|s| - 1])
      case None => m
      case Some(k) => Bump(m, k)
  }

  /** The number of entries that have a key, and that have key `k`. */
  function CountKeyed(s: seq<LogEntry>, key: LogEntry -> Option<string>): (n: nat)
    ensures n <= |s|
    decreases |s|
  {
    if s == [] then 0 else CountKeyed(s[..|s| - 1], key) + (if key(s[|s| - 1]).Some? then 1 else 0)
  }

  function CountKey(s: seq<LogEntry>, key: LogEntry -> Option<string>, k: string): nat
    decreases |s|
  {
    if s == [] then 0 else CountKey(s[..|s| - 1], key, k) + (if key(s[|s| - 1]) == Some(k) then 1 else 0)
  }

  /** The counts add up to the number of entries that have a key. */
  lemma {:induction false} TallyByTotal(s: seq<LogEntry>, key: LogEntry -> Option<string>)
    ensures Total(TallyBy(s, key)) == CountKeyed(s, key)
    decreases |s|
  {
    if s != [] {
      TallyByTotal(s[..|s| - 1], key);
      var k := key(s[|s| - 1]);
      if k.Some? {
        BumpTotal(TallyBy(s[..|s| - 1], key), k.value);
      }
    }
  }

  /** Each key's count is the number of entries with that key; keys no entry has are absent. */
  lemma {:induction false} TallyByCount(s: seq<LogEntry>, key: LogEntry -> Option<string>, k: string)
    ensures k in TallyBy(s, key).values ==> TallyBy(s, key).values[k] == CountKey(s, key, k)
    ensures k !in TallyBy(s, key).values <==> CountKey(s, key, k) == 0
    decreases |s|
  {
    if s != [] {
      TallyByCount(s[..|s| - 1], key, k);
    }
  }

  lemma {:induction false} CountKeyedAll(s: seq<LogEntry>, key: LogEntry -> Option<string>)
    requires forall i :: 0 <= i < |s| ==> key(s[i]).Some?
    ensures CountKeyed(s, key) == |s|
    decreases |s|
  {
    if s != [] {
      CountKeyedAll(s[..|s| - 1], key);
    }
  }

  /** One more entry in the counted prefix. */
  lemma TallyStep(s: seq<LogEntry>, i: nat, key: LogEntry -> Option<string>)
    requires i < |s|
    ensures TallyBy(s[..i + 1], key) ==
      match key(s[i]) case None => TallyBy(s[..i], key) case Some(k) => Bump(TallyBy(s[..i], key), k)
  {
    assert s[..i + 1][..i] == s[..i];
  }

  lemma CountStep(s: seq<LogEntry>, i: nat, field: string)
    requires i < |s|
    ensures CountTruthy(s[..i + 1], field) == CountTruthy(s[..i], field) + (if Truthy(Get(s[i], field)) then 1 else 0)
  {
    assert s[..i + 1][..i] == s[..i];
  }

  /** The stats getStats returns for the entries that passed its tab filter. */
  function StatsOf(filtered: seq<LogEntry>): (st: Stats)
    ensures st.total == |filtered| && st.completed <= st.total && st.failed <= st.total
    ensures st.byMethod.Valid() && st.byType.Valid() && st.byStatus.Valid()
  {
    Stats(|filtered|, CountTruthy(filtered, "completed"), CountTruthy(filtered, "error"),
          TallyBy(filtered, MethodKey), TallyBy(filtered, TypeKey), TallyBy(filtered, StatusKey))
  }

  function StatsFor(log: seq<LogEntry>, params: Value): Stats {
    StatsOf(TabStage(log, QueryOf(params).tabId))
  }

  /** The counters of getStats agree with its total. */
  lemma StatsConsistent(filtered: seq<LogEntry>)
    ensures var st := StatsOf(filtered);
      && st.total == |filtered|
      && st.completed <= st.total && st.failed <= st.total
      && Total(st.byMethod) == st.total && Total(st.byType) == st.total
      && Total(st.byStatus) == CountKeyed(filtered, StatusKey) <= st.total
  {
    TallyByTotal(filtered, MethodKey);
    TallyByTotal(filtered, TypeKey);
    TallyByTotal(filtered, StatusKey);
    CountKeyedAll(filtered, MethodKey);
    CountKeyedAll(filtered, TypeKey);
  }

  /** Every entry with a truthy status code is counted under its group, and only those. */
  lemma StatusGroupsCounted(filtered: seq<LogEntry>, group: string)
    ensures var byStatus := StatsOf(filtered).byStatus;
      && (group in byStatus.values <==> exists i :: 0 <= i < |filtered| && StatusKey(filtered[i]) == Some(group))
      && (group in byStatus.values ==> byStatus.values[group] == CountKey(filtered, StatusKey, group))
  {
    TallyByCount(filtered, StatusKey, group);
    CountKeyPositive(filtered, StatusKey, group);
  }

  lemma {:induction false} CountKeyPositive(s: seq<LogEntry>, key: LogEntry -> Option<string>, k: string)
    ensures CountKey(s, key, k) > 0 <==> exists i :: 0 <= i < |s| && key(s[i]) == Some(k)
    decreases |s|
  {
    if s != [] {
      var init := s[..|s| - 1];
      CountKeyPositive(init, key, k);
      if exists i :: 0 <= i < |init| && key(init[i]) == Some(k) {
        var i :| 0 <= i < |init| && key(init[i]) == Some(k);
        assert s[i] == init[i];
      }
      if exists i :: 0 <= i < |s| && key(s[i]) == Some(k) {
        var i :| 0 <= i < |s| && key(s[i]) == Some(k);
        if i < |init| {
          assert init[i] == s[i];
        }
      }
    }
  }

  // ---------------------------------------------------------------- getStats on plain objects

  /** The counts objects of getStats are plain objects, so `counts[k] = (counts[k] || 0) + 1` reads
      through to Object.prototype for a key that is not yet counted, and writes to `__proto__` go to
      its accessor. This is that statement as written, with the counts as JavaScript values. */
  function BumpAsWritten(m: JsMap<string, Value>, k: string): (r: JsMap<string, Value>)
    ensures r.values == AssignProperty(m.values, k, PlusOne(Or(Lookup(m.values, k), Num(0))))
  {
    var next := PlusOne(Or(Lookup(m.values, k), Num(0)));
    if k == "__proto__" && k !in m.values then m else m.Set(k, next)
  }

  function TallyAsWritten(s: seq<LogEntry>, key: LogEntry -> Option<string>): JsMap<string, Value>
    decreases |s|
  {
    if s == [] then EmptyMap()
    else
      var m := TallyAsWritten(s[..|s| - 1], key);
      match key(s[|s| - 1])
      case None => m
      case Some(k) => BumpAsWritten(m, k)
  }

  /** A tally of natural numbers as the JavaScript numbers it holds. */
  function Counts(m: JsMap<string, nat>): (r: JsMap<string, Value>)
    ensures r.keys == m.keys && r.values.Keys == m.values.Keys
    ensures forall k :: k in m.values ==> r.values[k] == Num(m.values[k])
  {
    JsMap(m.keys, NumMap(m.values))
  }

  function NumMap(m: map<string, nat>): (r: map<string, Value>)
    ensures r.Keys == m.Keys && forall k :: k in m ==> r[k] == Num(m[k])
  {
    map k | k in m :: Num(m[k])
  }

  predicate InheritedKey(k: string) {
    k in ObjectPrototypeMethods || k == "__proto__"
  }

  /** As long as no key is a name Object.prototype supplies, the statement as written counts what
      TallyBy counts. */
  lemma {:induction false} TallyAsWrittenAgrees(s: seq<LogEntry>, key: LogEntry -> Option<string>)
    requires forall i :: 0 <= i < |s| ==> key(s[i]).None? || !InheritedKey(key(s[i]).value)
    ensures TallyAsWritten(s, key) == Counts(TallyBy(s, key))
    decreases |s|
  {
    if s != [] {
      var init := s[..|s| - 1];
      assert forall i :: 0 <= i < |init| ==> init[i] == s[i];
      TallyAsWrittenAgrees(init, key);
      match key(s[|s| - 1])
      case None =>
      case Some(k) =>
        BumpCounts(TallyBy(init, key), k);
    }
  }

  lemma BumpCounts(m: JsMap<string, nat>, k: string)
    requires !InheritedKey(k)
    ensures BumpAsWritten(Counts(m), k) == Counts(Bump(m, k))
  {
    var n: nat := if k in m.values then m.values[k] else 0;
    assert Inherited(k) == Undefined;
    assert Or(Lookup(Counts(m).values, k), Num(0)) == Num(n);
    assert BumpAsWritten(Counts(m), k) == Counts(m).Set(k, Num(n + 1));
    assert Bump(m, k) == m.Set(k, n + 1);
    CountsSet(m, k, n + 1);
  }

  lemma CountsSet(m: JsMap<string, nat>, k: string, v: nat)
    ensures Counts(m).Set(k, Num(v)) == Counts(m.Set(k, v))
  {
    var lhs, rhs := Counts(m).Set(k, Num(v)), Counts(m.Set(k, v));
    assert (k in Counts(m).values) == (k in m.values);
    assert lhs.keys == rhs.keys;
    CountsSetValues(m.values, k, v);
    assert lhs.values == rhs.values;
  }

  lemma CountsSetValues(m: map<string, nat>, k: string, v: nat)
    ensures NumMap(m)[k := Num(v)] == NumMap(m[k := v])
  {
    var lhs, rhs := NumMap(m)[k := Num(v)], NumMap(m[k := v]);
    assert lhs.Keys == rhs.Keys;
    forall j | j in lhs
      ensures lhs[j] == rhs[j]
    {
      if j != k {
        assert lhs[j] == Num(m[j]);
      }
    }
  }

  /** A request whose method is `toString` is counted as text: the first read finds the inherited
      method, and `+ 1` appends to its source. The intended count is 1. */
  lemma ToStringMethodCountIsText(e: LogEntry)
    requires Get(e, "method") == Str("toString")
    ensures TallyAsWritten([e], MethodKey).values["toString"] == Str(NativeSource("toString") + "1")
    ensures TallyBy([e], MethodKey).values["toString"] == 1
  {
    assert [e][..0] == [];
    assert MethodKey(e) == Some("toString");
    var src := NativeSource("toString");
    assert Inherited("toString") == Fun("toString", src);
    assert PlusOne(Fun("toString", src)) == Str(src + "1");
    assert TallyAsWritten([e], MethodKey) == BumpAsWritten(EmptyMap(), "toString");
  }

  /** A request whose method is `__proto__` is not counted at all, so byMethod no longer adds up to
      the total; the intended tally counts it once. */
  lemma ProtoMethodDropped(e: LogEntry)
    requires Get(e, "method") == Str("__proto__")
    ensures TallyAsWritten([e], MethodKey).values == map[]
    ensures TallyBy([e], MethodKey).values == map["__proto__" := 1] && Total(TallyBy([e], MethodKey)) == 1
  {
    assert [e][..0] == [];
    TallyByTotal([e], MethodKey);
    CountKeyedAll([e], MethodKey);
  }

  /** The counting loop of getStats. */
  method CountEntries(filtered: seq<LogEntry>) returns (stats: Stats)
    ensures stats == StatsOf(filtered)
  {
    var completed, failed := 0, 0;
    var byMethod, byType, byStatus := EmptyMap(), EmptyMap(), EmptyMap();
    for i := 0 to |filtered|
      invariant completed == CountTruthy(filtered[..i], "completed")
      invariant failed == CountTruthy(filtered[..i], "error")
      invariant byMethod == TallyBy(filtered[..i], MethodKey)
      invariant byType == TallyBy(filtered[..i], TypeKey)
      invariant byStatus == TallyBy(filtered[..i], StatusKey)
    {
      var entry := filtered[i];
      CountStep(filtered, i, "completed");
      CountStep(filtered, i, "error");
      TallyStep(filtered, i, MethodKey);
      TallyStep(filtered, i, TypeKey);
      TallyStep(filtered, i, StatusKey);
      if Truthy(Get(entry, "completed")) {
        completed := completed + 1;
      }
      if Truthy(Get(entry, "error")) {
        failed := failed + 1;
      }
      byMethod := Bump(byMethod, JsString(Get(entry, "method")));
      byType := Bump(byType, JsString(Get(entry, "type")));
      if Truthy(Get(entry, "statusCode")) {
        byStatus := Bump(byStatus, StatusGroup(Get(entry, "statusCode")));
      }
    }
    assert filtered[..|filtered|] == filtered;
    stats := Stats(|filtered|, completed, failed, byMethod, byType, byStatus);
  }

  // ---------------------------------------------------------------- repeated listeners

  /** `n` copies of one entry: what `n` registered onBeforeRequest listeners add for one request. */
  function Copies(e: LogEntry, n: nat): (r: seq<LogEntry>)
    ensures |r| == n && forall i :: 0 <= i < n ==> r[i] == e
  {
    seq(n, _ => e)
  }

  /** An update that leaves `requestId` alone has done all it will the first time: the listener
      sets after the first find the same entry and write the same properties again. */
  lemma UpdateIdempotent(log: seq<LogEntry>, requestId: Value, updates: LogEntry)
    requires "requestId" !in updates
    ensures UpdatedLog(UpdatedLog(log, requestId, updates), requestId, updates) == UpdatedLog(log, requestId, updates)
  {
    UpdateKeepsLookups(log, requestId, updates, requestId);
    match FindIndex(log, requestId)
    case None =>
    case Some(i) =>
      assert log[i] + updates + updates == log[i] + updates;
  }

  /** One more listener set's push keeps the log the window of the copies so far. */
  lemma OneMoreCopy(start: seq<LogEntry>, e: LogEntry, i: nat)
    ensures Bounded.Push(Bounded.Window(start + Copies(e, i), MaxLogSize), e, MaxLogSize)
            == Bounded.Window(start + Copies(e, i + 1), MaxLogSize)
  {
    Bounded.PushWindow(start + Copies(e, i), e, MaxLogSize);
    assert start + Copies(e, i) + [e] == start + Copies(e, i + 1);
  }

  /** Logging switched off and on again registers a second listener set, and from then on every
      request is logged twice. */
  lemma RestartedLoggingDuplicates(log: seq<LogEntry>, e: LogEntry)
    requires |log| + 2 <= MaxLogSize
    ensures Bounded.Window(log + Copies(e, 2), MaxLogSize) == log + [e, e]
  {
    assert Copies(e, 2) == [e, e];
  }

  // ---------------------------------------------------------------- the module state

  /** The module-level `requestLog` and `loggingEnabled`, and the number of times
      initNetworkLogging has added its five listeners. */
  class NetworkLog {
    var requestLog: seq<LogEntry>
    var loggingEnabled: bool
    var listenerSets: nat

    /** The log stays within bounds, and logging is only on once a listener set is registered. */
    ghost predicate Valid()
      reads this
    {
      |requestLog| <= MaxLogSize && (loggingEnabled ==> listenerSets >= 1)
    }

    constructor ()
      ensures Valid() && requestLog == [] && !loggingEnabled && listenerSets == 0
    {
      requestLog := [];
      loggingEnabled := false;
      listenerSets := 0;
    }

    /** initNetworkLogging: nothing while enabled; otherwise the listeners are added again. */
    method InitNetworkLogging()
      requires Valid()
      modifies this
      ensures Valid()
      ensures loggingEnabled && requestLog == old(requestLog)
      ensures listenerSets == if old(loggingEnabled) then old(listenerSets) else old(listenerSets) + 1
    {
      if loggingEnabled {
        return;
      }
      listenerSets := listenerSets + 1;
      loggingEnabled := true;
    }

    method AddLogEntry(entry: LogEntry)
      requires Valid()
      modifies this
      ensures Valid()
      ensures requestLog == Bounded.Push(old(requestLog), entry, MaxLogSize)
      ensures loggingEnabled == old(loggingEnabled) && listenerSets == old(listenerSets)
    {
      requestLog := requestLog + [entry];
      if |requestLog| > MaxLogSize {
        requestLog := requestLog[1..];
      }
    }

    method UpdateLogEntry(requestId: Value, updates: LogEntry)
      requires Valid()
      modifies this
      ensures Valid()
      ensures requestLog == UpdatedLog(old(requestLog), requestId, updates)
      ensures loggingEnabled == old(loggingEnabled) && listenerSets == old(listenerSets)
    {
      var i := FindIndex(requestLog, requestId);
      if i.Some? {
        requestLog := requestLog[i.value := requestLog[i.value] + updates];
      }
    }

    /** The onBeforeRequest listener, once per registered listener set: each set adds its own copy
        of the entry. */
    method OnBeforeRequest(details: Value)
      requires Valid()
      modifies this
      ensures Valid()
      ensures requestLog == if old(loggingEnabled)
                            then Bounded.Window(old(requestLog) + Copies(RequestEntry(details), listenerSets), MaxLogSize)
                            else old(requestLog)
      ensures loggingEnabled == old(loggingEnabled) && listenerSets == old(listenerSets)
    {
      if !loggingEnabled {
        return;
      }
      ghost var start := requestLog;
      var entry := RequestEntry(details);
      assert start + Copies(entry, 0) == start;
      var i := 0;
      while i < listenerSets
        invariant 0 <= i <= listenerSets && |requestLog| <= MaxLogSize
        invariant requestLog == Bounded.Window(start + Copies(entry, i), MaxLogSize)
        invariant loggingEnabled == old(loggingEnabled) && listenerSets == old(listenerSets)
      {
        OneMoreCopy(start, entry, i);
        AddLogEntry(entry);
        i := i + 1;
      }
    }

    /** One update listener, run by every registered listener set in turn. */
    method RunUpdateListeners(requestId: Value, updates: LogEntry)
      requires Valid() && "requestId" !in updates
      modifies this
      ensures Valid()
      ensures requestLog == if old(loggingEnabled) then UpdatedLog(old(requestLog), requestId, updates) else old(requestLog)
      ensures loggingEnabled == old(loggingEnabled) && listenerSets == old(listenerSets)
    {
      if !loggingEnabled {
        return;
      }
      ghost var start := requestLog;
      var i := 0;
      while i < listenerSets
        invariant 0 <= i <= listenerSets && Valid()
        invariant requestLog == if i == 0 then start else UpdatedLog(start, requestId, updates)
        invariant loggingEnabled == old(loggingEnabled) && listenerSets == old(listenerSets)
      {
        if i > 0 {
          UpdateIdempotent(start, requestId, updates);
        }
        UpdateLogEntry(requestId, updates);
        i := i + 1;
      }
    }

    /** The onSendHeaders, onHeadersReceived, onCompleted and onErrorOccurred listeners. */
    method OnSendHeaders(details: Value)
      requires Valid()
      modifies this
      ensures Valid()
      ensures requestLog == if old(loggingEnabled) then UpdatedLog(old(requestLog), Field(details, "requestId"), SendHeadersUpdate(details))
                            else old(requestLog)
      ensures loggingEnabled == old(loggingEnabled) && listenerSets == old(listenerSets)
    {
      RunUpdateListeners(Field(details, "requestId"), SendHeadersUpdate(details));
    }

    method OnHeadersReceived(details: Value)
      requires Valid()
      modifies this
      ensures Valid()
      ensures requestLog == if old(loggingEnabled) then UpdatedLog(old(requestLog), Field(details, "requestId"), HeadersReceivedUpdate(details))
                            else old(requestLog)
      ensures loggingEnabled == old(loggingEnabled) && listenerSets == old(listenerSets)
    {
      RunUpdateListeners(Field(details, "requestId"), HeadersReceivedUpdate(details));
    }

    method OnCompleted(details: Value)
      requires Valid()
      modifies this
      ensures Valid()
      ensures requestLog == if old(loggingEnabled) then UpdatedLog(old(requestLog), Field(details, "requestId"), CompletedUpdate(details))
                            else old(requestLog)
      ensures loggingEnabled == old(loggingEnabled) && listenerSets == old(listenerSets)
    {
      RunUpdateListeners(Field(details, "requestId"), CompletedUpdate(details));
    }

    method OnErrorOccurred(details: Value)
      requires Valid()
      modifies this
      ensures Valid()
      ensures requestLog == if old(loggingEnabled) then UpdatedLog(old(requestLog), Field(details, "requestId"), ErrorUpdate(details))
                            else old(requestLog)
      ensures loggingEnabled == old(loggingEnabled) && listenerSets == old(listenerSets)
    {
      RunUpdateListeners(Field(details, "requestId"), ErrorUpdate(details));
    }

    method StartLogging() returns (r: Value)
      requires Valid()
      modifies this
      ensures Valid()
      ensures r == Obj(map["logging" := Bool(true)])
      ensures loggingEnabled && requestLog == old(requestLog)
      ensures listenerSets == if old(loggingEnabled) then old(listenerSets) else old(listenerSets) + 1
    {
      InitNetworkLogging();
      r := Obj(map["logging" := Bool(true)]);
    }

    method StopLogging() returns (r: Value)
      requires Valid()
      modifies this
      ensures Valid()
      ensures r == Obj(map["logging" := Bool(false)])
      ensures !loggingEnabled && requestLog == old(requestLog) && listenerSets == old(listenerSets)
    {
      loggingEnabled := false;
      r := Obj(map["logging" := Bool(false)]);
    }

    method IsLogging() returns (r: Value)
      ensures r == Obj(map["logging" := Bool(loggingEnabled)])
    {
      r := Obj(map["logging" := Bool(loggingEnabled)]);
    }

    method ClearLog() returns (r: Value)
      requires Valid()
      modifies this
      ensures Valid()
      ensures r == Obj(map["cleared" := Num(|old(requestLog)|)])
      ensures requestLog == [] && loggingEnabled == old(loggingEnabled) && listenerSets == old(listenerSets)
    {
      var count := |requestLog|;
      requestLog := [];
      r := Obj(map["cleared" := Num(count)]);
    }

    /** getLog over a copy of the live log: the log itself is left as it is. */
    method GetLogOf(params: Value, urlMatches: (string, Value) -> bool, regexError: string -> Option<string>) returns (r: Result<seq<Value>, string>)
      ensures r == GetLog(requestLog, params, urlMatches, regexError)
    {
      r := GetLog(requestLog, params, urlMatches, regexError);
    }

    method GetRequestOf(params: Value) returns (r: Result<Value, string>)
      ensures r == GetRequest(requestLog, params)
    {
      r := GetRequest(requestLog, params);
    }

    /** getStats: the tab filter, then one pass over the entries that passed it. */
    method GetStats(params: Value) returns (stats: Stats)
      ensures stats == StatsFor(requestLog, params)
    {
      var filtered := TabStage(requestLog, QueryOf(params).tabId);
      stats := CountEntries(filtered);
    }
  }
}
