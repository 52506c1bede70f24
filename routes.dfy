/** The pure part of the relay's HTTP router (server/index.js, handleRoute): the action name derived
    from the path, the target browser chosen from query and body, and the parameter bag handed to the
    browser. */
module Routes {
  import opened Wrappers
  import opened Text
  import opened Values

  /** The entries of a URL's search parameters, in order. */
  type Query = seq<(string, string)>

  /** The path without its leading character, every `/` turned into `.`: `/tabs/list` names `tabs.list`. */
  function ActionName(path: string): (action: string)
    ensures |action| == if |path| == 0 then 0 else |path| - 1
    ensures forall i :: 0 <= i < |action| ==> action[i] == (if path[i + 1] == '/' then '.' else path[i + 1])
  {
    ReplaceChar(if |path| == 0 then "" else path[1..], '/', '.')
  }

  lemma {:induction false} ReplaceJoin(segs: seq<string>)
    requires |segs| >= 1
    requires forall i :: 0 <= i < |segs| ==> '/' !in segs[i]
    ensures ReplaceChar(Join(segs, '/'), '/', '.') == Join(segs, '.')
    decreases |segs|
  {
    var a := segs[0];
    if |segs| == 1 {
      assert ReplaceChar(a, '/', '.') == a;
    } else {
      var t := Join(segs[1..], '/');
      ReplaceJoin(segs[1..]);
      var whole := a + ['/'] + t;
      assert Join(segs, '/') == whole;
      var lhs := ReplaceChar(whole, '/', '.');
      var rhs := a + ['.'] + ReplaceChar(t, '/', '.');
      forall i | 0 <= i < |lhs| ensures lhs[i] == rhs[i] {
        if i < |a| {
          assert whole[i] == a[i];
        } else if i > |a| {
          assert whole[i] == t[i - |a| - 1];
        }
      }
      assert lhs == rhs;
    }
  }

  /** A path made of segments separated by `/` names the action made of the same segments
      separated by `.`. */
  lemma ActionNameOfSegments(segs: seq<string>)
    requires |segs| >= 1
    requires forall i :: 0 <= i < |segs| ==> '/' !in segs[i]
    ensures ActionName("/" + Join(segs, '/')) == Join(segs, '.')
  {
    assert ("/" + Join(segs, '/'))[1..] == Join(segs, '/');
    ReplaceJoin(segs);
  }

  /** `searchParams.get(key)`: the value of the first entry for `key`; None when there is none. */
  function FirstValue(query: Query, key: string): (r: Option<string>)
    ensures r.None? <==> forall i :: 0 <= i < |query| ==> query[i].0 != key
    ensures r.Some? ==> exists i :: 0 <= i < |query| && query[i] == (key, r.value) &&
                                    forall j :: 0 <= j < i ==> query[j].0 != key
    decreases |query|
  {
    if query == [] then None
    else if query[0].0 == key then Some(query[0].1)
    else
      var r := FirstValue(query[1..], key);
      assert forall i :: 1 <= i < |query| ==> query[i] == query[1..][i - 1];
      assert r.Some? ==> exists i :: 0 <= i < |query[1..]| && query[1..][i] == (key, r.value) &&
                                     forall j :: 0 <= j < i ==> query[1..][j].0 != key;
      r
  }

  /** The value a later assignment loop leaves for `key`: the last one given. */
  function LastValue(query: Query, key: string): Option<string>
    decreases |query|
  {
    if query == [] then None
    else if query[|query| - 1].0 == key then Some(query[|query| - 1].1)
    else LastValue(query[..|query| - 1], key)
  }

  function QueryKeys(query: Query): set<string>
    decreases |query|
  {
    if query == [] then {} else QueryKeys(query[..|query| - 1]) + {query[|query| - 1].0}
  }

  lemma {:induction false} LastValueKeys(query: Query)
    ensures forall k :: LastValue(query, k).Some? <==> k in QueryKeys(query)
    decreases |query|
  {
    if query != [] {
      LastValueKeys(query[..|query| - 1]);
    }
  }

  /** `params.get('browser') || body.browser`: the query's value wins unless it is missing or empty. */
  function TargetOf(query: Query, body: map<string, Value>): (t: Value)
    ensures FirstValue(query, "browser").Some? && FirstValue(query, "browser").value != "" ==>
              t == Str(FirstValue(query, "browser").value)
    ensures FirstValue(query, "browser").None? || FirstValue(query, "browser").value == "" ==>
              t == Field(Obj(body), "browser")
  {
    var fromQuery := match FirstValue(query, "browser") case Some(v) => Str(v) case None => Null;
    Or(fromQuery, Field(Obj(body), "browser"))
  }

  /** A missing target, or the literal `all`, fans out to every connected browser. */
  predicate TargetsAll(target: Value) {
    !Truthy(target) || target == Str("all")
  }

  /** The parameters sent to the browser: the body without `browser`, every query entry other than
      `browser` laid over it, a later entry overriding an earlier one. Query values are strings. A
      query key `__proto__` is lost unless the body has an own `__proto__` property. */
  function ActionParams(body: map<string, Value>, query: Query): (p: map<string, Value>)
    ensures "browser" !in p
    ensures forall k :: k in p <==>
              k != "browser" && (k in body || (LastValue(query, k).Some? && k != "__proto__"))
    ensures forall k :: k in p && LastValue(query, k).Some? ==> p[k] == Str(LastValue(query, k).value)
    ensures forall k :: k in p && LastValue(query, k).None? ==> p[k] == body[k]
    decreases |query|
  {
    if query == [] then body - {"browser"}
    else
      var (key, value) := query[|query| - 1];
      var p := ActionParams(body, query[..|query| - 1]);
      assert forall k :: k != key ==> LastValue(query, k) == LastValue(query[..|query| - 1], k);
      if key == "browser" then p else AssignProperty(p, key, Str(value))
  }

  /** `?__proto__=x` reaches the browser only when the body carries its own `__proto__`. */
  lemma ProtoQueryKey(body: map<string, Value>, query: Query, value: string)
    ensures "__proto__" in ActionParams(body, query + [("__proto__", value)]) <==> "__proto__" in body
    ensures "__proto__" in body ==> ActionParams(body, query + [("__proto__", value)])["__proto__"] == Str(value)
  {
    assert (query + [("__proto__", value)])[..|query|] == query;
  }

  /** The loop of handleRoute that builds `actionParams`. */
  method BuildActionParams(body: map<string, Value>, query: Query) returns (p: map<string, Value>)
    ensures p == ActionParams(body, query)
  {
    p := body - {"browser"};
    assert p == ActionParams(body, []) by {
      var q := ActionParams(body, []);
      assert forall k :: k in p <==> k in q;
      assert forall k :: k in p ==> p[k] == q[k];
    }
    var i := 0;
    while i < |query|
      invariant 0 <= i <= |query|
      invariant p == ActionParams(body, query[..i])
    {
      var (key, value) := query[i];
      assert query[..i + 1][..i] == query[..i];
      if key != "browser" {
        p := AssignProperty(p, key, Str(value));
      }
      i := i + 1;
    }
    assert query[..|query|] == query;
  }
}
