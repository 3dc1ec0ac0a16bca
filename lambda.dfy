/** The API Gateway Lambda in front of the service: it tells WebSocket route
    events from HTTP events, answers the former itself, and forwards the
    latter to the web service. An event is the decoded JSON API Gateway hands
    the handler. */
module Lambda {
  import opened Text
  import opened Json

  const InternalServerErrorBody := "{\"error\": \"Internal Server Error\"}"

  function Answer(code: int, body: string): Value {
    Dict2("statusCode", Num(code), "body", Str(body))
  }

  // ---------------------------------------------------------------------------
  // Building dicts from (name, value) pairs, as `dict(...)` and comprehensions do
  // ---------------------------------------------------------------------------

  /** `d.items()` */
  function Items(d: Value): (r: seq<(string, Value)>)
    requires d.Obj?
    ensures forall i | 0 <= i < |r| :: r[i].0 in d.fields && r[i].1 == d.fields[r[i].0]
    decreases |d.keys|
  {
    if d.keys == [] then []
    else
      var k := d.keys[0];
      (if k in d.fields then [(k, d.fields[k])] else []) + Items(Obj(d.keys[1..], d.fields))
  }

  /** Inserting the pairs in order into `acc`: a repeated name keeps its first
      place and takes its last value. */
  function Collect(pairs: seq<(string, Value)>, acc: Value): (r: Value)
    requires IsDict(acc)
    ensures IsDict(r)
    decreases |pairs|
  {
    if pairs == [] then acc else Collect(pairs[1..], Put(acc, pairs[0].0, pairs[0].1))
  }

  function Names(pairs: seq<(string, Value)>): set<string> {
    set i | 0 <= i < |pairs| :: pairs[i].0
  }

  lemma {:induction false} CollectKeys(pairs: seq<(string, Value)>, acc: Value)
    requires IsDict(acc)
    ensures Collect(pairs, acc).fields.Keys == acc.fields.Keys + Names(pairs)
    decreases |pairs|
  {
    if pairs != [] {
      CollectKeys(pairs[1..], Put(acc, pairs[0].0, pairs[0].1));
      assert Names(pairs) == {pairs[0].0} + Names(pairs[1..]) by {
        forall n | n in Names(pairs) ensures n in {pairs[0].0} + Names(pairs[1..]) {
          var i :| 0 <= i < |pairs| && pairs[i].0 == n;
          if i > 0 { assert pairs[1..][i - 1].0 == n; }
        }
      }
    }
  }

  /** The value under a pair's name is that of the last pair with the name. */
  lemma {:induction false} CollectLast(pairs: seq<(string, Value)>, acc: Value, i: nat)
    requires IsDict(acc)
    requires i < |pairs|
    requires forall j | i < j < |pairs| :: pairs[j].0 != pairs[i].0
    ensures pairs[i].0 in Collect(pairs, acc).fields && Collect(pairs, acc).fields[pairs[i].0] == pairs[i].1
    decreases |pairs|
  {
    var next := Put(acc, pairs[0].0, pairs[0].1);
    if i == 0 {
      CollectUntouched(pairs[1..], next, pairs[0].0);
    } else {
      CollectLast(pairs[1..], next, i - 1);
    }
  }

  /** Pairs with other names leave a name's value as it was. */
  lemma {:induction false} CollectUntouched(pairs: seq<(string, Value)>, acc: Value, n: string)
    requires IsDict(acc) && n in acc.fields
    requires forall j | 0 <= j < |pairs| :: pairs[j].0 != n
    ensures n in Collect(pairs, acc).fields && Collect(pairs, acc).fields[n] == acc.fields[n]
    decreases |pairs|
  {
    if pairs != [] {
      CollectUntouched(pairs[1..], Put(acc, pairs[0].0, pairs[0].1), n);
    }
  }

  /** `dict(pairs)` */
  function DictOf(pairs: seq<(string, Value)>): (r: Value)
    ensures IsDict(r) && r.fields.Keys == Names(pairs)
  {
    CollectKeys(pairs, EmptyDict);
    Collect(pairs, EmptyDict)
  }

  function LowerNames(pairs: seq<(string, Value)>): (r: seq<(string, Value)>)
    ensures |r| == |pairs|
    ensures forall i | 0 <= i < |r| :: r[i] == (Lower(pairs[i].0), pairs[i].1)
  {
    seq(|pairs|, i requires 0 <= i < |pairs| => (Lower(pairs[i].0), pairs[i].1))
  }

  /** `{k.lower(): v for k, v in headers.items()}` */
  function LowerHeaders(headers: Value): (r: Value)
    requires headers.Obj?
    ensures IsDict(r)
  {
    DictOf(LowerNames(Items(headers)))
  }

  /** Every forwarded header name is lower case, every header sent arrives
      under its lower-cased name, and when no two names differ only in case
      its value is the one sent. */
  lemma {:induction false} HeadersLowered(headers: Value)
    requires headers.Obj?
    ensures forall n | n in LowerHeaders(headers).fields :: IsLowerCase(n)
    ensures forall k | k in headers.keys && k in headers.fields :: Lower(k) in LowerHeaders(headers).fields
    ensures (forall i, j | 0 <= i < j < |Items(headers)| :: Lower(Items(headers)[i].0) != Lower(Items(headers)[j].0)) ==>
      forall i | 0 <= i < |Items(headers)| ::
        LowerHeaders(headers).fields[Lower(Items(headers)[i].0)] == Items(headers)[i].1
  {
    var pairs := LowerNames(Items(headers));
    forall n | n in LowerHeaders(headers).fields ensures IsLowerCase(n) {
      var i :| 0 <= i < |pairs| && pairs[i].0 == n;
      LowerProperties(Items(headers)[i].0);
    }
    forall k | k in headers.keys && k in headers.fields ensures Lower(k) in LowerHeaders(headers).fields {
      ItemsCover(headers, k);
      var i :| 0 <= i < |Items(headers)| && Items(headers)[i].0 == k;
      assert pairs[i].0 == Lower(k);
    }
    if forall i, j | 0 <= i < j < |Items(headers)| :: Lower(Items(headers)[i].0) != Lower(Items(headers)[j].0) {
      forall i | 0 <= i < |Items(headers)|
        ensures LowerHeaders(headers).fields[Lower(Items(headers)[i].0)] == Items(headers)[i].1
      {
        CollectLast(pairs, EmptyDict, i);
      }
    }
  }

  /** `items()` yields every key the dict's order lists. */
  lemma {:induction false} ItemsCover(d: Value, k: string)
    requires d.Obj? && k in d.keys && k in d.fields
    ensures exists i | 0 <= i < |Items(d)| :: Items(d)[i].0 == k
    decreases |d.keys|
  {
    var rest := Obj(d.keys[1..], d.fields);
    if d.keys[0] == k {
      assert Items(d)[0].0 == k;
    } else {
      ItemsCover(rest, k);
      var i :| 0 <= i < |Items(rest)| && Items(rest)[i].0 == k;
      var head := if d.keys[0] in d.fields then [(d.keys[0], d.fields[d.keys[0]])] else [];
      assert Items(d) == head + Items(rest);
      assert Items(d)[|head| + i].0 == k;
    }
  }

  // ---------------------------------------------------------------------------
  // handle_http
  // ---------------------------------------------------------------------------

  /** The request forwarded to the service. */
  datatype Forward = Forward(verb: Value, url: Value, headers: Value, body: Value)

  /** `f"{path}?{query}" if query else path` */
  function ForwardUrl(path: Value, query: Value): (r: Value)
    ensures Truthy(query) ==> r == Str(Display(path) + "?" + Display(query))
    ensures !Truthy(query) ==> r == path
  {
    if Truthy(query) then Str(Display(path) + "?" + Display(query)) else path
  }

  /** How the service splits a request target: the path runs to the first
      `?`, the query string is what follows it. */
  function SplitTarget(url: string): (r: (string, string))
    ensures |r.0| <= |url| && url[..|r.0|] == r.0 && '?' !in r.0
    decreases |url|
  {
    if url == [] then ([], [])
    else if url[0] == '?' then ([], url[1..])
    else var rest := SplitTarget(url[1..]); ([url[0]] + rest.0, rest.1)
  }

  lemma {:induction false} SplitTargetJoin(path: string, query: string)
    requires '?' !in path
    ensures SplitTarget(path + "?" + query) == (path, query)
    ensures SplitTarget(path) == (path, "")
    decreases |path|
  {
    if path != [] {
      var url := path + "?" + query;
      assert url[0] == path[0] && url[1..] == path[1..] + "?" + query;
      SplitTargetJoin(path[1..], query);
      assert [path[0]] + path[1..] == path;
    } else {
      assert path + "?" + query == "?" + query;
    }
  }

  /** The composed url gives the service back the path and the query string
      the client sent: an empty query string leaves the path bare. */
  lemma ForwardUrlRoundTrip(path: string, query: Value)
    requires '?' !in path
    ensures ForwardUrl(Str(path), query).Str?
    ensures SplitTarget(ForwardUrl(Str(path), query).s) == (path, if Truthy(query) then Display(query) else "")
  {
    SplitTargetJoin(path, Display(query));
  }

  /** What `handle_http` reads from the event before it opens the connection;
      a missing key, or headers that are not a dict, raise. */
  function ComposeRequest(event: Value): (r: Result<Forward>)
    ensures r.Ok? <==>
      && event.Obj? && "requestContext" in event.fields
      && event.fields["requestContext"].Obj? && "http" in event.fields["requestContext"].fields
      && event.fields["requestContext"].fields["http"].Obj?
      && "method" in event.fields["requestContext"].fields["http"].fields
      && "rawPath" in event.fields
      && Get(event, "headers", EmptyDict).value.Obj?
    ensures r.Ok? ==> r.value.verb == event.fields["requestContext"].fields["http"].fields["method"]
    ensures r.Ok? ==> event.Obj? && "rawPath" in event.fields && r.value.headers.Obj?
    ensures r.Ok? ==> r.value.url == ForwardUrl(event.fields["rawPath"], Get(event, "rawQueryString", Str("")).value)
    ensures r.Ok? ==> r.value.body == Get(event, "body", Str("")).value
    ensures r.Ok? ==> Get(event, "headers", EmptyDict).value.Obj? && r.value.headers == LowerHeaders(Get(event, "headers", EmptyDict).value)
  {
    var context :- Subscript(event, Name("requestContext"));
    var http :- Subscript(context, Name("http"));
    var verb :- Subscript(http, Name("method"));
    var path :- Subscript(event, Name("rawPath"));
    // `event` is a dict here, so `get` cannot fail
    var query := Get(event, "rawQueryString", Str("")).value;
    var headers := Get(event, "headers", EmptyDict).value;
    if !headers.Obj? then Err(NoAttribute(headers, "items"))
    else
      var body := Get(event, "body", Str("")).value;
      Ok(Forward(verb, ForwardUrl(path, query), LowerHeaders(headers), body))
  }

  /** The connection and the service's answer to the forwarded request.
      With `TARGET_IP` unset the connection cannot even be built, and that
      happens outside the `try`; otherwise the request or the response fails
      (connection, timeout, a body that is not UTF-8), or a status, header
      pairs and body text come back. */
  datatype Upstream =
    | NoTarget
    | ForwardFails(reason: string)
    | Responded(status: int, headers: seq<(string, Value)>, body: string)

  function HandleHttp(event: Value, upstream: Upstream): (r: Result<Value>)
    ensures r.Ok? <==> ComposeRequest(event).Ok? && !upstream.NoTarget?
    ensures ComposeRequest(event).Ok? && upstream.NoTarget? ==> r.Err? && r.error.TypeError?
    ensures r.Ok? && upstream.ForwardFails? ==> r.value == Answer(500, InternalServerErrorBody)
    ensures r.Ok? && upstream.Responded? ==>
      r.value == Dict3("statusCode", Num(upstream.status), "headers", DictOf(upstream.headers), "body", Str(upstream.body))
  {
    var request :- ComposeRequest(event);
    match upstream
    case NoTarget => Err(TypeError("expected string or bytes-like object, got 'NoneType'"))
    case ForwardFails(_) => Ok(Answer(500, InternalServerErrorBody))
    case Responded(status, headers, body) =>
      Ok(Dict3("statusCode", Num(status), "headers", DictOf(headers), "body", Str(body)))
  }

  // ---------------------------------------------------------------------------
  // handle_websocket and handler
  // ---------------------------------------------------------------------------

  /** `json.loads(event.get('body', '{}'))` succeeds: `decodes` says which
      texts are JSON; a body that is not text cannot be decoded. */
  predicate BodyDecodes(event: Value, decodes: string -> bool)
    requires event.Obj?
  {
    var body := Get(event, "body", Str("{}")).value;
    body.Str? && decodes(body.s)
  }

  function HandleWebsocket(event: Value, decodes: string -> bool): (r: Result<Value>)
    ensures r.Ok? <==>
      && event.Obj? && "requestContext" in event.fields
      && event.fields["requestContext"].Obj?
      && "routeKey" in event.fields["requestContext"].fields
      && "connectionId" in event.fields["requestContext"].fields
    ensures r.Ok? ==>
      var route := event.fields["requestContext"].fields["routeKey"];
      r.value == (if route == Str("$connect") then Answer(200, "Connected.")
                  else if route == Str("$disconnect") then Answer(200, "Disconnected.")
                  else if route == Str("$default") then
                    (if BodyDecodes(event, decodes) then Answer(200, "Message processed.")
                     else Answer(500, "Error processing message."))
                  else Answer(400, "Unknown route key."))
  {
    var context :- Subscript(event, Name("requestContext"));
    var route :- Subscript(context, Name("routeKey"));
    var _ :- Subscript(context, Name("connectionId"));
    if route == Str("$connect") then Ok(Answer(200, "Connected."))
    else if route == Str("$disconnect") then Ok(Answer(200, "Disconnected."))
    else if route == Str("$default") then
      if BodyDecodes(event, decodes) then Ok(Answer(200, "Message processed."))
      else Ok(Answer(500, "Error processing message."))
    else Ok(Answer(400, "Unknown route key."))
  }

  /** `'requestContext' in event and 'routeKey' in event['requestContext']`:
      the second test is a substring test when the context is a string. */
  function IsWebsocketEvent(event: Value): (r: Result<bool>)
    ensures event.Obj? && "requestContext" !in event.fields ==> r == Ok(false)
    ensures event.Obj? && "requestContext" in event.fields && event.fields["requestContext"].Obj? ==>
      r == Ok("routeKey" in event.fields["requestContext"].fields)
  {
    var hasContext :- Contains(event, "requestContext");
    if !hasContext then Ok(false)
    else
      var context :- Subscript(event, Name("requestContext"));
      Contains(context, "routeKey")
  }

  /** `handler(event, context)` */
  function Handler(event: Value, decodes: string -> bool, upstream: Upstream): (r: Result<Value>)
    ensures IsWebsocketEvent(event) == Ok(true) ==> r == HandleWebsocket(event, decodes)
    ensures IsWebsocketEvent(event) == Ok(false) ==> r == HandleHttp(event, upstream)
  {
    var websocket :- IsWebsocketEvent(event);
    if websocket then HandleWebsocket(event, decodes) else HandleHttp(event, upstream)
  }

  /** A WebSocket message without a body counts as the empty object, which
      always decodes; any other body is processed iff it decodes. */
  lemma DefaultRoute(event: Value, decodes: string -> bool, upstream: Upstream)
    requires event.Obj? && "requestContext" in event.fields
    requires event.fields["requestContext"].Obj?
    requires event.fields["requestContext"].fields.Keys >= {"routeKey", "connectionId"}
    requires event.fields["requestContext"].fields["routeKey"] == Str("$default")
    requires decodes("{}")
    ensures "body" !in event.fields ==> Handler(event, decodes, upstream) == Ok(Answer(200, "Message processed."))
    ensures "body" in event.fields && event.fields["body"].Str? ==>
      Handler(event, decodes, upstream) ==
        Ok(if decodes(event.fields["body"].s) then Answer(200, "Message processed.") else Answer(500, "Error processing message."))
  {
  }

  /** An event without a request context goes to the HTTP side, which reads
      the method from that context and so raises. */
  lemma NoContextRaises(event: Value, decodes: string -> bool, upstream: Upstream)
    requires event.Obj? && "requestContext" !in event.fields
    ensures Handler(event, decodes, upstream) == Err(KeyError("'requestContext'"))
  {
    assert "'" + "requestContext" + "'" == "'requestContext'";
  }

  /** An HTTP event whose forwarding fails is answered with 500 and the fixed
      error body. */
  lemma HttpForwardFailure(event: Value, decodes: string -> bool, reason: string)
    requires event.Obj? && "requestContext" in event.fields && "rawPath" in event.fields
    requires "headers" !in event.fields
    requires var context := event.fields["requestContext"];
      && context.Obj? && "routeKey" !in context.fields && "http" in context.fields
      && context.fields["http"].Obj? && "method" in context.fields["http"].fields
    ensures Handler(event, decodes, ForwardFails(reason)) == Ok(Answer(500, InternalServerErrorBody))
  {
  }
}
