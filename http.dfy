/** The transport pipeline of src/HTTP/HTTPClient.cs: request targets built from an
    endpoint template, positional route parameters and a query dictionary; the ten
    request variants; the status check that turns a non-2xx response into an
    HTTPRequestFailedException; and the lazily created System.Net.Http.HttpClient. */
module Http {
  import opened Results
  import opened Strings

  /** The entries of a Dictionary<string, string>, in enumeration (insertion) order. */
  predicate DistinctKeys(d: seq<(string, string)>) {
    forall i, j :: 0 <= i < j < |d| ==> d[i].0 != d[j].0
  }

  type Dict = d: seq<(string, string)> | DistinctKeys(d)

  /** A System.TimeSpan, counted in 100-nanosecond ticks. */
  datatype TimeSpan = TimeSpan(ticks: int)

  function FromSeconds(s: int): TimeSpan { TimeSpan(s * 10_000_000) }

  // ---------------------------------------------------------------------------
  // Query strings and endpoints
  // ---------------------------------------------------------------------------

  /** The `key=value` text of one dictionary entry, both parts copied verbatim. */
  function EntryText(e: (string, string)): string { e.0 + "=" + e.1 }

  function EntryTexts(q: seq<(string, string)>): (r: seq<string>)
    ensures |r| == |q|
    ensures forall i :: 0 <= i < |q| ==> r[i] == EntryText(q[i])
  {
    seq(|q|, i requires 0 <= i < |q| => EntryText(q[i]))
  }

  /** ConvertToQueryString: nothing for a null or empty dictionary, otherwise `?`
      followed by the entries joined with `&`, without any escaping. */
  function ConvertToQueryString(q: Option<Dict>): (r: string)
    ensures r == [] <==> q.None? || |q.value| == 0
    ensures r != [] ==> r[0] == '?'
  {
    if q.None? || |q.value| == 0 then [] else "?" + Join(EntryTexts(q.value), '&')
  }

  /** BuildEndpoint: the template itself when there are no route parameters (even if it
      holds placeholders), otherwise string.Format(endpoint, routeParams); None stands for
      the FormatException. */
  function BuildEndpoint(endpoint: string, routeParams: Option<seq<string>>): (r: Option<string>)
    ensures routeParams.None? || |routeParams.value| == 0 ==> r == Some(endpoint)
  {
    if routeParams.None? || |routeParams.value| == 0 then Some(endpoint)
    else Format(endpoint, routeParams.value)
  }

  /** With route parameters, every `{i}` of the template is replaced by routeParams[i] and
      unused parameters are ignored; an index with no parameter is a FormatException. */
  lemma BuildEndpointSubstitutes(ps: seq<Piece>, routeParams: seq<string>)
    requires |routeParams| > 0
    ensures BuildEndpoint(TemplateText(ps), Some(routeParams))
         == if ItemsBelow(ps, |routeParams|) then Some(Render(ps, routeParams)) else None
  {
    FormatTemplate(ps, routeParams);
  }

  /** Query entries that survive being written without escaping: no key holds `=` or
      `&`, no value holds `&`. */
  predicate TransportSafe(q: seq<(string, string)>) {
    forall i :: 0 <= i < |q| ==> '=' !in q[i].0 && '&' !in q[i].0 && '&' !in q[i].1
  }

  /** Reads a query string (after its `?`) back into its entries. */
  function ParseQuery(s: string): (q: seq<(string, string)>)
  {
    if s == [] then []
    else
      var parts := Split(s, '&');
      seq(|parts|, i requires 0 <= i < |parts| => Cut(parts[i], '='))
  }

  /** Reads a request target back into its path and query entries. */
  function ParseTarget(t: string): (string, seq<(string, string)>)
  {
    if '?' !in t then (t, []) else var (p, qs) := Cut(t, '?'); (p, ParseQuery(qs))
  }

  /** The target `path ++ ConvertToQueryString(q)` splits back into the path, first, and
      exactly the dictionary's entries, in order, with keys and values unchanged. */
  lemma QueryRoundTrip(path: string, q: Option<Dict>)
    requires '?' !in path
    requires q.Some? ==> TransportSafe(q.value)
    ensures ParseTarget(path + ConvertToQueryString(q)) == (path, if q.Some? then q.value else [])
  {
    var qs := ConvertToQueryString(q);
    if qs == [] {
      assert path + qs == path;
    } else {
      var d := q.value;
      var es := EntryTexts(d);
      var j := Join(es, '&');
      assert path + qs == path + ['?'] + j;
      CutAfter(path, '?', j);
      assert '?' in path + qs by { assert (path + qs)[|path|] == '?'; }
      forall i | 0 <= i < |es| ensures '&' !in es[i] {
        assert es[i] == d[i].0 + ['='] + d[i].1;
      }
      SplitJoin(es, '&');
      assert j != [] by {
        if |es| > 1 { assert j == es[0] + ['&'] + Join(es[1..], '&'); }
        assert |es[0]| > 0 by { assert es[0] == d[0].0 + ['='] + d[0].1; }
      }
      var parsed := ParseQuery(j);
      assert |parsed| == |d|;
      forall i | 0 <= i < |d| ensures parsed[i] == d[i] {
        assert es[i] == d[i].0 + ['='] + d[i].1;
        CutAfter(d[i].0, '=', d[i].1);
      }
      assert parsed == d;
    }
  }

  /** Values are copied without escaping, so a value holding `&` reads back as two
      entries. */
  lemma AmpersandIsNotEscaped()
    ensures ConvertToQueryString(Some([("a", "x&y")])) == "?a=x&y"
    ensures ParseTarget("p" + ConvertToQueryString(Some([("a", "x&y")])))
         == ("p", [("a", "x"), ("y", "")])
  {
    var d: Dict := [("a", "x&y")];
    var s := "a=x&y";
    assert EntryText(d[0]) == "a" + "=" + "x&y" == s;
    assert EntryTexts(d) == [s];
    assert ConvertToQueryString(Some(d)) == "?" + s;
    var t := "p" + ("?" + s);
    assert t == "p" + ['?'] + s;
    CutAfter("p", '?', s);
    assert '?' in t by { assert t[1] == '?'; }
    ParseAmpersandQuery();
  }

  lemma ParseAmpersandQuery()
    ensures ParseQuery("a=x&y") == [("a", "x"), ("y", "")]
  {
    var s := "a=x&y";
    assert s == "a=x" + ['&'] + "y";
    SplitAfter("a=x", '&', "y");
    SplitWithout("y", '&');
    var parts := Split(s, '&');
    assert parts == ["a=x", "y"];
    assert "a=x" == "a" + ['='] + "x";
    CutAfter("a", '=', "x");
    assert Cut("y", '=') == ("y", []) by {
      var e: string := [];
      assert "y"[1..] == e;
      assert Cut(e, '=') == ([], []);
      assert ['y'] + e == "y";
    }
    assert ParseQuery(s) == [Cut(parts[0], '='), Cut(parts[1], '=')];
  }

  // ---------------------------------------------------------------------------
  // Requests
  // ---------------------------------------------------------------------------

  datatype Verb = GET | POST | PUT | DELETE

  /** What is sent: verb, target (relative to the base address, or absolute for
      SendAsync), per-request headers layered over the client's defaults, and body. */
  datatype Request<B> = Request(verb: Verb, target: string, headers: seq<(string, string)>, body: Option<B>)

  /** The inputs of each public request method of HTTPClient, one constructor per
      overload; the decoder or action is passed separately. */
  datatype Call<B> =
    | DeleteText(endpoint: string, routeParams: Option<seq<string>>)
    | DeleteWithAction(endpoint: string, query: Option<Dict>, routeParams: Option<seq<string>>)
    | GetText(endpoint: string, query: Option<Dict>, routeParams: Option<seq<string>>)
    | PostText(endpoint: string, body: B, routeParams: Option<seq<string>>)
    | PutText(endpoint: string, body: B, routeParams: Option<seq<string>>)
    | GetDecoded(endpoint: string, query: Option<Dict>, routeParams: Option<seq<string>>)
    | PostDecoded(endpoint: string, body: B, query: Option<Dict>, routeParams: Option<seq<string>>)
    | PostWithAction(endpoint: string, body: B, query: Option<Dict>, routeParams: Option<seq<string>>)
    | PutDecoded(endpoint: string, body: B, query: Option<Dict>, routeParams: Option<seq<string>>)
    | SendDecoded(request: Request<B>)

  /** How a variant handles a 2xx response: return the body text, call an action on it,
      or return what a decoder makes of it. */
  datatype Style = Raw | Action | Typed

  function StyleOf<B>(call: Call<B>): Style
  {
    match call
    case DeleteText(_, _) => Raw
    case GetText(_, _, _) => Raw
    case PostText(_, _, _) => Raw
    case PutText(_, _, _) => Raw
    case DeleteWithAction(_, _, _) => Action
    case PostWithAction(_, _, _, _) => Action
    case _ => Typed
  }

  /** The three overloads that take no query dictionary append no query string. */
  predicate TakesQuery<B>(call: Call<B>) {
    call.DeleteWithAction? || call.GetText? || call.GetDecoded? || call.PostDecoded?
    || call.PostWithAction? || call.PutDecoded?
  }

  function VerbOf<B>(call: Call<B>): Verb
  {
    match call
    case DeleteText(_, _) => DELETE
    case DeleteWithAction(_, _, _) => DELETE
    case GetText(_, _, _) => GET
    case GetDecoded(_, _, _) => GET
    case PostText(_, _, _) => POST
    case PostDecoded(_, _, _, _) => POST
    case PostWithAction(_, _, _, _) => POST
    case PutText(_, _, _) => PUT
    case PutDecoded(_, _, _, _) => PUT
    case SendDecoded(r) => r.verb
  }

  /** The request a call sends, or the FormatException its template raises. */
  function RequestOf<B>(call: Call<B>): Result<Request<B>, Fault>
  {
    if call.SendDecoded? then Ok(call.request)
    else
      var path := BuildEndpoint(call.endpoint, call.routeParams);
      if path.None? then Err(FormatException)
      else
        var target := if TakesQuery(call) then path.value + ConvertToQueryString(call.query) else path.value;
        var body := if call.PostText? || call.PutText? || call.PostDecoded? || call.PostWithAction? || call.PutDecoded?
                    then Some(call.body) else None;
        Ok(Request(VerbOf(call), target, [], body))
  }

  /** Every variant except SendAsync sends its own verb with no per-request header; the
      query-capable ones send `BuildEndpoint(..) ++ ConvertToQueryString(..)`, path first,
      and the other three the path alone. When the path holds no `?` and the query is
      TransportSafe (no `=` or `&` in a key, no `&` in a value), the receiving end splits the target
      back into exactly that path and that query. */
  lemma RequestTarget<B>(call: Call<B>, path: string)
    requires !call.SendDecoded?
    requires BuildEndpoint(call.endpoint, call.routeParams) == Some(path)
    ensures RequestOf(call).Ok?
    ensures RequestOf(call).value.verb == VerbOf(call) && RequestOf(call).value.headers == []
    ensures TakesQuery(call) ==> RequestOf(call).value.target == path + ConvertToQueryString(call.query)
    ensures !TakesQuery(call) ==> RequestOf(call).value.target == path
    ensures '?' !in path && (TakesQuery(call) && call.query.Some? ==> TransportSafe(call.query.value)) ==>
              ParseTarget(RequestOf(call).value.target)
              == (path, if TakesQuery(call) && call.query.Some? then call.query.value else [])
  {
    if '?' !in path && (TakesQuery(call) && call.query.Some? ==> TransportSafe(call.query.value)) {
      if TakesQuery(call) {
        QueryRoundTrip(path, call.query);
      } else {
        assert '?' !in RequestOf(call).value.target;
      }
    }
  }

  // ---------------------------------------------------------------------------
  // Responses
  // ---------------------------------------------------------------------------

  /** What came back: the numeric status, its HttpStatusCode name and the body text. */
  datatype HttpResponse = HttpResponse(statusCode: int, statusName: string, body: string)

  /** EnsureSuccessStatusCode accepts exactly the 2xx range. */
  predicate IsSuccessStatus(code: int) { 200 <= code <= 299 }

  /** HTTPRequestFailedException: the full body, the numeric status and the status name. */
  datatype TransportFailure = TransportFailure(response: string, statusCode: int, statusMessage: string)

  /** An exception that the pipeline lets through: the FormatException of BuildEndpoint,
      or whatever a decoder or action threw (its message). */
  datatype Fault = FormatException | Thrown(message: string)

  /** The end of one request: a value, an HTTPRequestFailedException, or another exception. */
  datatype Outcome<T> = Success(value: T) | Failed(failure: TransportFailure) | Raised(fault: Fault)

  function FailureOf(resp: HttpResponse): (f: TransportFailure)
    ensures f.response == resp.body && f.statusCode == resp.statusCode && f.statusMessage == resp.statusName
  {
    TransportFailure(resp.body, resp.statusCode, resp.statusName)
  }

  /** The string-returning variants: the body on a 2xx status, otherwise the failure. */
  function ReceiveText(resp: HttpResponse): (r: Outcome<string>)
    ensures r.Success? <==> IsSuccessStatus(resp.statusCode)
    ensures r.Success? ==> r.value == resp.body
    ensures !r.Success? ==> r == Failed(FailureOf(resp))
  {
    if IsSuccessStatus(resp.statusCode) then Success(resp.body) else Failed(FailureOf(resp))
  }

  /** The decoder and action variants: the handler runs on the body only after a 2xx
      status, and what it throws is passed on unwrapped. An action is a handler whose
      result is (). */
  function ReceiveWith<T>(resp: HttpResponse, handler: string -> Result<T, string>): (r: Outcome<T>)
    ensures r.Failed? <==> !IsSuccessStatus(resp.statusCode)
    ensures r.Failed? ==> r.failure == FailureOf(resp)
  {
    if !IsSuccessStatus(resp.statusCode) then Failed(FailureOf(resp))
    else match handler(resp.body)
      case Ok(v) => Success(v)
      case Err(m) => Raised(Thrown(m))
  }

  /** On a failing status the handler is never consulted: any two handlers give the same
      outcome. */
  lemma FailureIgnoresHandler<T>(resp: HttpResponse, h1: string -> Result<T, string>, h2: string -> Result<T, string>)
    requires !IsSuccessStatus(resp.statusCode)
    ensures ReceiveWith(resp, h1) == ReceiveWith(resp, h2)
  {
  }

  /** On a 2xx status the outcome is exactly what the handler made of the body. */
  lemma SuccessIsHandlerResult<T>(resp: HttpResponse, handler: string -> Result<T, string>)
    requires IsSuccessStatus(resp.statusCode)
    ensures handler(resp.body).Ok? ==> ReceiveWith(resp, handler) == Success(handler(resp.body).value)
    ensures handler(resp.body).Err? ==> ReceiveWith(resp, handler) == Raised(Thrown(handler(resp.body).error))
  {
  }

  /** The raw variants behave as the decoding ones do with a decoder that returns the body. */
  lemma TextIsIdentityDecoding(resp: HttpResponse)
    ensures ReceiveText(resp) == ReceiveWith(resp, (s: string) => Ok(s))
  {
  }

  function PerformText<B>(call: Call<B>, server: Request<B> -> HttpResponse): Outcome<string>
    requires StyleOf(call) == Raw
  {
    match RequestOf(call)
    case Err(f) => Raised(f)
    case Ok(req) => ReceiveText(server(req))
  }

  function PerformWith<B, T>(call: Call<B>, handler: string -> Result<T, string>, server: Request<B> -> HttpResponse): Outcome<T>
    requires StyleOf(call) != Raw
  {
    match RequestOf(call)
    case Err(f) => Raised(f)
    case Ok(req) => ReceiveWith(server(req), handler)
  }

  /** The bodies a call hands to its decoder or action: the one body of a 2xx response,
      and nothing otherwise. */
  function HandlerInputs<B>(call: Call<B>, server: Request<B> -> HttpResponse): (s: seq<string>)
    ensures |s| <= 1
    ensures s == [] <==> RequestOf(call).Err? || !IsSuccessStatus(server(RequestOf(call).value).statusCode)
    ensures |s| == 1 ==> s[0] == server(RequestOf(call).value).body
  {
    match RequestOf(call)
    case Err(_) => []
    case Ok(req) => if IsSuccessStatus(server(req).statusCode) then [server(req).body] else []
  }

  /** The handler is consulted on those bodies and on nothing else: two handlers that agree
      on every body the call hands over give the same outcome. */
  lemma HandlerSeesOnlyInputs<B, T>(call: Call<B>, h1: string -> Result<T, string>, h2: string -> Result<T, string>,
                                    server: Request<B> -> HttpResponse)
    requires StyleOf(call) != Raw
    requires forall b :: b in HandlerInputs(call, server) ==> h1(b) == h2(b)
    ensures PerformWith(call, h1, server) == PerformWith(call, h2, server)
  {
    match RequestOf(call)
    case Err(_) =>
    case Ok(req) =>
      if IsSuccessStatus(server(req).statusCode) {
        assert server(req).body in HandlerInputs(call, server);
      } else {
        FailureIgnoresHandler(server(req), h1, h2);
      }
  }

  // ---------------------------------------------------------------------------
  // The client object
  // ---------------------------------------------------------------------------

  /** HTTPClient's configuration as its constructor fixes it: headers default to an empty
      dictionary and the timeout to 90 seconds. */
  datatype ClientOptions = ClientOptions(host: string, headers: Dict, timeout: TimeSpan)

  function NewOptions(host: string, headers: Option<Dict> := None, timeout: Option<TimeSpan> := None): (o: ClientOptions)
    ensures o.host == host
    ensures headers.Some? ==> o.headers == headers.value
    ensures headers.None? ==> o.headers == []
    ensures timeout.Some? ==> o.timeout == timeout.value
    ensures timeout.None? ==> o.timeout == FromSeconds(90)
  {
    ClientOptions(host, if headers.Some? then headers.value else [], if timeout.Some? then timeout.value else FromSeconds(90))
  }

  /** The System.Net.Http.HttpClient instance, as far as this client configures it. */
  class NetClient {
    var baseAddress: Option<string>
    var defaultHeaders: seq<(string, string)>
    var timeout: TimeSpan
    var disposed: bool

    constructor ()
      ensures baseAddress == None && defaultHeaders == [] && timeout == FromSeconds(100) && !disposed
    {
      baseAddress := None;
      defaultHeaders := [];
      timeout := FromSeconds(100);
      disposed := false;
    }

    /** DefaultRequestHeaders.Add. */
    method AddDefaultHeader(name: string, value: string)
      modifies this`defaultHeaders
      ensures defaultHeaders == old(defaultHeaders) + [(name, value)]
    {
      defaultHeaders := defaultHeaders + [(name, value)];
    }

    method Dispose()
      modifies this`disposed
      ensures disposed
    {
      disposed := true;
    }
  }

  class HttpClient {
    const options: ClientOptions
    var client: NetClient?
    /** How many NetClient instances this object has created. */
    ghost var creations: nat
    /** The bodies handed to decoders and actions so far, in order. */
    ghost var handled: seq<string>

    ghost predicate Configured(c: NetClient)
      reads c
    {
      && c.baseAddress == (if options.host == "" then None else Some(options.host))
      && c.defaultHeaders == options.headers
      && c.timeout == options.timeout
    }

    ghost predicate Valid()
      reads this, client
    {
      && creations == (if client == null then 0 else 1)
      && (client != null ==> Configured(client))
    }

    constructor (host: string, headers: Option<Dict> := None, timeout: Option<TimeSpan> := None)
      ensures options == NewOptions(host, headers, timeout)
      ensures client == null && handled == []
      ensures Valid()
    {
      options := NewOptions(host, headers, timeout);
      client := null;
      creations := 0;
      handled := [];
    }

    /** GetClientInstance: creates and configures the NetClient on the first call only;
        every later call returns that same instance untouched. */
    method GetClientInstance() returns (c: NetClient)
      requires Valid()
      modifies this
      ensures Valid() && c == client && creations <= 1
      ensures old(client) != null ==> c == old(client)
      ensures old(client) == null ==> fresh(c) && !c.disposed
      ensures handled == old(handled)
    {
      if client == null {
        c := new NetClient();
        if options.host != "" {
          c.baseAddress := Some(options.host);
        }
        if |options.headers| > 0 {
          var entries := options.headers;
          var i := 0;
          while i < |entries|
            invariant 0 <= i <= |entries|
            modifies c
            invariant c.defaultHeaders == entries[..i]
            invariant !c.disposed
            invariant c.baseAddress == (if options.host == "" then None else Some(options.host))
          {
            c.AddDefaultHeader(entries[i].0, entries[i].1);
            i := i + 1;
          }
          assert entries[..i] == entries;
        }
        c.timeout := options.timeout;
        client := c;
        creations := creations + 1;
      } else {
        c := client;
      }
    }

    /** One of the four string-returning overloads. */
    method InvokeText<B>(call: Call<B>, server: Request<B> -> HttpResponse) returns (r: Outcome<string>)
      requires Valid() && StyleOf(call) == Raw
      modifies this
      ensures Valid() && client != null
      ensures old(client) != null ==> client == old(client)
      ensures r == PerformText(call, server)
      ensures handled == old(handled)
    {
      var _ := GetClientInstance();
      r := PerformText(call, server);
    }

    /** One of the decoder or action overloads, SendAsync included. */
    method InvokeWith<B, T>(call: Call<B>, handler: string -> Result<T, string>, server: Request<B> -> HttpResponse)
      returns (r: Outcome<T>)
      requires Valid() && StyleOf(call) != Raw
      modifies this
      ensures Valid() && client != null
      ensures old(client) != null ==> client == old(client)
      ensures r == PerformWith(call, handler, server)
      ensures handled == old(handled) + HandlerInputs(call, server)
    {
      var _ := GetClientInstance();
      r := PerformWith(call, handler, server);
      handled := handled + HandlerInputs(call, server);
    }

    /** Dispose: disposes the NetClient if one was created, and nothing otherwise. */
    method Dispose()
      requires Valid()
      modifies client
      ensures Valid()
      ensures client != null ==> client.disposed
    {
      if client != null {
        client.Dispose();
      }
    }
  }
}
