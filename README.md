# MODBClient, modelled in Dafny

MODBClient is a small .NET client for the MODB key/value database server. It has two
layers, and this project models both.

- **Transport (`src/HTTP/HTTPClient.cs`)**
  - builds a request target from an endpoint template, positional route parameters
    (`string.Format`) and a query dictionary, written as `?k=v&…` with no escaping;
  - sends the request through a `System.Net.Http.HttpClient`, created lazily on first use;
  - turns any status outside 200–299 into an `HTTPRequestFailedException`. That exception
    carries the body, the numeric status and the status name;
  - otherwise the request returns the body text, calls an action on the body, or returns
    what a decoder makes of it.
- **Facade (`src/DBClient.cs`)**
  - checks each operation's arguments in declaration order;
  - builds one transport call under the base path `api/{version}`;
  - rethrows a transport failure as a `MODBRequestFailedException`, carrying the decoded
    error body and the same status code and status name.

The modules are:

- `Results`: `Option` and `Result`.
- `Strings`: the .NET string behaviour the client relies on:
  - `string.Format` with `{i}` items and `{{`/`}}` escapes; `None` stands for the
    `FormatException`;
  - `Int32.ToString()`;
  - `string.Join`;
  - a splitter used to read a query string back.
- `Http`: the transport.
  - A `Dictionary<string,string>` is an insertion-ordered sequence of pairs with distinct
    keys.
  - Each public request overload of `HTTPClient` is one constructor of `Call`.
  - The server is a parameter `server: Request -> HttpResponse`.
  - A decoder or action is a function `string -> Result<T, string>`. `Err` is the
    exception it throws, which the transport passes on unwrapped.
  - `HttpClient` is a class. Its nullable field `client` holds a `NetClient`, which stands
    for the `System.Net.Http.HttpClient` as far as the client configures it. A ghost
    counter records how many instances were created.
- `Dtos`: the record shapes of `src/DTOs.cs`.
- `MoDb`: the facade, as values.
  - The constructor is a function into `Result<DbClient, ArgumentError>`.
  - Each public operation is a constructor of `Operation`.
  - `Guard` gives the `ArgumentException` an operation throws.
  - `Plan` gives the transport call it makes, and `Describe` the request it sends.
  - `Run` gives its result, including the rewrapped failure.

A null string is modelled as the empty string. The facade only ever tests a string with
`string.IsNullOrEmpty` or interpolates it. The one exception is the transport's `endpoint`,
listed under "## Left out". A null dictionary or a null route-parameter array is `None`.

## Model

| member | source | states |
|---|---|---|
| `Http.ConvertToQueryString` | src/HTTP/HTTPClient.cs:138-143 | The result is empty exactly when the dictionary is null or has no entries; otherwise it starts with `?`. |
| `Http.QueryRoundTrip` | src/HTTP/HTTPClient.cs:142 | Each entry is written verbatim as `key=value`, in enumeration order. Reading `path + ConvertToQueryString(q)` back gives the path first, then exactly the dictionary's entries, in order and unchanged. Needs no `?` in the path, and no `=`/`&` in keys and no `&` in values. |
| `Http.AmpersandIsNotEscaped` | src/HTTP/HTTPClient.cs:142 | Nothing is escaped: the value `x&y` is written as `?a=x&y` and reads back as two entries. |
| `Http.ParseAmpersandQuery` | src/HTTP/HTTPClient.cs:142 | The query text `a=x&y` reads back as the entries `a=x` and `y=`. |
| `Strings.SplitJoin` | src/HTTP/HTTPClient.cs:142 | Splitting a `string.Join` result at its separator gives back the joined pieces, when none contains the separator. |
| `Strings.Join` | src/HTTP/HTTPClient.cs:142 | No ensures of its own: `string.Join` with one separator. SplitJoin states that it is undone by Split. |
| `Http.BuildEndpoint` | src/HTTP/HTTPClient.cs:145-149 | With a null or empty parameter array the template is returned unchanged, placeholders included. |
| `Http.BuildEndpointSubstitutes` | src/HTTP/HTTPClient.cs:148 | With parameters, every `{i}` becomes `routeParams[i]` in order and unused parameters are ignored. It is a FormatException exactly when some placeholder index is at or beyond the number of parameters. |
| `Strings.FormatTemplate` | src/HTTP/HTTPClient.cs:148 | Formatting a template, described piece by piece, keeps each literal character (`{{`/`}}` become one brace) and replaces each item by its argument. It fails exactly when an item has no argument. |
| `Strings.Format` | src/HTTP/HTTPClient.cs:148 | No ensures of its own: `string.Format` with positional items. FormatTemplate, BraceFreeFormat and FormatItem state what it computes. |
| `Strings.FormatLiteral` | src/HTTP/HTTPClient.cs:148 | Brace-free text in front of a template passes through formatting unchanged. |
| `Strings.BraceFreeFormat` | src/HTTP/HTTPClient.cs:148 | A template without braces formats to itself, whatever the arguments. |
| `Strings.FormatItem` | src/HTTP/HTTPClient.cs:148 | A leading `{i}` becomes `args[i]`, or fails when there is no argument `i`. |
| `Strings.FormatItemBetween` | src/HTTP/HTTPClient.cs:148 | One item `{i}` between brace-free text becomes `args[i]` in place. |
| `Strings.FormatOneItem` | src/HTTP/HTTPClient.cs:148 | `pre{0}post` formats to `pre + args[0] + post` when `pre` and `post` hold no braces. |
| `Strings.FormatTwoItems` | src/HTTP/HTTPClient.cs:148 | `pre{0}mid{1}post` formats to `pre + args[0] + mid + args[1] + post`. |
| `Http.RequestTarget` | src/HTTP/HTTPClient.cs:36-233 | Every overload except SendAsync sends its own verb with no per-request header. The query-capable ones send the built path followed by `ConvertToQueryString` of their dictionary; the raw Delete, Post and Put send the path alone. When the path holds no `?` and the entries are safe for the query syntax, the target reads back as (path, entries). |
| `Http.RequestOf` | src/HTTP/HTTPClient.cs:36-237 | No ensures of its own: the request each overload sends. RequestTarget states its verb, headers and target. |
| `Http.PerformText` | src/HTTP/HTTPClient.cs:36-132 | No ensures of its own: a raw overload's outcome. ReceiveText and TextIsIdentityDecoding state it. |
| `Http.PerformWith` | src/HTTP/HTTPClient.cs:151-253 | No ensures of its own: a decoder or action overload's outcome. ReceiveWith, SuccessIsHandlerResult and HandlerSeesOnlyInputs state it. |
| `Http.FailureOf` | src/HTTP/HTTPRequestFailedException.cs:11-15 | The failure keeps the whole body, the numeric status and the status name. |
| `Http.ReceiveText` | src/HTTP/HTTPClient.cs:76-93 | Raw variants return the body exactly on a 2xx status, and fail with the response's failure otherwise. |
| `Http.ReceiveWith` | src/HTTP/HTTPClient.cs:151-170 | Decoder and action variants fail exactly on a non-2xx status, with the response's failure. |
| `Http.FailureIgnoresHandler` | src/HTTP/HTTPClient.cs:55-74 | On a non-2xx status the handler is never consulted: any two handlers give the same outcome. |
| `Http.SuccessIsHandlerResult` | src/HTTP/HTTPClient.cs:235-254 | On a 2xx status the outcome is the handler's value, or the handler's own exception, not wrapped. |
| `Http.TextIsIdentityDecoding` | src/HTTP/HTTPClient.cs:95-131 | A raw variant behaves like the decoding variant given a decoder that returns the body. |
| `Http.HandlerInputs` | src/HTTP/HTTPClient.cs:151-170 | A call hands its decoder or action at most one body. It hands none exactly when the request cannot be built or the status is not 2xx; otherwise it hands the response body. |
| `Http.HandlerSeesOnlyInputs` | src/HTTP/HTTPClient.cs:151-170 | The handler matters only on those bodies: two handlers that agree on them give the same outcome. |
| `Http.NewOptions` | src/HTTP/HTTPClient.cs:19-23 | The host is kept. Given headers and timeout are kept; missing headers become an empty dictionary and a missing timeout 90 seconds. |
| `Http.NetClient.constructor` | src/HTTP/HTTPClient.cs:26 | A new instance has no base address and no default headers, and is not disposed. |
| `Http.NetClient.AddDefaultHeader` | src/HTTP/HTTPClient.cs:30 | Appends exactly one header. |
| `Http.NetClient.Dispose` | src/HTTP/HTTPClient.cs:135 | Marks the instance disposed. |
| `Http.HttpClient.constructor` | src/HTTP/HTTPClient.cs:19-23 | The options are `NewOptions` of the arguments, and no instance exists yet. |
| `Http.HttpClient.GetClientInstance` | src/HTTP/HTTPClient.cs:24-34 | The client is created at most once. On creation the base address is set exactly when the host is non-empty, the headers are copied in order, and the timeout is set. Later calls return the same instance. |
| `Http.HttpClient.InvokeText` | src/HTTP/HTTPClient.cs:36-53 | A raw overload obtains the lazy instance, keeps any earlier one, and returns `PerformText` of its call. |
| `Http.HttpClient.InvokeWith` | src/HTTP/HTTPClient.cs:151-170 | A decoder or action overload returns `PerformWith` of its call and appends exactly `HandlerInputs` to the log of bodies its handlers were given. |
| `Http.HttpClient.Dispose` | src/HTTP/HTTPClient.cs:133-136 | Disposes the instance when one was created, and nothing otherwise. |
| `MoDb.NewDbClient` | src/DBClient.cs:11-18 | Rejects an empty host first, then an empty API key, with the source's messages. The base path is `api/` + version, and the only default header is `ApiKey`. |
| `MoDb.DefaultClient` | src/DBClient.cs:10-18 | With the default version, `Endpoint(r)` is `api/v1/r`, and the options are the `ApiKey` header and the 90-second default timeout. |
| `MoDb.Endpoint` | src/DBClient.cs:10 | No ensures of its own: the base path, a slash, then the resource. DbEndpoint, KeyEndpoint and InterpolatedEndpoint state the routes it yields. |
| `MoDb.Guard` | src/DBClient.cs:11-243 | No ensures of its own: the ArgumentException an operation throws. GuardInDeclarationOrder states it. |
| `MoDb.GuardInDeclarationOrder` | src/DBClient.cs:78-87 | Every operation throws for the first parameter, in declaration order, that is empty (for page and pageSize: not positive), and for no other. The filter, any and count operations never check `value`. |
| `MoDb.Plan` | src/DBClient.cs:20-259 | An operation makes a transport call exactly when its guard passes; otherwise the error is the guard's. The call is an action call exactly for the four operations that return nothing. |
| `MoDb.Routes` | src/DBClient.cs:20-259 | Once the guard passes (and the version has no braces), each operation sends its verb, its route under the base path, its headers and its body, as `OpTarget` tables them. |
| `MoDb.Describe` | src/DBClient.cs:20-259 | No ensures of its own: the request an operation sends. Routes and the per-operation Route lemmas state it. |
| `MoDb.RouteGetDBs` | src/DBClient.cs:20-30 | GET `api/{version}/databases`. |
| `MoDb.RouteCreateDB` | src/DBClient.cs:47-61 | POST `databases` with the body `{name}`. |
| `MoDb.RouteGetDB` | src/DBClient.cs:32-45 | GET `databases/<name>`. |
| `MoDb.RouteDeleteDB` | src/DBClient.cs:63-76 | DELETE `databases/<db>`. |
| `MoDb.RouteSet` | src/DBClient.cs:78-99 | POST `databases/<db>/values` with the value body. |
| `MoDb.RouteGetValue` | src/DBClient.cs:101-120 | GET to `host/api/{version}/databases/<db>/values/<key>` with `result-type: json`. |
| `MoDb.RouteGetString` | src/DBClient.cs:122-137 | GET `databases/<db>/values/<key>`. |
| `MoDb.RouteDelete` | src/DBClient.cs:139-154 | DELETE `databases/<db>/values/<key>`. |
| `MoDb.RouteFilter` | src/DBClient.cs:156-186 | GET to `host/…/databases/<db>/filter` plus the filter query, with `result-type: json`. |
| `MoDb.RouteFilterString` | src/DBClient.cs:188-215 | GET `databases/<db>/filter` plus the filter query. |
| `MoDb.RouteAny` | src/DBClient.cs:217-237 | GET `databases/<db>/any` plus the match query. |
| `MoDb.RouteCount` | src/DBClient.cs:239-259 | GET `databases/<db>/count` plus the match query. |
| `MoDb.DbEndpoint` | src/DBClient.cs:10 | `Endpoint("databases/{0}" + post)` formatted with the database name is `api/{version}/databases/<db>` + post, when version and post hold no braces. |
| `MoDb.KeyEndpoint` | src/DBClient.cs:10 | `Endpoint("databases/{0}/values/{1}")` formatted with database and key is `api/{version}/databases/<db>/values/<key>`. |
| `MoDb.InterpolatedEndpoint` | src/DBClient.cs:108 | The interpolated `Endpoint($"databases/{db}…")` is the same path, with no formatting involved. |
| `MoDb.DefaultArguments` | src/DBClient.cs:78-188 | When omitted, the optional arguments are no indices and `createDb = true` for SetAsync, and page 1 of 10 for the filters. Defaulted filters pass the page checks and send `page=1&pageSize=10`. |
| `MoDb.InlineQueryIsConverted` | src/DBClient.cs:173-177 | The typed filter's hand-written query string is the one `ConvertToQueryString` writes. |
| `MoDb.InlineQueryString` | src/DBClient.cs:174 | No ensures of its own: the typed filter's hand-written query text. InlineQueryIsConverted states it. |
| `MoDb.FilterQuery` | src/DBClient.cs:166-172 | No ensures of its own: the filter dictionary. QueryParameters, FilterQuerySafe and DefaultArguments state its entries. |
| `MoDb.MatchQuery` | src/DBClient.cs:222-226 | No ensures of its own: the any and count dictionary. QueryParameters and MatchQuerySafe state its entries. |
| `MoDb.SameValuePath` | src/DBClient.cs:101-137 | The typed read's target is the text `host + "/"` followed by GetString's relative target, and only the typed read adds `result-type: json`. |
| `MoDb.SameFilterPath` | src/DBClient.cs:156-215 | The same text relation and header split for the typed and the string filter. |
| `MoDb.QueryParameters` | src/DBClient.cs:166-248 | The target of a filter, any or count request reads back as its path, then exactly its dictionary's entries, in order. The filters send `indexName, compareOperator, value, page, pageSize`. Any and count send `indexName, compareOperator, value`. |
| `MoDb.TargetSplits` | src/DBClient.cs:166-248 | Such a target is its path followed by the dictionary's query string, and the path holds no `?`. |
| `MoDb.MatchQuerySafe` | src/DBClient.cs:222-226 | The any and count dictionary survives the unescaped query syntax when its arguments hold no `&`. |
| `MoDb.FilterQuerySafe` | src/DBClient.cs:166-172 | The same for the filter dictionary, page numbers included. |
| `Strings.Int32TextPlain` | src/DBClient.cs:170-171 | `Int32.ToString()` writes no `&`, `?` or `=`. |
| `Strings.DecimalIsDigits` | src/DBClient.cs:170-171 | The decimal text of a number is a non-empty digit run that denotes that number. |
| `Strings.Int32Text` | src/DBClient.cs:170-171 | No ensures of its own: `Int32.ToString()`, with a minus sign before the decimal digits. Int32TextPlain and DecimalIsDigits state its properties. |
| `MoDb.Rewrap` | src/DBClient.cs:27-28 | A transport failure becomes a `MODBRequestFailedException` carrying the decoded error body and the same status code and name, when the error body decodes. When it does not, the decoder's exception escapes with its own message. Every other outcome passes through. |
| `MoDb.Unwrap` | src/DBClient.cs:25 | No ensures of its own: each `func:` lambda, which takes `.Result` of the decoded envelope. SuccessReturnsDecoded states it. |
| `MoDb.Discard` | src/DBClient.cs:54 | No ensures of its own: the `stream => {}` action. ActionSucceedsOnSuccessStatus states it. |
| `MoDb.Run` | src/DBClient.cs:20-259 | No ensures of its own: the result of every public operation. RejectedBeforeAnyRequest, RunSendsDescribedRequest, FailureBecomesDbFailure and SuccessReturnsDecoded state it. |
| `MoDb.RejectedBeforeAnyRequest` | src/DBClient.cs:80-87 | An operation whose guard fails throws its ArgumentException whatever the server would answer: nothing is sent. |
| `MoDb.RunSendsDescribedRequest` | src/DBClient.cs:101-120 | Once the guard passes, the result depends on the server only through its answer to the request `Describe` gives. A template that the version breaks throws FormatException. |
| `MoDb.FailureBecomesDbFailure` | src/DBRequestFailedException.cs:11-15 | A non-2xx answer becomes a domain failure with the transport failure as inner exception, the decoded error body, and the same status code and name. |
| `MoDb.SuccessReturnsDecoded` | src/DBClient.cs:122-137 | A read on a 2xx status returns the `result` of the decoded envelope. |
| `MoDb.ActionSucceedsOnSuccessStatus` | src/DBClient.cs:139-154 | An operation that returns nothing succeeds exactly on a 2xx status. |

## Left out

- The network, streams, `Uri` parsing and resolution, JSON encoding and decoding, async tasks and
  cancellation are not modelled. Servers, decoders and actions are function parameters.
  `SendAsync` does not forward its cancellation token to the underlying call
  (src/HTTP/HTTPClient.cs:237); the model has no tokens at all.
- The lazy creation is modelled sequentially; thread safety is not modelled.
- `HttpStatusCode.ToString()` is not modelled: the status name is an opaque part of each
  response.
- Composite formatting: alignment (`{0,5}`), format strings (`{0:x}`) and whitespace inside
  an item are not modelled. They are treated as malformed. None of the core's templates
  uses them.
- Http.HttpClient.GetClientInstance: the source stores the fresh client in `_client`
  (src/HTTP/HTTPClient.cs:26) before three steps that can throw:
  - `new System.Uri(_host)` (line 28), for a malformed host;
  - `DefaultRequestHeaders.Add` (line 30), for a malformed header;
  - the `Timeout` setter (line 31), which throws ArgumentOutOfRangeException for a timeout
    at or below zero that is not `InfiniteTimeSpan`, and for one above Int32.MaxValue
    milliseconds.

  If any of them throws, the first request fails and the cached client stays half
  configured. Every later call returns it unchanged, and after a rejected timeout it keeps
  the library's 100-second default. The model accepts every `TimeSpan`, and its
  `Configured` and `Valid` assume the configuration always completes.
- Http.HttpClient.GetClientInstance: the source keeps a reference to the caller's
  header dictionary (src/HTTP/HTTPClient.cs:21) and exposes it through `Headers` (line 17).
  It copies the entries only at the first request (lines 29-30), so a change to that
  dictionary before the first request changes the headers sent, and a later one does not.
  The model fixes the options at construction, so lazy and eager copying look the same.
- Http.HttpClient.Dispose: the source disposes `_client` but never clears it
  (src/HTTP/HTTPClient.cs:133-136), so every later call reuses the disposed instance and
  throws ObjectDisposedException. Calls after disposal are not modelled: the model's
  InvokeText and InvokeWith answer normally on a disposed client.
- Http.BuildEndpoint: a null `endpoint` with route parameters reaches
  `string.Format(null, …)` (src/HTTP/HTTPClient.cs:148) and throws ArgumentNullException
  before anything is sent. The model writes a null endpoint as `""`, so it formats to `""`
  and sends a request. The facade always passes a non-null template.
- MoDb.SameValuePath, MoDb.SameFilterPath: the two targets are related as text only. The
  relative one is resolved against `new Uri(host)` by the rules of RFC 3986, so the two
  reach the same resource only when the host's path is empty. A host ending in `/` gives
  the typed read's path a `//`.
- Http.HttpClient.InvokeWith: a decoder or action that itself throws
  `HttpRequestException` would be caught by the transport's handler and wrapped like a
  status failure. The model passes every handler exception on unwrapped.
- `JsonSerializer.Deserialize` returning null (so that `.Result` throws) is not
  distinguished from a decoding failure.
- Header-name validation by `DefaultRequestHeaders.Add` and `request.Headers.Add` is not
  modelled.
- The `using` disposal of each response is not modelled.
- The facade's `Run` applies the transport functions directly. It does not thread the
  facade's `HttpClient` object and its lazy handle through calls; that state is modelled
  in `Http.HttpClient`.
- `MODBClient.Dispose` (src/DBClient.cs:261-264) only forwards to the transport's
  `Dispose`, which is modelled as `Http.HttpClient.Dispose`.
- `src/HTTP/IHTTPClient.cs` and `src/IDBClient.cs` hold interface signatures only.
- `CompareOperators` is represented by the name its member prints as, a plain string.
- The decoding of `DBInformation`, `PagedList` and the other response shapes is not
  modelled.
- MoDb.Routes: needs a version without braces. The base path is part of the template
  given to `string.Format`, so a version holding `{` or `}` would itself be read as format
  syntax (or raise a FormatException). `RunSendsDescribedRequest` covers that case in
  general.
