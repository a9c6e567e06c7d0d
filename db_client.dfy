/** The domain facade of src/DBClient.cs (MODBClient). Each operation checks its
    arguments in a fixed order, builds one request of the transport pipeline under the
    base path `api/{version}`, and turns an HTTPRequestFailedException into a
    MODBRequestFailedException that carries the decoded error body. */
module MoDb {
  import opened Results
  import opened Strings
  import opened Http
  import opened Dtos

  /** An ArgumentException: the parameter name and the message. */
  datatype ArgumentError = ArgumentError(paramName: string, message: string)

  /** MODBRequestFailedException: the transport failure as inner exception, the decoded
      error body, the status code and the status name. */
  datatype DbRequestFailure = DbRequestFailure(inner: TransportFailure, response: ModbError, statusCode: int, statusMessage: string)

  /** What a facade call can throw. */
  datatype DbError =
    | InvalidArgument(argument: ArgumentError)
    | RequestFailed(failure: DbRequestFailure)
    | Threw(fault: Fault)

  const HostMessage := "Invalid host, can not be null or empty"
  const ApiKeyMessage := "Invalid apikey, can not be null or empty"
  const DbNameMessage := "Database name, can not be null or empty"
  const KeyMessage := "key, can not be null or empty"
  const TypeMessage := "type, can not be null or empty"
  const ValueMessage := "value, can not be null or empty"
  const IndexMessage := "Index, can not be null or empty"
  const PageMessage := "Page, must be greater than 0"
  const PageSizeMessage := "Page size, must be greater than 0"

  type Int32 = x: int | -0x8000_0000 <= x < 0x8000_0000

  /** A constructed MODBClient; both fields are fixed by the constructor. */
  datatype DbClient = DbClient(baseUrl: string, http: ClientOptions)

  /** The MODBClient constructor: rejects an empty host, then an empty API key; the base
      path is `api/{version}` and the only default header is `ApiKey`. */
  function NewDbClient(host: string, apikey: string, version: string := "v1"): (r: Result<DbClient, ArgumentError>)
    ensures r.Ok? <==> host != [] && apikey != []
    ensures host == [] ==> r == Err(ArgumentError("host", HostMessage))
    ensures host != [] && apikey == [] ==> r == Err(ArgumentError("apikey", ApiKeyMessage))
    ensures r.Ok? ==> r.value.baseUrl == "api/" + version
    ensures r.Ok? ==> r.value.http == NewOptions(host, Some([("ApiKey", apikey)]))
  {
    if host == [] then Err(ArgumentError("host", HostMessage))
    else if apikey == [] then Err(ArgumentError("apikey", ApiKeyMessage))
    else Ok(DbClient("api/" + version, NewOptions(host, Some([("ApiKey", apikey)]))))
  }

  function Endpoint(c: DbClient, resource: string): string
  {
    c.baseUrl + "/" + resource
  }

  /** A client built with the default version addresses `api/v1/<resource>`, sends only
      the `ApiKey` header and times out after 90 seconds. */
  lemma DefaultClient(host: string, apikey: string, resource: string)
    requires host != [] && apikey != []
    ensures NewDbClient(host, apikey).Ok?
    ensures Endpoint(NewDbClient(host, apikey).value, resource) == "api/v1/" + resource
    ensures NewDbClient(host, apikey).value.http == ClientOptions(host, [("ApiKey", apikey)], TimeSpan(900_000_000))
  {
    var c := NewDbClient(host, apikey).value;
    assert c.baseUrl + "/" + resource == "api/v1/" + resource;
  }

  /** The body objects the facade serializes. */
  datatype Payload =
    | NewDatabase(name: string)
    | NewValue(key: string, valueType: string, value: string, indices: Option<seq<IndexItem>>, createDb: Option<bool>)

  /** One constructor per public operation of MODBClient; `compareOperator` is the name of
      the CompareOperators member. */
  datatype Operation =
    | GetDBs
    | GetDB(name: string)
    | CreateDB(name: string)
    | DeleteDB(db: string)
    | Set(db: string, key: string, valueType: string, value: string,
          indices: Option<seq<IndexItem>> := None, createDb: Option<bool> := Some(true))
    | GetValue(db: string, key: string)
    | GetString(db: string, key: string)
    | Delete(db: string, key: string)
    | Filter(db: string, index: string, compareOperator: string, value: string, page: Int32 := 1, pageSize: Int32 := 10)
    | FilterString(db: string, index: string, compareOperator: string, value: string, page: Int32 := 1, pageSize: Int32 := 10)
    | Any(db: string, index: string, compareOperator: string, value: string)
    | Count(db: string, index: string, compareOperator: string, value: string)

  /** The operations that return nothing (their transport call takes an action). */
  predicate IsActionOp(op: Operation) {
    op.CreateDB? || op.DeleteDB? || op.Set? || op.Delete?
  }

  // ---------------------------------------------------------------------------
  // Argument checks
  // ---------------------------------------------------------------------------

  /** The argument checks each operation runs before anything else; the first one that
      fails is thrown. */
  function Guard(op: Operation): Option<ArgumentError>
  {
    match op
    case GetDBs => None
    case GetDB(name) =>
      if name == [] then Some(ArgumentError("name", DbNameMessage)) else None
    case CreateDB(name) =>
      if name == [] then Some(ArgumentError("name", DbNameMessage)) else None
    case DeleteDB(db) =>
      if db == [] then Some(ArgumentError("db", DbNameMessage)) else None
    case Set(db, key, valueType, value, _, _) =>
      if db == [] then Some(ArgumentError("db", DbNameMessage))
      else if key == [] then Some(ArgumentError("key", KeyMessage))
      else if valueType == [] then Some(ArgumentError("type", TypeMessage))
      else if value == [] then Some(ArgumentError("value", ValueMessage))
      else None
    case GetValue(db, key) => KeyGuard(db, key)
    case GetString(db, key) => KeyGuard(db, key)
    case Delete(db, key) => KeyGuard(db, key)
    case Filter(db, index, _, _, page, pageSize) => PageGuard(db, index, page, pageSize)
    case FilterString(db, index, _, _, page, pageSize) => PageGuard(db, index, page, pageSize)
    case Any(db, index, _, _) => IndexGuard(db, index)
    case Count(db, index, _, _) => IndexGuard(db, index)
  }

  function KeyGuard(db: string, key: string): Option<ArgumentError>
  {
    if db == [] then Some(ArgumentError("db", DbNameMessage))
    else if key == [] then Some(ArgumentError("key", KeyMessage))
    else None
  }

  function IndexGuard(db: string, index: string): Option<ArgumentError>
  {
    if db == [] then Some(ArgumentError("db", DbNameMessage))
    else if index == [] then Some(ArgumentError("index", IndexMessage))
    else None
  }

  function PageGuard(db: string, index: string, page: int, pageSize: int): Option<ArgumentError>
  {
    if IndexGuard(db, index).Some? then IndexGuard(db, index)
    else if page <= 0 then Some(ArgumentError("page", PageMessage))
    else if pageSize <= 0 then Some(ArgumentError("pageSize", PageSizeMessage))
    else None
  }

  /** The checks of an operation as a table: each parameter name with whether its
      argument is acceptable, in the order the parameters are declared. */
  function Checks(op: Operation): seq<(string, bool)>
  {
    match op
    case GetDBs => []
    case GetDB(name) => [("name", name != [])]
    case CreateDB(name) => [("name", name != [])]
    case DeleteDB(db) => [("db", db != [])]
    case Set(db, key, valueType, value, _, _) =>
      [("db", db != []), ("key", key != []), ("type", valueType != []), ("value", value != [])]
    case GetValue(db, key) => [("db", db != []), ("key", key != [])]
    case GetString(db, key) => [("db", db != []), ("key", key != [])]
    case Delete(db, key) => [("db", db != []), ("key", key != [])]
    case Filter(db, index, _, _, page, pageSize) =>
      [("db", db != []), ("index", index != []), ("page", page > 0), ("pageSize", pageSize > 0)]
    case FilterString(db, index, _, _, page, pageSize) =>
      [("db", db != []), ("index", index != []), ("page", page > 0), ("pageSize", pageSize > 0)]
    case Any(db, index, _, _) => [("db", db != []), ("index", index != [])]
    case Count(db, index, _, _) => [("db", db != []), ("index", index != [])]
  }

  function FirstRejected(checks: seq<(string, bool)>): Option<string>
  {
    if checks == [] then None
    else if !checks[0].1 then Some(checks[0].0)
    else FirstRejected(checks[1..])
  }

  function MessageFor(param: string): string
  {
    match param
    case "name" => DbNameMessage
    case "db" => DbNameMessage
    case "key" => KeyMessage
    case "type" => TypeMessage
    case "value" => ValueMessage
    case "index" => IndexMessage
    case "page" => PageMessage
    case _ => PageSizeMessage
  }

  /** Every operation throws for the first parameter, in declaration order, whose argument
      is empty (or, for page and pageSize, not positive), and for no other. */
  lemma GuardInDeclarationOrder(op: Operation)
    ensures Guard(op) == match FirstRejected(Checks(op))
                         case None => None
                         case Some(p) => Some(ArgumentError(p, MessageFor(p)))
  {
    var cs := Checks(op);
    if |cs| >= 1 { assert cs[1..][..] == cs[1..]; }
    if |cs| >= 2 { assert FirstRejected(cs[1..]) == if !cs[1].1 then Some(cs[1].0) else FirstRejected(cs[2..]); }
    if |cs| >= 3 { assert FirstRejected(cs[2..]) == if !cs[2].1 then Some(cs[2].0) else FirstRejected(cs[3..]); }
    if |cs| >= 4 { assert FirstRejected(cs[3..]) == if !cs[3].1 then Some(cs[3].0) else FirstRejected(cs[4..]); }
  }

  // ---------------------------------------------------------------------------
  // Requests
  // ---------------------------------------------------------------------------

  /** The query of the filter operations, in the order the dictionary literal adds it. */
  function FilterQuery(index: string, compareOperator: string, value: string, page: int, pageSize: int): Dict
  {
    [("indexName", index), ("compareOperator", compareOperator), ("value", value),
     ("page", Int32Text(page)), ("pageSize", Int32Text(pageSize))]
  }

  /** The query of AnyAsync and CountAsync. */
  function MatchQuery(index: string, compareOperator: string, value: string): Dict
  {
    [("indexName", index), ("compareOperator", compareOperator), ("value", value)]
  }

  /** The query string the typed filter writes out itself, without ConvertToQueryString. */
  function InlineQueryString(q: Dict): string
  {
    if |q| == 0 then [] else "?" + Join(EntryTexts(q), '&')
  }

  /** The typed filter's hand-written query string is the one ConvertToQueryString builds. */
  lemma InlineQueryIsConverted(q: Dict)
    ensures InlineQueryString(q) == ConvertToQueryString(Some(q))
  {
  }

  /** The header with which the typed single-value and filter reads ask for the JSON
      envelope. */
  const ResultTypeJson := ("result-type", "json")

  /** The transport call an operation makes once its arguments pass. */
  function Plan(c: DbClient, op: Operation): (r: Result<Call<Payload>, ArgumentError>)
    ensures r.Err? <==> Guard(op).Some?
    ensures r.Err? ==> r.error == Guard(op).value
    ensures r.Ok? ==> StyleOf(r.value) == if IsActionOp(op) then Action else Typed
  {
    if Guard(op).Some? then Err(Guard(op).value)
    else
      Ok(match op
         case GetDBs => GetDecoded(Endpoint(c, "databases"), None, Some([]))
         case GetDB(name) => GetDecoded(Endpoint(c, "databases/{0}"), None, Some([name]))
         case CreateDB(name) => PostWithAction(Endpoint(c, "databases"), NewDatabase(name), None, Some([]))
         case DeleteDB(db) => DeleteWithAction(Endpoint(c, "databases/{0}"), None, Some([db]))
         case Set(db, key, valueType, value, indices, createDb) =>
           PostWithAction(Endpoint(c, "databases/{0}/values"), NewValue(key, valueType, value, indices, createDb), None, Some([db]))
         case GetValue(db, key) =>
           SendDecoded(Request(GET, c.http.host + "/" + Endpoint(c, "databases/" + db + "/values/" + key), [ResultTypeJson], None))
         case GetString(db, key) => GetDecoded(Endpoint(c, "databases/{0}/values/{1}"), None, Some([db, key]))
         case Delete(db, key) => DeleteWithAction(Endpoint(c, "databases/{0}/values/{1}"), None, Some([db, key]))
         case Filter(db, index, compareOperator, value, page, pageSize) =>
           var q := FilterQuery(index, compareOperator, value, page, pageSize);
           SendDecoded(Request(GET, c.http.host + "/" + Endpoint(c, "databases/" + db + "/filter") + InlineQueryString(q), [ResultTypeJson], None))
         case FilterString(db, index, compareOperator, value, page, pageSize) =>
           GetDecoded(Endpoint(c, "databases/{0}/filter"), Some(FilterQuery(index, compareOperator, value, page, pageSize)), Some([db]))
         case Any(db, index, compareOperator, value) =>
           GetDecoded(Endpoint(c, "databases/{0}/any"), Some(MatchQuery(index, compareOperator, value)), Some([db]))
         case Count(db, index, compareOperator, value) =>
           GetDecoded(Endpoint(c, "databases/{0}/count"), Some(MatchQuery(index, compareOperator, value)), Some([db])))
  }

  /** The request an operation sends, or what it throws before sending anything. */
  function Describe(c: DbClient, op: Operation): Result<Request<Payload>, DbError>
  {
    match Plan(c, op)
    case Err(e) => Err(InvalidArgument(e))
    case Ok(call) =>
      match RequestOf(call)
      case Err(f) => Err(Threw(f))
      case Ok(req) => Ok(req)
  }

  /** The verb of each operation. */
  function OpVerb(op: Operation): Verb
  {
    match op
    case CreateDB(_) => POST
    case Set(_, _, _, _, _, _) => POST
    case DeleteDB(_) => DELETE
    case Delete(_, _) => DELETE
    case _ => GET
  }

  function OpHeaders(op: Operation): seq<(string, string)>
  {
    if op.GetValue? || op.Filter? then [ResultTypeJson] else []
  }

  function OpBody(op: Operation): Option<Payload>
  {
    match op
    case CreateDB(name) => Some(NewDatabase(name))
    case Set(_, key, valueType, value, indices, createDb) => Some(NewValue(key, valueType, value, indices, createDb))
    case _ => None
  }

  /** `api/{version}/databases/<db>`: the resource of one database. */
  function DbPath(c: DbClient, db: string): string
  {
    c.baseUrl + "/databases/" + db
  }

  /** Where each operation sends its request, written out in full; GetValue and the typed
      filter address the server absolutely, under the host. */
  function OpTarget(c: DbClient, op: Operation): string
  {
    match op
    case GetDBs => c.baseUrl + "/databases"
    case GetDB(name) => DbPath(c, name)
    case CreateDB(_) => c.baseUrl + "/databases"
    case DeleteDB(db) => DbPath(c, db)
    case Set(db, _, _, _, _, _) => DbPath(c, db) + "/values"
    case GetValue(db, key) => c.http.host + "/" + (DbPath(c, db) + "/values/" + key)
    case GetString(db, key) => DbPath(c, db) + "/values/" + key
    case Delete(db, key) => DbPath(c, db) + "/values/" + key
    case Filter(db, index, compareOperator, value, page, pageSize) =>
      c.http.host + "/" + (DbPath(c, db) + "/filter")
      + ConvertToQueryString(Some(FilterQuery(index, compareOperator, value, page, pageSize)))
    case FilterString(db, index, compareOperator, value, page, pageSize) =>
      DbPath(c, db) + "/filter" + ConvertToQueryString(Some(FilterQuery(index, compareOperator, value, page, pageSize)))
    case Any(db, index, compareOperator, value) =>
      DbPath(c, db) + "/any" + ConvertToQueryString(Some(MatchQuery(index, compareOperator, value)))
    case Count(db, index, compareOperator, value) =>
      DbPath(c, db) + "/count" + ConvertToQueryString(Some(MatchQuery(index, compareOperator, value)))
  }

  /** `Endpoint("databases/{0}" + post)` formatted with the database name. */
  lemma DbEndpoint(c: DbClient, db: string, post: string)
    requires NoBraces(c.baseUrl) && NoBraces(post)
    ensures BuildEndpoint(Endpoint(c, "databases/{0}" + post), Some([db])) == Some(DbPath(c, db) + post)
  {
    var p := c.baseUrl + "/databases/";
    assert NoBraces(p) by { assert NoBraces("/databases/"); }
    FormatOneItem(p, post, [db]);
    assert Endpoint(c, "databases/{0}" + post) == p + "{0}" + post;
  }

  /** `Endpoint("databases/{0}/values/{1}")` formatted with the database name and the key. */
  lemma KeyEndpoint(c: DbClient, db: string, key: string)
    requires NoBraces(c.baseUrl)
    ensures BuildEndpoint(Endpoint(c, "databases/{0}/values/{1}"), Some([db, key])) == Some(DbPath(c, db) + "/values/" + key)
  {
    var p := c.baseUrl + "/databases/";
    assert NoBraces(p) by { assert NoBraces("/databases/"); }
    FormatTwoItems(p, "/values/", "", [db, key]);
    var t := "/databases/" + "{0}" + "/values/" + "{1}" + "";
    assert "/" + "databases/{0}/values/{1}" == t;
    Regroup(c.baseUrl, "/databases/", "{0}", "/values/", "{1}");
    assert Endpoint(c, "databases/{0}/values/{1}") == c.baseUrl + t;
    Regroup(c.baseUrl, "/databases/", db, "/values/", key);
  }

  /** Regrouping a concatenation of six strings, the last one empty. */
  lemma Regroup(a: string, b: string, c: string, d: string, e: string)
    ensures a + (b + c + d + e + "") == a + b + c + d + e + ""
    ensures a + b + c + d + e + "" == a + b + c + d + e
  {
  }

  /** An endpoint written with interpolation instead of route parameters. */
  lemma InterpolatedEndpoint(c: DbClient, db: string, post: string)
    ensures Endpoint(c, "databases/" + db + post) == DbPath(c, db) + post
  {
  }

  /** The verb, target, per-request headers and body of every operation whose arguments
      pass, when the version names no format item. */
  lemma Routes(c: DbClient, op: Operation)
    requires Guard(op).None?
    requires NoBraces(c.baseUrl)
    ensures Describe(c, op) == Ok(Request(OpVerb(op), OpTarget(c, op), OpHeaders(op), OpBody(op)))
  {
    match op
    case GetDBs => RouteGetDBs(c);
    case GetDB(name) => RouteGetDB(c, name);
    case CreateDB(name) => RouteCreateDB(c, name);
    case DeleteDB(db) => RouteDeleteDB(c, db);
    case Set(db, key, valueType, value, indices, createDb) => RouteSet(c, db, key, valueType, value, indices, createDb);
    case GetValue(db, key) => RouteGetValue(c, db, key);
    case GetString(db, key) => RouteGetString(c, db, key);
    case Delete(db, key) => RouteDelete(c, db, key);
    case Filter(db, index, compareOperator, value, page, pageSize) =>
      RouteFilter(c, db, index, compareOperator, value, page, pageSize);
    case FilterString(db, index, compareOperator, value, page, pageSize) =>
      RouteFilterString(c, db, index, compareOperator, value, page, pageSize);
    case Any(db, index, compareOperator, value) => RouteAny(c, db, index, compareOperator, value);
    case Count(db, index, compareOperator, value) => RouteCount(c, db, index, compareOperator, value);
  }

  lemma RouteGetDBs(c: DbClient)
    ensures Describe(c, GetDBs) == Ok(Request(GET, OpTarget(c, GetDBs), [], None))
  {
    var call := GetDecoded(Endpoint(c, "databases"), None, Some([]));
    assert Plan(c, GetDBs) == Ok(call);
    assert ConvertToQueryString(call.query) == [];
    assert Endpoint(c, "databases") + [] == OpTarget(c, GetDBs);
  }

  lemma RouteCreateDB(c: DbClient, name: string)
    requires name != []
    ensures Describe(c, CreateDB(name)) == Ok(Request(POST, OpTarget(c, CreateDB(name)), [], Some(NewDatabase(name))))
  {
    var call := PostWithAction(Endpoint(c, "databases"), NewDatabase(name), None, Some([]));
    assert Plan(c, CreateDB(name)) == Ok(call);
    assert ConvertToQueryString(call.query) == [];
    assert Endpoint(c, "databases") + [] == OpTarget(c, CreateDB(name));
  }

  lemma RouteGetDB(c: DbClient, name: string)
    requires name != [] && NoBraces(c.baseUrl)
    ensures Describe(c, GetDB(name)) == Ok(Request(GET, OpTarget(c, GetDB(name)), [], None))
  {
    assert "databases/{0}" + "" == "databases/{0}";
    DbEndpoint(c, name, "");
    assert DbPath(c, name) + "" == DbPath(c, name);
    var call := GetDecoded(Endpoint(c, "databases/{0}"), None, Some([name]));
    assert Plan(c, GetDB(name)) == Ok(call);
    assert ConvertToQueryString(call.query) == [];
    assert DbPath(c, name) + [] == DbPath(c, name);
  }

  lemma RouteDeleteDB(c: DbClient, db: string)
    requires db != [] && NoBraces(c.baseUrl)
    ensures Describe(c, DeleteDB(db)) == Ok(Request(DELETE, OpTarget(c, DeleteDB(db)), [], None))
  {
    assert "databases/{0}" + "" == "databases/{0}";
    DbEndpoint(c, db, "");
    assert DbPath(c, db) + "" == DbPath(c, db);
    var call := DeleteWithAction(Endpoint(c, "databases/{0}"), None, Some([db]));
    assert Plan(c, DeleteDB(db)) == Ok(call);
    assert ConvertToQueryString(call.query) == [];
    assert DbPath(c, db) + [] == DbPath(c, db);
  }

  lemma RouteSet(c: DbClient, db: string, key: string, valueType: string, value: string,
                 indices: Option<seq<IndexItem>>, createDb: Option<bool>)
    requires db != [] && key != [] && valueType != [] && value != [] && NoBraces(c.baseUrl)
    ensures var op := Set(db, key, valueType, value, indices, createDb);
            Describe(c, op) == Ok(Request(POST, OpTarget(c, op), [], OpBody(op)))
  {
    assert "databases/{0}" + "/values" == "databases/{0}/values";
    DbEndpoint(c, db, "/values");
    var op := Set(db, key, valueType, value, indices, createDb);
    var call := PostWithAction(Endpoint(c, "databases/{0}/values"), NewValue(key, valueType, value, indices, createDb), None, Some([db]));
    assert Plan(c, op) == Ok(call);
    assert ConvertToQueryString(call.query) == [];
    assert OpTarget(c, op) + [] == OpTarget(c, op);
  }

  lemma RouteGetValue(c: DbClient, db: string, key: string)
    requires db != [] && key != []
    ensures Describe(c, GetValue(db, key)) == Ok(Request(GET, OpTarget(c, GetValue(db, key)), [ResultTypeJson], None))
  {
    var op := GetValue(db, key);
    InterpolatedEndpoint(c, db, "/values/" + key);
    assert "databases/" + db + "/values/" + key == "databases/" + db + ("/values/" + key);
    assert DbPath(c, db) + ("/values/" + key) == DbPath(c, db) + "/values/" + key;
    var req := Request(GET, c.http.host + "/" + Endpoint(c, "databases/" + db + "/values/" + key), [ResultTypeJson], None);
    assert Plan(c, op) == Ok(SendDecoded(req)) by {
      assert Guard(op).None?;
    }
  }

  lemma RouteGetString(c: DbClient, db: string, key: string)
    requires db != [] && key != [] && NoBraces(c.baseUrl)
    ensures Describe(c, GetString(db, key)) == Ok(Request(GET, OpTarget(c, GetString(db, key)), [], None))
  {
    KeyEndpoint(c, db, key);
    var call := GetDecoded(Endpoint(c, "databases/{0}/values/{1}"), None, Some([db, key]));
    assert Plan(c, GetString(db, key)) == Ok(call);
    assert ConvertToQueryString(call.query) == [];
    assert OpTarget(c, GetString(db, key)) + [] == OpTarget(c, GetString(db, key));
  }

  lemma RouteDelete(c: DbClient, db: string, key: string)
    requires db != [] && key != [] && NoBraces(c.baseUrl)
    ensures Describe(c, Delete(db, key)) == Ok(Request(DELETE, OpTarget(c, Delete(db, key)), [], None))
  {
    KeyEndpoint(c, db, key);
    var call := DeleteWithAction(Endpoint(c, "databases/{0}/values/{1}"), None, Some([db, key]));
    assert Plan(c, Delete(db, key)) == Ok(call);
    assert ConvertToQueryString(call.query) == [];
    assert OpTarget(c, Delete(db, key)) + [] == OpTarget(c, Delete(db, key));
  }

  lemma RouteFilter(c: DbClient, db: string, index: string, compareOperator: string, value: string, page: Int32, pageSize: Int32)
    requires db != [] && index != [] && page > 0 && pageSize > 0
    ensures var op := Filter(db, index, compareOperator, value, page, pageSize);
            Describe(c, op) == Ok(Request(GET, OpTarget(c, op), [ResultTypeJson], None))
  {
    var op := Filter(db, index, compareOperator, value, page, pageSize);
    var q := FilterQuery(index, compareOperator, value, page, pageSize);
    InlineQueryIsConverted(q);
    InterpolatedEndpoint(c, db, "/filter");
    var req := Request(GET, c.http.host + "/" + Endpoint(c, "databases/" + db + "/filter") + InlineQueryString(q), [ResultTypeJson], None);
    assert Plan(c, op) == Ok(SendDecoded(req)) by {
      assert Guard(op).None?;
    }
  }

  lemma RouteFilterString(c: DbClient, db: string, index: string, compareOperator: string, value: string, page: Int32, pageSize: Int32)
    requires db != [] && index != [] && page > 0 && pageSize > 0 && NoBraces(c.baseUrl)
    ensures var op := FilterString(db, index, compareOperator, value, page, pageSize);
            Describe(c, op) == Ok(Request(GET, OpTarget(c, op), [], None))
  {
    var op := FilterString(db, index, compareOperator, value, page, pageSize);
    var q := FilterQuery(index, compareOperator, value, page, pageSize);
    assert "databases/{0}" + "/filter" == "databases/{0}/filter";
    DbEndpoint(c, db, "/filter");
    assert Plan(c, op) == Ok(GetDecoded(Endpoint(c, "databases/{0}/filter"), Some(q), Some([db]))) by {
      assert Guard(op).None?;
    }
  }

  lemma RouteAny(c: DbClient, db: string, index: string, compareOperator: string, value: string)
    requires db != [] && index != [] && NoBraces(c.baseUrl)
    ensures var op := Any(db, index, compareOperator, value);
            Describe(c, op) == Ok(Request(GET, OpTarget(c, op), [], None))
  {
    var op := Any(db, index, compareOperator, value);
    var q := MatchQuery(index, compareOperator, value);
    assert "databases/{0}" + "/any" == "databases/{0}/any";
    DbEndpoint(c, db, "/any");
    assert Plan(c, op) == Ok(GetDecoded(Endpoint(c, "databases/{0}/any"), Some(q), Some([db]))) by {
      assert Guard(op).None?;
    }
  }

  lemma RouteCount(c: DbClient, db: string, index: string, compareOperator: string, value: string)
    requires db != [] && index != [] && NoBraces(c.baseUrl)
    ensures var op := Count(db, index, compareOperator, value);
            Describe(c, op) == Ok(Request(GET, OpTarget(c, op), [], None))
  {
    var op := Count(db, index, compareOperator, value);
    var q := MatchQuery(index, compareOperator, value);
    assert "databases/{0}" + "/count" == "databases/{0}/count";
    DbEndpoint(c, db, "/count");
    assert Plan(c, op) == Ok(GetDecoded(Endpoint(c, "databases/{0}/count"), Some(q), Some([db]))) by {
      assert Guard(op).None?;
    }
  }

  /** The GetValue and typed Filter targets are the text `host + "/"` followed by the
      relative targets of GetString and the string Filter; only the typed reads add the
      `result-type: json` header. */
  lemma SameValuePath(c: DbClient, db: string, key: string)
    requires db != [] && key != [] && NoBraces(c.baseUrl)
    ensures Describe(c, GetValue(db, key)).Ok? && Describe(c, GetString(db, key)).Ok?
    ensures Describe(c, GetValue(db, key)).value.target == c.http.host + "/" + Describe(c, GetString(db, key)).value.target
    ensures Describe(c, GetValue(db, key)).value.headers == [ResultTypeJson]
    ensures Describe(c, GetString(db, key)).value.headers == []
  {
    RouteGetValue(c, db, key);
    RouteGetString(c, db, key);
  }

  lemma SameFilterPath(c: DbClient, db: string, index: string, compareOperator: string, value: string, page: Int32, pageSize: Int32)
    requires db != [] && index != [] && page > 0 && pageSize > 0 && NoBraces(c.baseUrl)
    ensures var typed := Describe(c, Filter(db, index, compareOperator, value, page, pageSize));
            var text := Describe(c, FilterString(db, index, compareOperator, value, page, pageSize));
            typed.Ok? && text.Ok? && typed.value.target == c.http.host + "/" + text.value.target
            && typed.value.headers == [ResultTypeJson] && text.value.headers == []
  {
    var path := DbPath(c, db) + "/filter";
    var qs := ConvertToQueryString(Some(FilterQuery(index, compareOperator, value, page, pageSize)));
    RouteFilter(c, db, index, compareOperator, value, page, pageSize);
    RouteFilterString(c, db, index, compareOperator, value, page, pageSize);
    assert c.http.host + "/" + path + qs == c.http.host + "/" + (path + qs);
  }

  /** The query dictionary of the operations that send one. */
  function OpQuery(op: Operation): Dict
  {
    match op
    case Filter(_, index, compareOperator, value, page, pageSize) => FilterQuery(index, compareOperator, value, page, pageSize)
    case FilterString(_, index, compareOperator, value, page, pageSize) => FilterQuery(index, compareOperator, value, page, pageSize)
    case Any(_, index, compareOperator, value) => MatchQuery(index, compareOperator, value)
    case Count(_, index, compareOperator, value) => MatchQuery(index, compareOperator, value)
    case _ => []
  }

  /** The optional arguments SetAsync and the two filters declare: no indices and
      `createDb = true` for a value, the first page of ten entries for a filter. Left at
      their defaults the filter passes the page checks and asks for `page=1&pageSize=10`. */
  lemma DefaultArguments(db: string, key: string, valueType: string, value: string, index: string, compareOperator: string)
    ensures OpBody(Set(db, key, valueType, value)) == Some(NewValue(key, valueType, value, None, Some(true)))
    ensures Guard(Filter(db, index, compareOperator, value)) == IndexGuard(db, index)
    ensures Guard(FilterString(db, index, compareOperator, value)) == IndexGuard(db, index)
    ensures OpQuery(Filter(db, index, compareOperator, value))[3..] == [("page", "1"), ("pageSize", "10")]
    ensures OpQuery(FilterString(db, index, compareOperator, value))[3..] == [("page", "1"), ("pageSize", "10")]
  {
    assert Int32Text(1) == "1";
    assert Decimal(10) == Decimal(1) + [DigitChar(0)];
    assert Int32Text(10) == "10";
  }

  /** The part of a filter, any or count target before the query string. */
  function OpPath(c: DbClient, op: Operation): string
    requires op.Filter? || op.FilterString? || op.Any? || op.Count?
  {
    match op
    case Filter(db, _, _, _, _, _) => c.http.host + "/" + (DbPath(c, db) + "/filter")
    case FilterString(db, _, _, _, _, _) => DbPath(c, db) + "/filter"
    case Any(db, _, _, _) => DbPath(c, db) + "/any"
    case Count(db, _, _, _) => DbPath(c, db) + "/count"
  }

  /** A server reading the target of a filter, any or count request finds the path and
      then exactly the query parameters the operation put in its dictionary, in order and
      unchanged, as long as no argument holds a character the query syntax uses. */
  lemma QueryParameters(c: DbClient, op: Operation)
    requires op.Filter? || op.FilterString? || op.Any? || op.Count?
    requires Guard(op).None? && NoBraces(c.baseUrl)
    requires '?' !in c.http.host && '?' !in c.baseUrl && '?' !in op.db
    requires '&' !in op.index && '&' !in op.compareOperator && '&' !in op.value
    ensures Describe(c, op).Ok?
    ensures ParseTarget(Describe(c, op).value.target) == (OpPath(c, op), OpQuery(op))
  {
    Routes(c, op);
    var q := OpQuery(op);
    if op.Filter? || op.FilterString? {
      FilterQuerySafe(op.index, op.compareOperator, op.value, op.page, op.pageSize);
    } else {
      MatchQuerySafe(op.index, op.compareOperator, op.value);
    }
    TargetSplits(c, op);
    QueryRoundTrip(OpPath(c, op), Some(q));
  }

  lemma MatchQuerySafe(index: string, compareOperator: string, value: string)
    requires '&' !in index && '&' !in compareOperator && '&' !in value
    ensures TransportSafe(MatchQuery(index, compareOperator, value))
  {
    var q := MatchQuery(index, compareOperator, value);
    assert '=' !in "indexName" && '&' !in "indexName";
    assert '=' !in "compareOperator" && '&' !in "compareOperator";
    assert '=' !in "value" && '&' !in "value";
    forall i | 0 <= i < |q| ensures '=' !in q[i].0 && '&' !in q[i].0 && '&' !in q[i].1 {
    }
  }

  lemma FilterQuerySafe(index: string, compareOperator: string, value: string, page: int, pageSize: int)
    requires '&' !in index && '&' !in compareOperator && '&' !in value
    ensures TransportSafe(FilterQuery(index, compareOperator, value, page, pageSize))
  {
    var q := FilterQuery(index, compareOperator, value, page, pageSize);
    MatchQuerySafe(index, compareOperator, value);
    Int32TextPlain(page);
    Int32TextPlain(pageSize);
    assert q[..3] == MatchQuery(index, compareOperator, value);
    assert '=' !in "page" && '&' !in "page";
    assert '=' !in "pageSize" && '&' !in "pageSize";
    forall i | 0 <= i < |q| ensures '=' !in q[i].0 && '&' !in q[i].0 && '&' !in q[i].1 {
      if i < 3 { assert q[i] == q[..3][i]; }
    }
  }

  /** The target of a filter, any or count operation is its path followed by the query
      string of its dictionary, and the path holds no `?` of its own. */
  lemma TargetSplits(c: DbClient, op: Operation)
    requires op.Filter? || op.FilterString? || op.Any? || op.Count?
    requires '?' !in c.http.host && '?' !in c.baseUrl && '?' !in op.db
    ensures OpTarget(c, op) == OpPath(c, op) + ConvertToQueryString(Some(OpQuery(op)))
    ensures '?' !in OpPath(c, op)
  {
    assert '?' !in DbPath(c, op.db) by { assert '?' !in "/databases/"; }
    match op
    case Filter(db, index, compareOperator, value, page, pageSize) =>
      assert '?' !in "/filter" && '?' !in "/";
    case FilterString(db, index, compareOperator, value, page, pageSize) =>
      assert '?' !in "/filter";
    case Any(db, index, compareOperator, value) =>
      assert '?' !in "/any";
    case Count(db, index, compareOperator, value) =>
      assert '?' !in "/count";
  }

  // ---------------------------------------------------------------------------
  // Running an operation
  // ---------------------------------------------------------------------------

  /** The decoders the facade hands to the transport: read the `{"result": ...}` envelope
      and return its `result`. */
  function Unwrap<T>(decode: string -> Result<ModbResponse<T>, string>): string -> Result<T, string>
  {
    (s: string) => match decode(s)
                   case Ok(envelope) => Ok(envelope.result)
                   case Err(m) => Err(m)
  }

  /** The action of the operations that return nothing: it ignores the body. */
  function Discard(body: string): Result<(), string> { Ok(()) }

  /** The catch block of every operation: an HTTPRequestFailedException becomes a
      MODBRequestFailedException with the decoded error body, its status code and status
      name; if the error body cannot be decoded the decoder's exception escapes instead;
      every other exception passes through. */
  function Rewrap<T>(o: Outcome<T>, decodeError: string -> Result<ModbError, string>): (r: Result<T, DbError>)
    ensures o.Success? <==> r.Ok?
    ensures o.Success? ==> r.value == o.value
    ensures o.Raised? ==> r == Err(Threw(o.fault))
    ensures o.Failed? ==> r.Err? && (r.error.RequestFailed? <==> decodeError(o.failure.response).Ok?)
    ensures o.Failed? && r.error.RequestFailed? ==>
              r.error.failure == DbRequestFailure(o.failure, decodeError(o.failure.response).value, o.failure.statusCode, o.failure.statusMessage)
    ensures o.Failed? && decodeError(o.failure.response).Err? ==>
              r == Err(Threw(Thrown(decodeError(o.failure.response).error)))
  {
    match o
    case Success(v) => Ok(v)
    case Raised(f) => Err(Threw(f))
    case Failed(tf) =>
      match decodeError(tf.response)
      case Ok(e) => Err(RequestFailed(DbRequestFailure(tf, e, tf.statusCode, tf.statusMessage)))
      case Err(m) => Err(Threw(Thrown(m)))
  }

  /** One facade call: the argument checks, then the transport call with the operation's
      handler (`Unwrap(decode)` for the reads, `Discard` for the others), then the catch
      block. `server` stands for the server's answer to each request. */
  function Run<T>(c: DbClient, op: Operation, handler: string -> Result<T, string>,
                  decodeError: string -> Result<ModbError, string>,
                  server: Request<Payload> -> HttpResponse): Result<T, DbError>
  {
    match Plan(c, op)
    case Err(e) => Err(InvalidArgument(e))
    case Ok(call) => Rewrap(PerformWith(call, handler, server), decodeError)
  }

  /** An operation whose arguments fail its checks throws that ArgumentException, whatever
      the server would answer and whatever the handlers are: nothing is sent. */
  lemma RejectedBeforeAnyRequest<T>(c: DbClient, op: Operation, handler: string -> Result<T, string>,
                                    decodeError: string -> Result<ModbError, string>,
                                    server1: Request<Payload> -> HttpResponse, server2: Request<Payload> -> HttpResponse)
    requires Guard(op).Some?
    ensures Run(c, op, handler, decodeError, server1) == Run(c, op, handler, decodeError, server2)
    ensures Run(c, op, handler, decodeError, server1) == Err(InvalidArgument(Guard(op).value))
    ensures Describe(c, op) == Err(InvalidArgument(Guard(op).value))
  {
  }

  /** Once its arguments pass, an operation depends on the server only through its answer
      to the one request that Describe gives; a template the version breaks throws the
      FormatException without sending anything. */
  lemma RunSendsDescribedRequest<T>(c: DbClient, op: Operation, handler: string -> Result<T, string>,
                                    decodeError: string -> Result<ModbError, string>,
                                    server: Request<Payload> -> HttpResponse)
    requires Guard(op).None?
    ensures Describe(c, op).Ok? ==>
              Run(c, op, handler, decodeError, server) == Rewrap(ReceiveWith(server(Describe(c, op).value), handler), decodeError)
    ensures Describe(c, op).Err? ==>
              Describe(c, op) == Err(Threw(FormatException)) && Run(c, op, handler, decodeError, server) == Err(Threw(FormatException))
  {
    var call := Plan(c, op).value;
    if RequestOf(call).Err? {
      assert RequestOf(call) == Err(FormatException);
    }
  }

  /** A non-success status becomes a MODBRequestFailedException carrying the decoded error
      body, the status code and the status name, with the transport failure as inner
      exception; the handler is never called. */
  lemma FailureBecomesDbFailure<T>(c: DbClient, op: Operation, handler: string -> Result<T, string>,
                                   decodeError: string -> Result<ModbError, string>,
                                   server: Request<Payload> -> HttpResponse, e: ModbError)
    requires Describe(c, op).Ok?
    requires !IsSuccessStatus(server(Describe(c, op).value).statusCode)
    requires decodeError(server(Describe(c, op).value).body) == Ok(e)
    ensures var resp := server(Describe(c, op).value);
            var inner := TransportFailure(resp.body, resp.statusCode, resp.statusName);
            Run(c, op, handler, decodeError, server) == Err(RequestFailed(DbRequestFailure(inner, e, resp.statusCode, resp.statusName)))
  {
    RunSendsDescribedRequest(c, op, handler, decodeError, server);
  }

  /** A read on a 2xx status returns the `result` of the decoded envelope. */
  lemma SuccessReturnsDecoded<T>(c: DbClient, op: Operation, decode: string -> Result<ModbResponse<T>, string>,
                                 decodeError: string -> Result<ModbError, string>,
                                 server: Request<Payload> -> HttpResponse, v: T)
    requires Describe(c, op).Ok?
    requires IsSuccessStatus(server(Describe(c, op).value).statusCode)
    requires decode(server(Describe(c, op).value).body) == Ok(ModbResponse(v))
    ensures Run(c, op, Unwrap(decode), decodeError, server) == Ok(v)
  {
    RunSendsDescribedRequest(c, op, Unwrap(decode), decodeError, server);
  }

  /** An operation that returns nothing succeeds exactly on a 2xx status. */
  lemma ActionSucceedsOnSuccessStatus(c: DbClient, op: Operation,
                                      decodeError: string -> Result<ModbError, string>,
                                      server: Request<Payload> -> HttpResponse)
    requires Describe(c, op).Ok?
    ensures Run(c, op, Discard, decodeError, server).Ok? <==> IsSuccessStatus(server(Describe(c, op).value).statusCode)
  {
    RunSendsDescribedRequest(c, op, Discard, decodeError, server);
  }
}
