/** The two record types that cross the transport boundary: the request
    description `EndPoint` and the normalised `HttpResponse`. Both are
    `NamedTuple`s; constructing one from keyword arguments fails with a
    `TypeError` when a field without a default is missing or an unknown keyword
    is passed, and fills the other fields with their defaults. */
module CommonNamedtuples {
  import opened Outcomes
  import opened JsonValue

  /** The response header that carries the transaction id. */
  const TransactionIdHeader: string := "x-txid"

  /** `NO_VALUE`, the default of the optional response fields. */
  const NoValue: string := ""

  /** The status the transport reports when the call itself raised. */
  const ServerErrorStatus: string := "555"

  datatype EndPoint = EndPoint(
    uri: Json, httpMethod: Json, env: Json,
    headers: Json, params: Json, data: Json, json: Json, files: Json)

  const EndPointFields: set<string> :=
    {"uri", "method", "env", "headers", "params", "data", "json", "files"}

  const EndPointRequired: set<string> := {"uri", "method", "env"}

  /** `EndPoint(**kwargs)`. */
  function NewEndPoint(kwargs: map<string, Json>): (r: Result<EndPoint>)
    ensures r.Ok? <==> kwargs.Keys <= EndPointFields && EndPointRequired <= kwargs.Keys
    ensures r.Ok? ==> r.value.uri == kwargs["uri"] && r.value.httpMethod == kwargs["method"] && r.value.env == kwargs["env"]
    ensures r.Ok? ==> forall f :: f in EndPointFields - EndPointRequired ==>
                        EndPointField(r.value, f) == (if f in kwargs then kwargs[f] else Empty)
  {
    if !(kwargs.Keys <= EndPointFields) || !(EndPointRequired <= kwargs.Keys) then Err(TypeError)
    else Ok(EndPoint(
      kwargs["uri"], kwargs["method"], kwargs["env"],
      Get(kwargs, "headers", Empty), Get(kwargs, "params", Empty),
      Get(kwargs, "data", Empty), Get(kwargs, "json", Empty), Get(kwargs, "files", Empty)))
  }

  /** Attribute access by field name. */
  function EndPointField(e: EndPoint, f: string): Json
    requires f in EndPointFields
  {
    match f
    case "uri" => e.uri
    case "method" => e.httpMethod
    case "env" => e.env
    case "headers" => e.headers
    case "params" => e.params
    case "data" => e.data
    case "json" => e.json
    case _ => e.files
  }

  /** `e._asdict()`. */
  function EndPointAsDict(e: EndPoint): (m: map<string, Json>)
    ensures m.Keys == EndPointFields
  {
    map["uri" := e.uri, "method" := e.httpMethod, "env" := e.env, "headers" := e.headers,
        "params" := e.params, "data" := e.data, "json" := e.json, "files" := e.files]
  }

  /** Rebuilding an endpoint from its own fields gives it back. */
  lemma EndPointRoundTrip(e: EndPoint)
    ensures NewEndPoint(EndPointAsDict(e)) == Ok(e)
  {
  }

  /** With only the three required fields, every other field is an empty dict. */
  lemma EndPointDefaults(uri: Json, httpMethod: Json, env: Json)
    ensures NewEndPoint(map["uri" := uri, "method" := httpMethod, "env" := env])
         == Ok(EndPoint(uri, httpMethod, env, Empty, Empty, Empty, Empty, Empty))
  {
  }

  /** A field of a response: a JSON-like value, raw bytes, or a caught exception. */
  datatype Value = J(json: Json) | Bytes(bytes: seq<bv8>) | Exception(message: string)

  datatype HttpResponse = HttpResponse(
    env: Value, url: Value, status: Value, headers: Value,
    data: Value, content: Value, error: Value, transactionId: Value)

  const ResponseFields: set<string> :=
    {"env", "url", "status", "headers", "data", "content", "error", "transaction_id"}

  const ResponseRequired: set<string> := {"env", "url", "status", "headers"}

  function GetValue(kwargs: map<string, Value>, key: string, default: Value): Value {
    if key in kwargs then kwargs[key] else default
  }

  /** `HttpResponse(**kwargs)`. */
  function NewHttpResponse(kwargs: map<string, Value>): (r: Result<HttpResponse>)
    ensures r.Ok? <==> kwargs.Keys <= ResponseFields && ResponseRequired <= kwargs.Keys
    ensures r.Ok? ==> (r.value.env == kwargs["env"] && r.value.url == kwargs["url"]
                       && r.value.status == kwargs["status"] && r.value.headers == kwargs["headers"])
    ensures r.Ok? ==> r.value.data == (if "data" in kwargs then kwargs["data"] else J(JStr(NoValue)))
    ensures r.Ok? ==> r.value.content == (if "content" in kwargs then kwargs["content"] else Bytes([]))
    ensures r.Ok? ==> r.value.error == (if "error" in kwargs then kwargs["error"] else J(JStr(NoValue)))
    ensures r.Ok? ==> (r.value.transactionId
                       == if "transaction_id" in kwargs then kwargs["transaction_id"] else J(JStr(NoValue)))
  {
    if !(kwargs.Keys <= ResponseFields) || !(ResponseRequired <= kwargs.Keys) then Err(TypeError)
    else Ok(HttpResponse(
      kwargs["env"], kwargs["url"], kwargs["status"], kwargs["headers"],
      GetValue(kwargs, "data", J(JStr(NoValue))), GetValue(kwargs, "content", Bytes([])),
      GetValue(kwargs, "error", J(JStr(NoValue))), GetValue(kwargs, "transaction_id", J(JStr(NoValue)))))
  }

  /** The transport's failure path builds its response from `env`, `url`,
      `status` and `error` only; `headers` has no default, so the construction
      itself raises a `TypeError` instead of producing the sentinel response. */
  lemma TransportErrorResponseAsWritten(endpoint: EndPoint, message: string)
    ensures NewHttpResponse(map["env" := J(endpoint.env), "url" := J(endpoint.uri),
                                "status" := J(JStr(ServerErrorStatus)), "error" := Exception(message)])
         == Err(TypeError)
  {
  }

  /** The sentinel response for a transport call that raised, with the
      missing `headers` supplied as an empty dict. */
  function TransportErrorResponse(endpoint: EndPoint, message: string): (r: HttpResponse)
    ensures r.status == J(JStr(ServerErrorStatus)) && r.error == Exception(message)
    ensures r.env == J(endpoint.env) && r.url == J(endpoint.uri) && r.headers == J(Empty)
    ensures r.data == J(JStr(NoValue)) && r.content == Bytes([]) && r.transactionId == J(JStr(NoValue))
  {
    var kwargs := map["env" := J(endpoint.env), "url" := J(endpoint.uri), "status" := J(JStr(ServerErrorStatus)),
                      "headers" := J(Empty), "error" := Exception(message)];
    NewHttpResponse(kwargs).value
  }
}
