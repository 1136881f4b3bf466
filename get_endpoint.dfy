/** Endpoint request assembly: the layers that make up one request (suite
    defaults, test data and its environment section, call-site arguments,
    command-line arguments and the authentication headers), the `EndPoint`
    built from them, and the normalised endpoint catalog. */
module GetEndpoint {
  import opened Outcomes
  import opened JsonValue
  import opened PyStrings
  import opened StrFormat
  import opened CommonNamedtuples

  /** `a + b` on dicts as `{**a, **b}` defines it: the keys of both, and the
      value of the later layer where both have the key. */
  predicate Overrides(r: Object, a: Object, b: Object) {
    r.Keys == a.Keys + b.Keys
    && (forall k :: k in b ==> r[k] == b[k])
    && (forall k :: k in a && k !in b ==> r[k] == a[k])
  }

  lemma MergeOverrides(a: Object, b: Object)
    ensures Overrides(a + b, a, b)
  {
  }

  // ---------------------------------------------------------------------
  // Suite-level defaults
  // ---------------------------------------------------------------------

  /** What the suite configuration contributes to one request. */
  datatype SuiteLevel = SuiteLevel(baseUrl: Json, args: Json, params: Json, headers: Json)

  /** The key of an environment-specific base URL, `<env>_baseurl`. */
  function EnvBaseUrlKey(envText: string): string {
    envText + "_baseurl"
  }

  /** `get_suite_level_data(suite, env, endpoint_key)`. The `baseurl`
      template is formatted even when `<env>_baseurl` is present, because the
      default argument of `dict.get` is evaluated first. */
  function SuiteLevelData(suite: Object, env: Json, endpointKey: string): (r: Result<SuiteLevel>)
    ensures r.Ok? <==>
              Text(env).Ok? && "baseurl" in suite && suite["baseurl"].JStr?
              && Format(suite["baseurl"].s, map["environment" := env]).Ok?
              && Get(suite, endpointKey, Empty).JObj?
    ensures r.Ok? && EnvBaseUrlKey(Text(env).value) in suite ==>
              r.value.baseUrl == suite[EnvBaseUrlKey(Text(env).value)]
    ensures r.Ok? && EnvBaseUrlKey(Text(env).value) !in suite ==>
              r.value.baseUrl == JStr(Format(suite["baseurl"].s, map["environment" := env]).value)
    ensures r.Ok? ==>
              var section := Get(suite, endpointKey, Empty).fields;
              (("args" !in section ==> r.value.args == Empty) && ("args" in section ==> r.value.args == section["args"]))
              && (("params" !in section ==> r.value.params == Empty) && ("params" in section ==> r.value.params == section["params"]))
              && (("headers" !in section ==> r.value.headers == Empty) && ("headers" in section ==> r.value.headers == section["headers"]))
  {
    var envText :- Text(env);
    var template := Get(suite, "baseurl", JNull);
    if !template.JStr? then Err(AttributeError)
    else
      var formatted :- Format(template.s, map["environment" := env]);
      var baseUrl := Get(suite, EnvBaseUrlKey(envText), JStr(formatted));
      var section :- AsDict(Get(suite, endpointKey, Empty));
      Ok(SuiteLevel(baseUrl, Get(section, "args", Empty), Get(section, "params", Empty), Get(section, "headers", Empty)))
  }

  // ---------------------------------------------------------------------
  // Test-data layers
  // ---------------------------------------------------------------------

  /** What the test data (keyword arguments of the test) contributes. */
  datatype TestDataLayers = TestDataLayers(args: Object, params: Object, headers: Object, data: Json, json: Json)

  /** One of `args`, `params`, `headers`: the base section overridden key by
      key by the environment section. */
  function Layer(testData: Object, envData: Object, key: string): (r: Result<Object>)
    ensures r.Ok? <==> Get(testData, key, Empty).JObj? && Get(envData, key, Empty).JObj?
    ensures r.Ok? ==> Overrides(r.value, Get(testData, key, Empty).fields, Get(envData, key, Empty).fields)
  {
    var base :- Unpack(Get(testData, key, Empty));
    var over :- Unpack(Get(envData, key, Empty));
    Ok(base + over)
  }

  /** The form payload. A mapping is merged with a mapping from the
      environment section; anything else is sent as its JSON text, the
      environment's value first. */
  function DataPayload(base: Json, over: Json, dumps: Json -> string): (r: Json)
    ensures r.JObj? || r.JStr?
    ensures base.JObj? && over.JObj? ==> r.JObj? && Overrides(r.fields, base.fields, over.fields)
    ensures base.JObj? && !over.JObj? ==> r == base
    ensures !base.JObj? && Truthy(over) ==> r == JStr(dumps(over))
    ensures !base.JObj? && !Truthy(over) && Truthy(base) ==> r == JStr(dumps(base))
    ensures !Truthy(base) && !Truthy(over) ==> r == Empty
  {
    if base.JObj? then
      if over.JObj? then JObj(base.fields + over.fields) else base
    else if Truthy(over) then JStr(dumps(over))
    else if Truthy(base) then JStr(dumps(base))
    else Empty
  }

  /** The JSON payload: a mapping is merged with a mapping from the
      environment section; otherwise a non-empty environment value wins and
      the base value (or an empty dict when absent) is the fallback. */
  function JsonPayload(testData: Object, over: Json): (r: Json)
    ensures Get(testData, "json", JNull).JObj? ==>
              r.JObj? && (over.JObj? ==> Overrides(r.fields, testData["json"].fields, over.fields))
                      && (!over.JObj? ==> r == testData["json"])
    ensures !Get(testData, "json", JNull).JObj? && Truthy(over) ==> r == over
    ensures !Get(testData, "json", JNull).JObj? && !Truthy(over) ==> r == Get(testData, "json", Empty)
  {
    var base := Get(testData, "json", JNull);
    if base.JObj? then
      if over.JObj? then JObj(base.fields + over.fields) else base
    else if Truthy(over) then over
    else Get(testData, "json", Empty)
  }

  /** `get_internal_test_data(env, **test_data)`: the environment section is
      the entry named after the environment. */
  function InternalTestData(env: Json, testData: Object, dumps: Json -> string): (r: Result<TestDataLayers>)
    ensures r.Ok? ==> GetByValue(testData, env, Empty).Ok? && GetByValue(testData, env, Empty).value.JObj?
    ensures r.Ok? ==>
              var envData := GetByValue(testData, env, Empty).value.fields;
              (forall key :: key in {"args", "params", "headers"} ==>
                 Get(testData, key, Empty).JObj? && Get(envData, key, Empty).JObj?)
              && Overrides(r.value.args, Get(testData, "args", Empty).fields, Get(envData, "args", Empty).fields)
              && Overrides(r.value.params, Get(testData, "params", Empty).fields, Get(envData, "params", Empty).fields)
              && Overrides(r.value.headers, Get(testData, "headers", Empty).fields, Get(envData, "headers", Empty).fields)
              && r.value.data == DataPayload(Get(testData, "data", JNull), Get(envData, "data", JNull), dumps)
              && r.value.json == JsonPayload(testData, Get(envData, "json", JNull))
    ensures (GetByValue(testData, env, Empty).Ok? && GetByValue(testData, env, Empty).value.JObj?
             && (var envData := GetByValue(testData, env, Empty).value.fields;
                 forall key :: key in {"args", "params", "headers"} ==>
                   Get(testData, key, Empty).JObj? && Get(envData, key, Empty).JObj?)) ==> r.Ok?
  {
    var envValue :- GetByValue(testData, env, Empty);
    var baseArgs :- Unpack(Get(testData, "args", Empty));
    var envData :- AsDict(envValue);
    var envArgs :- Unpack(Get(envData, "args", Empty));
    var params :- Layer(testData, envData, "params");
    var headers :- Layer(testData, envData, "headers");
    var data := DataPayload(Get(testData, "data", JNull), Get(envData, "data", JNull), dumps);
    var json := JsonPayload(testData, Get(envData, "json", JNull));
    Ok(TestDataLayers(baseArgs + envArgs, params, headers, data, json))
  }

  /** Only one of `data` and `json` is meant to be set, but nothing enforces
      it: a test data file with both a `data` and a `json` mapping sends both. */
  lemma BothPayloadsSent(dumps: Json -> string)
    ensures var testData := map["data" := JObj(map["a" := JInt(1)]), "json" := JObj(map["b" := JInt(2)])];
            var r := InternalTestData(JStr("dev"), testData, dumps);
            r.Ok? && Truthy(r.value.data) && Truthy(r.value.json)
  {
    var testData := map["data" := JObj(map["a" := JInt(1)]), "json" := JObj(map["b" := JInt(2)])];
    assert GetByValue(testData, JStr("dev"), Empty) == Ok(Empty);
    assert "a" in InternalTestData(JStr("dev"), testData, dumps).value.data.fields;
    assert "b" in InternalTestData(JStr("dev"), testData, dumps).value.json.fields;
  }

  // ---------------------------------------------------------------------
  // Request assembly
  // ---------------------------------------------------------------------

  /** The path arguments: suite, test data, call-site arguments and
      command-line arguments, the later layer winning on a shared key. */
  function EndpointArgs(suiteArgs: Object, tdArgs: Object, inputArgs: Object, commandArgs: Object): (r: Object)
    ensures r.Keys == suiteArgs.Keys + tdArgs.Keys + inputArgs.Keys + commandArgs.Keys
    ensures forall k :: k in commandArgs ==> r[k] == commandArgs[k]
    ensures forall k :: k in inputArgs && k !in commandArgs ==> r[k] == inputArgs[k]
    ensures forall k :: k in tdArgs && k !in inputArgs && k !in commandArgs ==> r[k] == tdArgs[k]
    ensures forall k :: k in suiteArgs && k !in tdArgs && k !in inputArgs && k !in commandArgs ==> r[k] == suiteArgs[k]
  {
    var merged := suiteArgs + tdArgs + inputArgs;
    if commandArgs != map[] then merged + commandArgs else merged
  }

  /** The request headers: suite, test data, the caller's `add_headers` and
      last the authentication headers. */
  function RequestHeaders(suiteHeaders: Object, tdHeaders: Object, added: Object, auth: Object): (r: Object)
    ensures r.Keys == suiteHeaders.Keys + tdHeaders.Keys + added.Keys + auth.Keys
    ensures forall k :: k in auth ==> r[k] == auth[k]
    ensures forall k :: k in added && k !in auth ==> r[k] == added[k]
    ensures forall k :: k in tdHeaders && k !in added && k !in auth ==> r[k] == tdHeaders[k]
    ensures forall k :: k in suiteHeaders && k !in tdHeaders && k !in added && k !in auth ==> r[k] == suiteHeaders[k]
  {
    suiteHeaders + tdHeaders + added + auth
  }

  /** The declared endpoint entry `suite['endpoints'][endpoint]`. */
  function DeclaredEndpoint(suite: Object, endpointName: string): Result<Object> {
    var endpoints :- AsDict(Get(suite, "endpoints", JNull));
    AsDict(Get(endpoints, endpointName, JNull))
  }

  /** The method sent: the explicit one when given, else the declared one,
      lower-cased. */
  function RequestMethod(explicit: Json, declared: Object): (r: Result<string>)
    ensures r.Ok? ==> Lower(r.value) == r.value
    ensures Truthy(explicit) ==> (r.Ok? <==> explicit.JStr?) && (r.Ok? ==> r.value == Lower(explicit.s))
    ensures !Truthy(explicit) ==> (r.Ok? <==> Get(declared, "method", JNull).JStr?)
                                  && (r.Ok? ==> r.value == Lower(declared["method"].s))
  {
    var m := if Truthy(explicit) then explicit else Get(declared, "method", JNull);
    if !m.JStr? then Err(AttributeError)
    else
      LowerIdempotent(m.s);
      Ok(Lower(m.s))
  }

  /** Everything `call_endpoint` needs besides the loaded suite configuration. */
  datatype Call = Call(
    suiteName: string, endpointName: string, httpMethod: Json,
    commandArgs: Object, inputArgs: Json, kwargs: Object)

  /** The layers of one request, gathered before the path is formatted. */
  datatype Prepared = Prepared(
    env: Json, suite: Object, level: SuiteLevel, td: TestDataLayers,
    args: Object, params: Object, declared: Object)

  /** The first part of `call_endpoint`: the suite, its defaults, the test
      data, the merged path arguments and query parameters, and the declared
      endpoint. */
  function Prepare(configs: Object, call: Call, dumps: Json -> string): (r: Result<Prepared>)
    ensures r.Ok? ==> r.value.env == Get(configs, "environment", JNull) && "env" !in call.kwargs
    ensures r.Ok? ==> forall k :: k in call.commandArgs ==> k in r.value.args && r.value.args[k] == call.commandArgs[k]
    ensures r.Ok? && Truthy(call.inputArgs) ==>
              call.inputArgs.JObj?
              && forall k :: k in call.inputArgs.fields && k !in call.commandArgs ==>
                   k in r.value.args && r.value.args[k] == call.inputArgs.fields[k]
    ensures r.Ok? ==>
              forall k :: k in r.value.td.args && k !in call.commandArgs
                          && !(Truthy(call.inputArgs) && k in call.inputArgs.fields) ==>
                k in r.value.args && r.value.args[k] == r.value.td.args[k]
    ensures r.Ok? ==> r.value.level.params.JObj? && Overrides(r.value.params, r.value.level.params.fields, r.value.td.params)
    ensures r.Ok? ==>
              var suites := Get(configs, "suites", JNull);
              suites.JObj? && Get(suites.fields, call.suiteName, JNull) == JObj(r.value.suite)
              && SuiteLevelData(r.value.suite, r.value.env, call.endpointName) == Ok(r.value.level)
              && DeclaredEndpoint(r.value.suite, call.endpointName) == Ok(r.value.declared)
    ensures r.Ok? ==> InternalTestData(r.value.env, call.kwargs, dumps) == Ok(r.value.td)
    ensures r.Ok? ==>
              r.value.level.args.JObj? && (Truthy(call.inputArgs) ==> call.inputArgs.JObj?)
              && r.value.args == EndpointArgs(r.value.level.args.fields, r.value.td.args,
                                               if Truthy(call.inputArgs) then call.inputArgs.fields else map[],
                                               call.commandArgs)
  {
    var env := Get(configs, "environment", JNull);
    var suites :- AsDict(Get(configs, "suites", JNull));
    var suite :- AsDict(Get(suites, call.suiteName, JNull));
    var level :- SuiteLevelData(suite, env, call.endpointName);
    if "env" in call.kwargs then Err(TypeError)
    else
      var td :- InternalTestData(env, call.kwargs, dumps);
      var suiteArgs :- Unpack(level.args);
      var inputArgs :- Unpack(if Truthy(call.inputArgs) then call.inputArgs else Empty);
      var args := EndpointArgs(suiteArgs, td.args, inputArgs, call.commandArgs);
      var suiteParams :- Unpack(level.params);
      var declared :- DeclaredEndpoint(suite, call.endpointName);
      Ok(Prepared(env, suite, level, td, args, suiteParams + td.params, declared))
  }

  /** The endpoint `call_endpoint` builds and sends. `configs` is what
      `load_suite_config` returned for the command-line arguments, `auth`
      what `get_auth` returned and `dumps` is `json.dumps`. */
  function BuildEndPoint(configs: Object, call: Call, auth: Result<Json>, dumps: Json -> string): (r: Result<EndPoint>)
    ensures r.Ok? ==> Prepare(configs, call, dumps).Ok?
    ensures r.Ok? ==>
              var p := Prepare(configs, call, dumps).value;
              var template := Get(p.declared, "path", JNull);
              template.JStr? && Format(template.s, p.args).Ok? && Text(p.level.baseUrl).Ok?
              && r.value.uri == JStr(Text(p.level.baseUrl).value + Format(template.s, p.args).value)
              && r.value.env == p.env && r.value.params == JObj(p.params)
              && r.value.data == p.td.data && r.value.json == p.td.json && r.value.files == Empty
    ensures r.Ok? ==> r.value.httpMethod.JStr? && Lower(r.value.httpMethod.s) == r.value.httpMethod.s
    ensures r.Ok? && Truthy(call.httpMethod) ==> call.httpMethod.JStr? && r.value.httpMethod == JStr(Lower(call.httpMethod.s))
    ensures r.Ok? ==> auth.Ok? && auth.value.JObj? && r.value.headers.JObj?
                      && forall k :: k in auth.value.fields ==>
                           k in r.value.headers.fields && r.value.headers.fields[k] == auth.value.fields[k]
    ensures r.Ok? ==> var added := Get(call.kwargs, "add_headers", Empty);
                      added.JObj? && forall k :: k in added.fields && k !in auth.value.fields ==>
                        k in r.value.headers.fields && r.value.headers.fields[k] == added.fields[k]
    ensures r.Ok? ==>
              var p := Prepare(configs, call, dumps).value;
              p.level.headers.JObj? && Get(call.kwargs, "add_headers", Empty).JObj?
              && r.value.headers == JObj(RequestHeaders(p.level.headers.fields, p.td.headers,
                                                        Get(call.kwargs, "add_headers", Empty).fields,
                                                        auth.value.fields))
    ensures r.Ok? ==>
              var p := Prepare(configs, call, dumps).value;
              RequestMethod(call.httpMethod, p.declared).Ok?
              && r.value.httpMethod == JStr(RequestMethod(call.httpMethod, p.declared).value)
  {
    var p :- Prepare(configs, call, dumps);
    var template := Get(p.declared, "path", JNull);
    if !template.JStr? then Err(AttributeError)
    else
      var path :- Format(template.s, p.args);
      var baseUrl :- Text(p.level.baseUrl);
      var suiteHeaders :- Unpack(p.level.headers);
      var added :- Unpack(Get(call.kwargs, "add_headers", Empty));
      var authValue :- auth;
      var authHeaders :- Unpack(authValue);
      var httpMethod :- RequestMethod(call.httpMethod, p.declared);
      Ok(EndPoint(JStr(baseUrl + path), JStr(httpMethod), p.env,
                  JObj(RequestHeaders(suiteHeaders, p.td.headers, added, authHeaders)),
                  JObj(p.params), p.td.data, p.td.json, Empty))
  }

  /** A placeholder of the path template that none of the argument layers
      supplies makes the call fail with a `KeyError` naming it. */
  lemma MissingPlaceholderFails(configs: Object, call: Call, auth: Result<Json>, dumps: Json -> string,
                                prefix: string, name: string, rest: string)
    requires Prepare(configs, call, dumps).Ok?
    requires Get(Prepare(configs, call, dumps).value.declared, "path", JNull) == JStr(prefix + "{" + name + "}" + rest)
    requires Plain(prefix) && name != [] && Plain(name) && !Positional(name) && !Compound(name)
    requires name !in Prepare(configs, call, dumps).value.args
    ensures BuildEndPoint(configs, call, auth, dumps) == Err(KeyError(name))
  {
    var p := Prepare(configs, call, dumps).value;
    assert prefix + "{" + name + "}" + rest == prefix + ("{" + name + "}" + rest);
    FormatField(name, rest, p.args);
    FormatPlainPrefix(prefix, "{" + name + "}" + rest, p.args);
  }

  /** What the transport did with a request: a response, or the message of
      the exception the call raised. */
  datatype TransportOutcome = Responded(response: HttpResponse) | Raised(message: string)

  /** Sending as the transport is written: a response is passed through; for
      a call that raised, the transport builds its sentinel response without
      the required `headers` field, so the construction itself raises
      `TypeError`. */
  function SendAsWritten(endpoint: EndPoint, transport: EndPoint -> TransportOutcome): (r: Result<HttpResponse>)
    ensures transport(endpoint).Responded? ==> r == Ok(transport(endpoint).response)
    ensures transport(endpoint).Raised? ==> r == Err(TypeError)
    ensures r.Ok? ==> r.value == Send(endpoint, transport)
  {
    match transport(endpoint)
    case Responded(response) => Ok(response)
    case Raised(message) =>
      TransportErrorResponseAsWritten(endpoint, message);
      NewHttpResponse(map["env" := J(endpoint.env), "url" := J(endpoint.uri),
                          "status" := J(JStr(ServerErrorStatus)), "error" := Exception(message)])
  }

  /** Sending with the sentinel response the transport evidently intends: a
      response is passed through; a call that raised becomes the sentinel
      response with the server-error status and empty headers. */
  function Send(endpoint: EndPoint, transport: EndPoint -> TransportOutcome): (r: HttpResponse)
    ensures transport(endpoint).Responded? ==> r == transport(endpoint).response
    ensures transport(endpoint).Raised? ==>
              r.status == J(JStr(ServerErrorStatus)) && r.url == J(endpoint.uri)
              && r.error == Exception(transport(endpoint).message)
  {
    match transport(endpoint)
    case Responded(response) => response
    case Raised(message) => TransportErrorResponse(endpoint, message)
  }

  /** `call_endpoint(...)`: build the endpoint, then send it. */
  function CallEndpoint(configs: Object, call: Call, auth: Result<Json>, dumps: Json -> string,
                        transport: EndPoint -> TransportOutcome): (r: Result<HttpResponse>)
    ensures r.Ok? <==> BuildEndPoint(configs, call, auth, dumps).Ok?
    ensures r.Err? ==> r.error == BuildEndPoint(configs, call, auth, dumps).error
    ensures auth.Err? ==> r.Err?
    ensures r.Ok? ==> r.value == Send(BuildEndPoint(configs, call, auth, dumps).value, transport)
  {
    var endpoint :- BuildEndPoint(configs, call, auth, dumps);
    Ok(Send(endpoint, transport))
  }

  /** `call_endpoint(...)` as the transport is written: a transport call
      that raised makes the whole call raise `TypeError`. */
  function CallEndpointAsWritten(configs: Object, call: Call, auth: Result<Json>, dumps: Json -> string,
                                 transport: EndPoint -> TransportOutcome): (r: Result<HttpResponse>)
    ensures r.Ok? <==> BuildEndPoint(configs, call, auth, dumps).Ok?
                       && transport(BuildEndPoint(configs, call, auth, dumps).value).Responded?
    ensures BuildEndPoint(configs, call, auth, dumps).Err? ==> r == Err(BuildEndPoint(configs, call, auth, dumps).error)
    ensures BuildEndPoint(configs, call, auth, dumps).Ok? ==>
              transport(BuildEndPoint(configs, call, auth, dumps).value).Raised? ==> r == Err(TypeError)
    ensures r.Ok? ==> r == CallEndpoint(configs, call, auth, dumps, transport)
    ensures r.Ok? ==> r.value == transport(BuildEndPoint(configs, call, auth, dumps).value).response
  {
    var endpoint :- BuildEndPoint(configs, call, auth, dumps);
    SendAsWritten(endpoint, transport)
  }

  // ---------------------------------------------------------------------
  // The endpoint catalog
  // ---------------------------------------------------------------------

  /** `v['baseurl']` on a suite of the resource configuration. */
  function SuiteBaseUrl(suite: Json): (r: Result<Json>)
    ensures r.Ok? <==> suite.JObj? && "baseurl" in suite.fields
    ensures r.Ok? ==> r.value == suite.fields["baseurl"]
    ensures suite.JObj? && "baseurl" !in suite.fields ==> r == Err(KeyError("baseurl"))
    ensures !suite.JObj? ==> r == Err(TypeError)
  {
    if !suite.JObj? then Err(TypeError)
    else if "baseurl" !in suite.fields then Err(KeyError("baseurl"))
    else Ok(suite.fields["baseurl"])
  }

  /** The catalog entry of one endpoint: its declaration stamped with the
      suite name and the endpoint key, its path prefixed with the base URL
      and its method defaulted to `GET`. */
  function StampEndpoint(suiteName: string, baseUrl: Json, name: string, declared: Json): (r: Result<Json>)
    ensures r.Ok? <==> declared.JObj? && "path" in declared.fields
                       && Text(baseUrl).Ok? && Text(declared.fields["path"]).Ok?
  {
    if !declared.JObj? then Err(TypeError)
    else
      var stamped := declared.fields["suite" := JStr(suiteName)]["endpoint" := JStr(name)];
      if "path" !in stamped then Err(KeyError("path"))
      else
        var base :- Text(baseUrl);
        var path :- Text(stamped["path"]);
        var withPath := stamped["path" := JStr(base + path)];
        Ok(JObj(withPath["method" := Get(withPath, "method", JStr("GET"))]))
  }

  /** What a stamped endpoint holds: the declared fields, with `suite`,
      `endpoint`, the full `path` and a `method` written over them. */
  lemma StampedFields(suiteName: string, baseUrl: Json, name: string, declared: Json)
    requires StampEndpoint(suiteName, baseUrl, name, declared).Ok?
    ensures var r := StampEndpoint(suiteName, baseUrl, name, declared).value;
              r.JObj?
              && r.fields.Keys == declared.fields.Keys + {"suite", "endpoint", "path", "method"}
              && r.fields["suite"] == JStr(suiteName)
              && r.fields["endpoint"] == JStr(name)
              && r.fields["path"] == JStr(Text(baseUrl).value + Text(declared.fields["path"]).value)
              && r.fields["method"] == Get(declared.fields, "method", JStr("GET"))
              && forall f :: f in declared.fields && f !in {"suite", "endpoint", "path", "method"} ==>
                               r.fields[f] == declared.fields[f]
  {
  }

  predicate EndpointsOk(suiteName: string, baseUrl: Json, endpoints: Object) {
    forall k :: k in endpoints ==> StampEndpoint(suiteName, baseUrl, k, endpoints[k]).Ok?
  }

  /** A suite's catalog entry: its name under `suite`, then every stamped
      endpoint under its own key (an endpoint named `suite` replaces the name). */
  function StampedSuite(suiteName: string, baseUrl: Json, endpoints: Object): (r: Object)
    requires EndpointsOk(suiteName, baseUrl, endpoints)
    ensures r.Keys == endpoints.Keys + {"suite"}
    ensures "suite" !in endpoints ==> r["suite"] == JStr(suiteName)
  {
    Overlay(JStr(suiteName), endpoints, Stamper(suiteName, baseUrl))
  }

  /** The stamping of the endpoints of one suite, as a function value. */
  function Stamper(suiteName: string, baseUrl: Json): (string, Json) -> Result<Json> {
    (name, declared) => StampEndpoint(suiteName, baseUrl, name, declared)
  }

  /** The suite's name under `suite`, then every endpoint as `stamp` makes
      it, under its own key. */
  function Overlay(name: Json, endpoints: Object, stamp: (string, Json) -> Result<Json>): Object
    requires forall k :: k in endpoints ==> stamp(k, endpoints[k]).Ok?
  {
    map["suite" := name] + map k | k in endpoints :: stamp(k, endpoints[k]).value
  }

  /** What stamping the endpoints of a suite gives: the stamped suite, or
      the error of one endpoint that cannot be stamped (which one depends on
      the order of the dict). */
  predicate EndpointsOutcome(suiteName: string, baseUrl: Json, endpoints: Object, r: Result<Object>) {
    if EndpointsOk(suiteName, baseUrl, endpoints) then r == Ok(StampedSuite(suiteName, baseUrl, endpoints))
    else r.Err? && exists k :: k in endpoints && StampEndpoint(suiteName, baseUrl, k, endpoints[k]) == Err(r.error)
  }

  lemma StampedSuiteFrom(suiteName: string, baseUrl: Json, endpoints: Object, suite: Object)
    requires EndpointsOk(suiteName, baseUrl, endpoints)
    requires suite.Keys == {"suite"} + endpoints.Keys
    requires forall k :: k in suite ==>
               suite[k] == if k in endpoints then StampEndpoint(suiteName, baseUrl, k, endpoints[k]).value
                           else JStr(suiteName)
    ensures suite == StampedSuite(suiteName, baseUrl, endpoints)
  {
    OverlayFrom(JStr(suiteName), endpoints, Stamper(suiteName, baseUrl), suite);
  }

  /** A dict holding `name` under `suite` and every endpoint's stamped value
      under its key, and nothing else, is the overlay. */
  lemma OverlayFrom(name: Json, endpoints: Object, stamp: (string, Json) -> Result<Json>, suite: Object)
    requires forall k :: k in endpoints ==> stamp(k, endpoints[k]).Ok?
    requires suite.Keys == {"suite"} + endpoints.Keys
    requires forall k :: k in suite ==> suite[k] == if k in endpoints then stamp(k, endpoints[k]).value else name
    ensures suite == Overlay(name, endpoints, stamp)
  {
    SameEntries(suite, Overlay(name, endpoints, stamp));
  }

  lemma SameEntries(a: Object, b: Object)
    requires a.Keys == b.Keys
    requires forall k :: k in a ==> a[k] == b[k]
    ensures a == b
  {
  }

  lemma StampedSuiteAt(suiteName: string, baseUrl: Json, endpoints: Object, k: string)
    requires EndpointsOk(suiteName, baseUrl, endpoints)
    requires k in endpoints || k == "suite"
    ensures StampedSuite(suiteName, baseUrl, endpoints)[k]
         == if k in endpoints then StampEndpoint(suiteName, baseUrl, k, endpoints[k]).value else JStr(suiteName)
  {
  }

  /** The inner loop of `endpoint_suites`. */
  method StampEndpoints(suiteName: string, baseUrl: Json, endpoints: Object) returns (r: Result<Object>)
    ensures EndpointsOutcome(suiteName, baseUrl, endpoints, r)
  {
    r := StampEach(JStr(suiteName), endpoints, Stamper(suiteName, baseUrl));
    if r.Err? {
      var k :| k in endpoints && Stamper(suiteName, baseUrl)(k, endpoints[k]) == Err(r.error);
      assert StampEndpoint(suiteName, baseUrl, k, endpoints[k]) == Err(r.error);
    }
  }

  /** The loop of `StampEndpoints` for any stamping of one endpoint: the
      suite's name under `suite`, then each endpoint stamped under its own
      key, in whatever order the dict gives; the first failure stops it. */
  method StampEach(name: Json, endpoints: Object, stamp: (string, Json) -> Result<Json>) returns (r: Result<Object>)
    ensures (forall k :: k in endpoints ==> stamp(k, endpoints[k]).Ok?) ==> r == Ok(Overlay(name, endpoints, stamp))
    ensures !(forall k :: k in endpoints ==> stamp(k, endpoints[k]).Ok?) ==>
              r.Err? && exists k :: k in endpoints && stamp(k, endpoints[k]) == Err(r.error)
  {
    var suite: Object := map["suite" := name];
    var remaining := endpoints.Keys;
    while remaining != {}
      invariant remaining <= endpoints.Keys
      invariant forall k :: k in endpoints && k !in remaining ==> stamp(k, endpoints[k]).Ok?
      invariant suite.Keys == {"suite"} + (endpoints.Keys - remaining)
      invariant forall k :: k in suite ==>
                  suite[k] == if k in endpoints && k !in remaining then stamp(k, endpoints[k]).value else name
      decreases remaining
    {
      var k :| k in remaining;
      var stamped := stamp(k, endpoints[k]);
      if stamped.Err? {
        return Err(stamped.error);
      }
      suite := suite[k := stamped.value];
      remaining := remaining - {k};
    }
    OverlayFrom(name, endpoints, stamp, suite);
    r := Ok(suite);
  }

  /** A suite that can be put into the catalog. */
  predicate SuiteOk(suiteName: string, suite: Json) {
    SuiteBaseUrl(suite).Ok?
    && Get(suite.fields, "endpoints", Empty).JObj?
    && EndpointsOk(suiteName, suite.fields["baseurl"], Get(suite.fields, "endpoints", Empty).fields)
  }

  function SuiteEntry(suiteName: string, suite: Json): Json
    requires SuiteOk(suiteName, suite)
  {
    JObj(StampedSuite(suiteName, suite.fields["baseurl"], Get(suite.fields, "endpoints", Empty).fields))
  }

  /** The ways one suite can fail: no base URL, an `endpoints` entry that is
      not a dict, or an endpoint that cannot be stamped. */
  predicate SuiteFailsWith(suiteName: string, suite: Json, e: Error) {
    match SuiteBaseUrl(suite)
    case Err(baseError) => e == baseError
    case Ok(baseUrl) =>
      var endpoints := Get(suite.fields, "endpoints", Empty);
      if !endpoints.JObj? then e == AttributeError
      else exists k :: k in endpoints.fields && StampEndpoint(suiteName, baseUrl, k, endpoints.fields[k]) == Err(e)
  }

  /** What `endpoint_suites` gives for the `suites` of the resource
      configuration: every suite's entry, or the error of some suite that
      fails. */
  predicate CatalogOutcome(suites: Object, r: Result<Object>) {
    if forall k :: k in suites ==> SuiteOk(k, suites[k]) then
      r.Ok? && r.value.Keys == suites.Keys && forall k :: k in suites ==> r.value[k] == SuiteEntry(k, suites[k])
    else r.Err? && exists k :: k in suites && !SuiteOk(k, suites[k]) && SuiteFailsWith(k, suites[k], r.error)
  }

  /** `endpoint_suites()` over the `suites` of the resource configuration,
      before the conversion to attribute-style records. */
  method EndpointSuites(suites: Object) returns (r: Result<Object>)
    ensures CatalogOutcome(suites, r)
  {
    var catalog: Object := map[];
    var remaining := suites.Keys;
    while remaining != {}
      invariant remaining <= suites.Keys
      invariant forall k :: k in suites && k !in remaining ==> SuiteOk(k, suites[k])
      invariant catalog.Keys == suites.Keys - remaining
      invariant forall k :: k in catalog ==> catalog[k] == SuiteEntry(k, suites[k])
      decreases remaining
    {
      var k :| k in remaining;
      var suite := suites[k];
      var baseUrl := SuiteBaseUrl(suite);
      if baseUrl.Err? {
        return Err(baseUrl.error);
      }
      var endpoints := Get(suite.fields, "endpoints", Empty);
      if !endpoints.JObj? {
        return Err(AttributeError);
      }
      var stamped := StampEndpoints(k, baseUrl.value, endpoints.fields);
      if stamped.Err? {
        return Err(stamped.error);
      }
      catalog := catalog[k := JObj(stamped.value)];
      remaining := remaining - {k};
    }
    r := Ok(catalog);
  }

  /** `baseurl` is gone from every suite entry, unless an endpoint has that
      very name. */
  lemma BaseUrlRemoved(suiteName: string, suite: Json)
    requires SuiteOk(suiteName, suite)
    ensures "baseurl" in SuiteEntry(suiteName, suite).fields ==> "baseurl" in suite.fields["endpoints"].fields
  {
  }

  /** Every endpoint of the catalog knows its suite, its key and its full
      URL template, and has a method. */
  lemma CatalogEntryStamped(suiteName: string, suite: Json, name: string)
    requires SuiteOk(suiteName, suite)
    requires name in Get(suite.fields, "endpoints", Empty).fields && name != "suite"
    ensures var entry := SuiteEntry(suiteName, suite).fields[name];
            var declared := suite.fields["endpoints"].fields[name];
            entry.JObj? && entry.fields["suite"] == JStr(suiteName) && entry.fields["endpoint"] == JStr(name)
            && entry.fields["path"] == JStr(Text(suite.fields["baseurl"]).value + Text(declared.fields["path"]).value)
            && ("method" !in declared.fields ==> entry.fields["method"] == JStr("GET"))
  {
    var endpoints := Get(suite.fields, "endpoints", Empty).fields;
    StampedFields(suiteName, suite.fields["baseurl"], name, endpoints[name]);
  }

  /** An endpoint declared under the key `suite` takes the place of the
      suite's own name in the catalog entry. */
  lemma EndpointNamedSuite(suiteName: string, suite: Json)
    requires SuiteOk(suiteName, suite)
    requires "suite" in Get(suite.fields, "endpoints", Empty).fields
    ensures SuiteEntry(suiteName, suite).fields["suite"].JObj?
  {
    var endpoints := Get(suite.fields, "endpoints", Empty).fields;
    StampedFields(suiteName, suite.fields["baseurl"], "suite", endpoints["suite"]);
  }
}
