/** The helpers of `lib/utils.py` the framework is built on: loading JSON
    configuration files, slicing a generator, merging the per-suite resource
    files, normalising the environment argument and formatting a response for
    an assertion message. The file system is a map from path to contents. */
module Utils {
  import opened Outcomes
  import opened JsonValue
  import opened PyStrings
  import opened CommonNamedtuples

  const ConfigDir: string := "../config"
  const AuthConfig: string := "auth.json"
  const ResourceConfig: string := "resource_config.json"

  /** What reading and parsing a file gives: a JSON value, or text that is
      not JSON. A path that is not in the map does not exist. */
  datatype FileContent = Parsed(json: Json) | Malformed

  type Files = map<string, FileContent>

  /** The directory the configuration files live in, relative to the
      directory of the library (`THIS_DIR_PATH`). */
  function ConfigsDir(libDir: string): string {
    libDir + "/" + ConfigDir
  }

  /** `load_data(file_path, print_error)`: a missing file gives `{}`, except
      that with `print_error` a missing authentication file ends the process
      with status 1. Text that is not JSON raises `ValueError`, which is not
      caught. */
  function LoadData(files: Files, path: string, printError: bool): (r: Result<Json>)
    ensures path in files && files[path].Parsed? ==> r == Ok(files[path].json)
    ensures path in files && files[path].Malformed? ==> r.Err? && r.error.ValueError?
    ensures path !in files ==> r == (if printError && IsSubstring(AuthConfig, path) then Err(Exit(1)) else Ok(Empty))
  {
    if path in files then
      match files[path]
      case Parsed(j) => Ok(j)
      case Malformed => Err(ValueError("JSONDecodeError"))
    else if printError && IsSubstring(AuthConfig, path) then Err(Exit(1))
    else Ok(Empty)
  }

  function AuthPath(libDir: string): string {
    ConfigsDir(libDir) + "/" + AuthConfig
  }

  /** `get_auth()`: the authentication file, which must exist. */
  function GetAuth(files: Files, libDir: string): (r: Result<Json>)
    ensures AuthPath(libDir) !in files ==> r == Err(Exit(1))
    ensures AuthPath(libDir) in files && files[AuthPath(libDir)].Parsed? ==> r == Ok(files[AuthPath(libDir)].json)
  {
    var path := AuthPath(libDir);
    assert OccursAt(AuthConfig, path, |path| - |AuthConfig|);
    LoadData(files, path, true)
  }

  /** A missing file is an empty configuration unless it is the
      authentication file and errors are reported. */
  lemma MissingFileIsEmpty(files: Files, path: string, printError: bool)
    requires path !in files
    requires !printError || !IsSubstring(AuthConfig, path)
    ensures LoadData(files, path, printError) == Ok(Empty)
  {
  }

  /** `slice_generator(in_gen, slice_for)`: the first `slice_for` items, or
      every item when `slice_for` is not positive. */
  method SliceGenerator(items: seq<Json>, sliceFor: int) returns (sliced: seq<Json>)
    ensures sliceFor <= 0 ==> sliced == items
    ensures sliceFor > 0 ==> sliced == items[..if sliceFor < |items| then sliceFor else |items|]
  {
    sliced := [];
    var i := 0;
    while i < |items|
      invariant 0 <= i <= |items|
      invariant sliced == items[..i]
      invariant sliceFor > 0 ==> i < sliceFor
    {
      sliced := sliced + [items[i]];
      if i == sliceFor - 1 {
        return;
      }
      i := i + 1;
    }
  }

  /** `d.update(x)` where `x` is a loaded file: a dict is merged in, a scalar
      is a `TypeError`; updating from a sequence of pairs is not modelled. */
  function UpdateArg(x: Json): (r: Result<Object>)
    ensures x.JObj? <==> r.Ok?
    ensures r.Ok? ==> r.value == x.fields
  {
    match x
    case JObj(m) => Ok(m)
    case JArr(_) => Err(Unsupported("dict.update from a sequence of pairs"))
    case JStr(_) => Err(Unsupported("dict.update from a sequence of pairs"))
    case _ => Err(TypeError)
  }

  /** The suites one listed resource file contributes. */
  function LoadedSuite(files: Files, libDir: string, name: Json): Result<Object> {
    var fileName :- Text(name);
    var loaded :- LoadData(files, ConfigsDir(libDir) + "/" + fileName, false);
    UpdateArg(loaded)
  }

  /** The suites after updating from each listed file in order. */
  function SuitesAfter(files: Files, libDir: string, names: seq<Json>): Result<Object>
    decreases |names|
  {
    if names == [] then Ok(map[])
    else
      var acc :- SuitesAfter(files, libDir, names[..|names| - 1]);
      var more :- LoadedSuite(files, libDir, names[|names| - 1]);
      Ok(acc + more)
  }

  /** `d.update(load(x))` for each `x` of `xs` in order, from `{}`, for any
      loader. */
  function UpdatedBy(xs: seq<Json>, load: Json -> Result<Object>): Result<Object>
    decreases |xs|
  {
    if xs == [] then Ok(map[])
    else
      var acc :- UpdatedBy(xs[..|xs| - 1], load);
      var more :- load(xs[|xs| - 1]);
      Ok(acc + more)
  }

  /** The resource loader of `get_resource_config` as a function value. */
  function SuiteLoader(files: Files, libDir: string): Json -> Result<Object> {
    x => LoadedSuite(files, libDir, x)
  }

  /** The update fold of the resource files is the general fold with the
      resource loader. */
  lemma {:induction false} SuitesAfterIsUpdatedBy(files: Files, libDir: string, names: seq<Json>)
    ensures SuitesAfter(files, libDir, names) == UpdatedBy(names, SuiteLoader(files, libDir))
    decreases |names|
  {
    if names != [] {
      SuitesAfterIsUpdatedBy(files, libDir, names[..|names| - 1]);
    }
  }

  /** One more file: the update succeeds when the shorter one and the new
      load do, and the new dict's entries win. */
  lemma UpdatedByStep(xs: seq<Json>, load: Json -> Result<Object>)
    requires xs != [] && UpdatedBy(xs, load).Ok?
    ensures UpdatedBy(xs[..|xs| - 1], load).Ok? && load(xs[|xs| - 1]).Ok?
    ensures UpdatedBy(xs, load).value == UpdatedBy(xs[..|xs| - 1], load).value + load(xs[|xs| - 1]).value
  {
  }

  /** A successful update loaded every file successfully. */
  lemma {:induction false} UpdatedByAllOk(xs: seq<Json>, load: Json -> Result<Object>, j: int)
    requires UpdatedBy(xs, load).Ok? && 0 <= j < |xs|
    ensures load(xs[j]).Ok?
    decreases |xs|
  {
    UpdatedByStep(xs, load);
    if j < |xs| - 1 {
      UpdatedByAllOk(xs[..|xs| - 1], load, j);
    }
  }

  /** A key is present after the update exactly when some loaded dict has
      it. */
  lemma {:induction false} UpdatedByKeys(xs: seq<Json>, load: Json -> Result<Object>, k: string)
    requires UpdatedBy(xs, load).Ok?
    ensures forall j :: 0 <= j < |xs| ==> load(xs[j]).Ok?
    ensures k in UpdatedBy(xs, load).value <==> exists j :: 0 <= j < |xs| && k in load(xs[j]).value
    decreases |xs|
  {
    forall j | 0 <= j < |xs| ensures load(xs[j]).Ok? {
      UpdatedByAllOk(xs, load, j);
    }
    if xs != [] {
      var n := |xs| - 1;
      var init := xs[..n];
      UpdatedByStep(xs, load);
      UpdatedByKeys(init, load, k);
      if k in UpdatedBy(xs, load).value {
        if k in load(xs[n]).value {
          assert 0 <= n < |xs|;
        } else {
          var j :| 0 <= j < |init| && k in load(init[j]).value;
          assert init[j] == xs[j];
        }
      }
      if exists j :: 0 <= j < |xs| && k in load(xs[j]).value {
        var j :| 0 <= j < |xs| && k in load(xs[j]).value;
        if j < n {
          assert init[j] == xs[j];
        }
      }
    }
  }

  /** The value of a key after the update is that of the last loaded dict
      that has it. */
  lemma {:induction false} UpdatedByLast(xs: seq<Json>, load: Json -> Result<Object>, k: string, j: int)
    requires UpdatedBy(xs, load).Ok? && 0 <= j < |xs|
    requires load(xs[j]).Ok? && k in load(xs[j]).value
    requires forall l :: j < l < |xs| ==> load(xs[l]).Ok? && k !in load(xs[l]).value
    ensures k in UpdatedBy(xs, load).value && UpdatedBy(xs, load).value[k] == load(xs[j]).value[k]
    decreases |xs|
  {
    var n := |xs| - 1;
    var init := xs[..n];
    UpdatedByStep(xs, load);
    if j < n {
      assert init[j] == xs[j];
      forall l | j < l < |init| ensures load(init[l]).Ok? && k !in load(init[l]).value {
        assert init[l] == xs[l];
      }
      UpdatedByLast(init, load, k, j);
      assert k !in load(xs[n]).value;
    }
  }

  /** For any loader: when the update succeeds, a key is present exactly
      when some loaded dict has it, and it holds the value of the last one
      that does. */
  lemma UpdatedByLastWins(xs: seq<Json>, load: Json -> Result<Object>, k: string)
    requires UpdatedBy(xs, load).Ok?
    ensures forall j :: 0 <= j < |xs| ==> load(xs[j]).Ok?
    ensures k in UpdatedBy(xs, load).value <==> exists j :: 0 <= j < |xs| && k in load(xs[j]).value
    ensures forall j :: 0 <= j < |xs| && k in load(xs[j]).value
               && (forall l :: j < l < |xs| ==> k !in load(xs[l]).value)
               ==> UpdatedBy(xs, load).value[k] == load(xs[j]).value[k]
  {
    UpdatedByKeys(xs, load, k);
    forall j | 0 <= j < |xs| && k in load(xs[j]).value && (forall l :: j < l < |xs| ==> k !in load(xs[l]).value)
      ensures UpdatedBy(xs, load).value[k] == load(xs[j]).value[k]
    {
      UpdatedByLast(xs, load, k, j);
    }
  }


  /** The list of resource files named by `resource_config.json`. */
  function SuiteFileNames(files: Files, libDir: string): Result<seq<Json>> {
    var index :- LoadData(files, ConfigsDir(libDir) + "/" + ResourceConfig, false);
    var d :- AsDict(index);
    Iterate(Get(d, "suites", JNull))
  }

  /** `get_resource_config()`. */
  function ResourceConfigSpec(files: Files, libDir: string): Result<Json> {
    var names :- SuiteFileNames(files, libDir);
    var suites :- SuitesAfter(files, libDir, names);
    Ok(JObj(map["suites" := JObj(suites)]))
  }

  /** Once a prefix of the files fails, the whole update fails the same way. */
  lemma {:induction false} SuitesPrefixError(files: Files, libDir: string, names: seq<Json>, i: nat)
    requires i <= |names|
    requires SuitesAfter(files, libDir, names[..i]).Err?
    ensures SuitesAfter(files, libDir, names) == SuitesAfter(files, libDir, names[..i])
    decreases |names| - i
  {
    if i < |names| {
      assert names[..i + 1][..i] == names[..i];
      SuitesPrefixError(files, libDir, names, i + 1);
    } else {
      assert names[..i] == names;
    }
  }

  /** `get_resource_config()`: the union of the listed resource files, in
      the order they are listed. */
  method GetResourceConfig(files: Files, libDir: string) returns (r: Result<Json>)
    ensures r == ResourceConfigSpec(files, libDir)
  {
    var listed := SuiteFileNames(files, libDir);
    if listed.Err? {
      return Err(listed.error);
    }
    var names := listed.value;
    var suites: Object := map[];
    var i := 0;
    while i < |names|
      invariant 0 <= i <= |names|
      invariant SuitesAfter(files, libDir, names[..i]) == Ok(suites)
    {
      assert names[..i + 1][..i] == names[..i];
      var more := LoadedSuite(files, libDir, names[i]);
      if more.Err? {
        SuitesPrefixError(files, libDir, names, i + 1);
        return Err(more.error);
      }
      suites := suites + more.value;
      i := i + 1;
    }
    assert names[..i] == names;
    r := Ok(JObj(map["suites" := JObj(suites)]));
  }

  /** When the update succeeds, a suite is configured exactly when some
      listed file defines it, and it holds the definition of the last file
      that does. */
  lemma SuitesLastWins(files: Files, libDir: string, names: seq<Json>, k: string)
    requires SuitesAfter(files, libDir, names).Ok?
    ensures forall j :: 0 <= j < |names| ==> LoadedSuite(files, libDir, names[j]).Ok?
    ensures k in SuitesAfter(files, libDir, names).value <==>
              exists j :: 0 <= j < |names| && k in LoadedSuite(files, libDir, names[j]).value
    ensures forall j :: 0 <= j < |names| && k in LoadedSuite(files, libDir, names[j]).value
               && (forall l :: j < l < |names| ==> k !in LoadedSuite(files, libDir, names[l]).value)
               ==> SuitesAfter(files, libDir, names).value[k] == LoadedSuite(files, libDir, names[j]).value[k]
  {
    SuitesAfterIsUpdatedBy(files, libDir, names);
    UpdatedByLastWins(names, SuiteLoader(files, libDir), k);
  }


  /** A dict that stands for a Python `dict` object updated in place. */
  class PyDict {
    var items: map<string, Json>

    constructor (items: map<string, Json>)
      ensures this.items == items
    {
      this.items := items;
    }
  }

  /** The normalised environment name: `+` removed, lower case, and the
      bare `n` spelled `n0`. */
  function NormaliseEnv(env: string): (r: string)
    ensures '+' !in r
    ensures forall i :: 0 <= i < |r| ==> !('A' <= r[i] <= 'Z')
  {
    var noPlus := Replace(env, "+", "");
    var lower := Lower(noPlus);
    RemoveChar(env, '+', '+');
    LowerKeeps(noPlus, '+');
    if lower == "n" then "n0" else lower
  }

  /** `format_env(args_dict)` as a function of the dict's contents. A truthy
      environment that is not a string has no `replace`. */
  function FormattedEnv(m: Object): (r: Result<Object>)
  {
    var env := Get(m, "environment", JNull);
    if !Truthy(env) then Ok(m)
    else if !env.JStr? then Err(AttributeError)
    else Ok(m["environment" := JStr(NormaliseEnv(env.s))])
  }

  /** Normalising an already normalised name changes nothing. */
  lemma NormaliseEnvIdempotent(env: string)
    ensures NormaliseEnv(NormaliseEnv(env)) == NormaliseEnv(env)
  {
    var e := NormaliseEnv(env);
    CharSubstring(e, '+');
    ReplaceAbsent(e, "+", "");
    assert Lower(e) == e;
    if e == "n0" {
      assert Replace("n0", "+", "") == "n0";
      assert Lower("n0") == "n0";
    }
  }

  /** Formatting the arguments twice is formatting them once; only the
      environment entry changes, and a formatted environment is lower case
      without `+`. */
  lemma FormattedEnvIdempotent(m: Object)
    requires FormattedEnv(m).Ok?
    ensures FormattedEnv(FormattedEnv(m).value) == FormattedEnv(m)
    ensures FormattedEnv(m).value.Keys == m.Keys
    ensures forall k :: k in m && k != "environment" ==> FormattedEnv(m).value[k] == m[k]
  {
    var env := Get(m, "environment", JNull);
    if Truthy(env) {
      var e := NormaliseEnv(env.s);
      NormaliseEnvIdempotent(env.s);
      if e != [] {
        assert FormattedEnv(FormattedEnv(m).value) == Ok(m["environment" := JStr(e)]["environment" := JStr(e)]);
        assert m["environment" := JStr(e)]["environment" := JStr(e)] == m["environment" := JStr(e)];
      }
    }
  }

  /** `format_env(args_dict)`: normalises the environment in place and
      returns the same dict. */
  method FormatEnv(args: PyDict) returns (r: Result<PyDict>)
    modifies args
    ensures FormattedEnv(old(args.items)).Ok? ==> r == Ok(args) && args.items == FormattedEnv(old(args.items)).value
    ensures FormattedEnv(old(args.items)).Err? ==> r == Err(FormattedEnv(old(args.items)).error) && args.items == old(args.items)
  {
    var env := Get(args.items, "environment", JNull);
    if Truthy(env) {
      if !env.JStr? {
        return Err(AttributeError);
      }
      var lowered := Lower(Replace(env.s, "+", ""));
      var normalised := if lowered == "n" then lowered + "0" else lowered;
      assert lowered == "n" ==> normalised == "n0";
      args.items := args.items["environment" := JStr(normalised)];
    }
    r := Ok(args);
  }

  /** The message that opens a formatted response: the caller's, or a default
      when none (or an empty one) is given. */
  function Heading(message: Option<string>): string {
    if message.Some? && message.value != [] then message.value else "Error Message:"
  }

  /** The six lines of `format_response`, with `render` standing for `str()`
      of a response field. */
  function ResponseLines(response: HttpResponse, message: Option<string>, render: Value -> string): Result<seq<string>> {
    if !(response.headers.J? && response.headers.json.JObj?) then Err(AttributeError)
    else
      var secId := Get(response.headers.json.fields, "sec-id", JStr(""));
      Ok([Heading(message),
          "Status Code: " + render(response.status),
          "URL: " + render(response.url),
          "sec-id: " + render(J(secId)),
          "x-txid: " + render(response.transactionId),
          "Data: " + render(response.data)])
  }

  /** `format_response(response, message)`. The header lookup needs a dict. */
  function FormatResponse(response: HttpResponse, message: Option<string>, render: Value -> string): (r: Result<string>)
    ensures r.Ok? <==> response.headers.J? && response.headers.json.JObj?
    ensures r.Ok? ==> StartsWith(r.value, Heading(message) + "\nStatus Code: ")
  {
    var lines :- ResponseLines(response, message, render);
    assert StartsWith(lines[1], "Status Code: ");
    JoinPrefix(lines, '\n', "Status Code: ");
    assert Heading(message) + "\nStatus Code: " == lines[0] + ['\n'] + "Status Code: ";
    Ok(Join(lines, '\n'))
  }

  /** When no field renders with a line break, the message splits back into
      its six lines, each field on its own line. */
  lemma FormatResponseLines(response: HttpResponse, message: Option<string>, render: Value -> string)
    requires ResponseLines(response, message, render).Ok?
    requires forall l :: l in ResponseLines(response, message, render).value ==> '\n' !in l
    ensures FormatResponse(response, message, render).Ok?
    ensures Split(FormatResponse(response, message, render).value, '\n') == ResponseLines(response, message, render).value
  {
    SplitJoin(ResponseLines(response, message, render).value, '\n');
  }

  /** A failed transport call formats with an empty `sec-id`, the server
      error status and an empty transaction id. */
  lemma FormatTransportError(endpoint: EndPoint, message: string, render: Value -> string)
    ensures ResponseLines(TransportErrorResponse(endpoint, message), None, render)
         == Ok(["Error Message:",
                "Status Code: " + render(J(JStr(ServerErrorStatus))),
                "URL: " + render(J(endpoint.uri)),
                "sec-id: " + render(J(JStr(""))),
                "x-txid: " + render(J(JStr(NoValue))),
                "Data: " + render(J(JStr(NoValue)))])
  {
  }
}
