/** The suite configuration: the command-line arguments, the endpoint
    catalogue of every suite (`suites`, from the resource configuration, each
    suite enriched with its environment's default data), the environment, and
    the `run_tests` entries of the suites selected on the command line. */
module TestSuiteConfig {
  import opened Outcomes
  import opened JsonValue
  import opened PyStrings
  import Utils

  const DataDir: string := "../test_data/default"
  const SuiteDir: string := "../suite"

  /** `_parse_selected_suites(args_dict)`: the comma-separated `suite`
      argument, or no suites when it is missing or empty. */
  function ParseSelectedSuites(args: Object): (r: Result<seq<string>>)
    ensures !Truthy(Get(args, "suite", JNull)) ==> r == Ok([])
    ensures r.Ok? && Truthy(Get(args, "suite", JNull)) ==>
              Text(Get(args, "suite", JNull)).Ok? && |r.value| >= 1 && Join(r.value, ',') == Text(Get(args, "suite", JNull)).value
    ensures r.Ok? ==> forall name :: name in r.value ==> ',' !in name
  {
    var suites := Get(args, "suite", JNull);
    if !Truthy(suites) then Ok([])
    else
      var text :- Text(suites);
      JoinSplit(text, ',');
      Ok(Split(text, ','))
  }

  /** Names joined with commas are parsed back into the same names. */
  lemma ParseSelectedSuitesRoundTrip(args: Object, names: seq<string>)
    requires |names| >= 1 && forall name :: name in names ==> ',' !in name
    requires Join(names, ',') != []
    requires Get(args, "suite", JNull) == JStr(Join(names, ','))
    ensures ParseSelectedSuites(args) == Ok(names)
  {
    var text := Join(names, ',');
    assert Truthy(JStr(text)) && Text(JStr(text)) == Ok(text);
    SplitJoin(names, ',');
    assert Split(text, ',') == names;
  }

  /** The run file of a suite: `.json` is appended unless the name already
      contains it. */
  function SuiteFileName(name: string): (r: string)
    ensures IsSubstring(".json", r)
    ensures IsSubstring(".json", name) ==> r == name
    ensures !IsSubstring(".json", name) ==> r == name + ".json"
  {
    if IsSubstring(".json", name) then name
    else
      assert OccursAt(".json", name + ".json", |name|);
      name + ".json"
  }

  function SuitePath(libDir: string, name: string): string {
    libDir + "/" + SuiteDir + "/" + SuiteFileName(name)
  }

  /** The `run_tests` entries one selected suite contributes; a file without
      `run_tests` contributes none. */
  function SuiteRunTests(files: Utils.Files, libDir: string, name: string): Result<seq<Json>> {
    var loaded :- Utils.LoadData(files, SuitePath(libDir, name), true);
    var d :- AsDict(loaded);
    Iterate(Get(d, "run_tests", JArr([])))
  }

  /** A suite whose run file does not exist contributes nothing, unless its
      path names the authentication file, which ends the process. */
  lemma MissingSuiteFile(files: Utils.Files, libDir: string, name: string)
    requires SuitePath(libDir, name) !in files
    ensures !IsSubstring(Utils.AuthConfig, SuitePath(libDir, name)) ==> SuiteRunTests(files, libDir, name) == Ok([])
    ensures IsSubstring(Utils.AuthConfig, SuitePath(libDir, name)) ==> SuiteRunTests(files, libDir, name) == Err(Exit(1))
  {
  }

  /** The suite named `auth` reads `auth.json`: when it is missing the
      process ends. */
  lemma AuthSuiteExits(files: Utils.Files, libDir: string)
    requires SuitePath(libDir, "auth") !in files
    ensures SuiteRunTests(files, libDir, "auth") == Err(Exit(1))
  {
    var p := SuitePath(libDir, "auth");
    assert !IsSubstring(".json", "auth");
    assert p == libDir + "/" + SuiteDir + "/" + "auth.json";
    assert OccursAt(Utils.AuthConfig, p, |p| - 9);
  }

  /** The entries of a list of suites, each loaded by `load`, in suite
      order; the first suite that fails to load is the error. */
  function Concatenated(names: seq<string>, load: string -> Result<seq<Json>>): Result<seq<Json>>
    decreases |names|
  {
    if names == [] then Ok([])
    else
      var init := Concatenated(names[..|names| - 1], load);
      var more := load(names[|names| - 1]);
      if init.Err? then init
      else if more.Err? then more
      else Ok(init.value + more.value)
  }

  /** The `run_tests` entries of the selected suites, in suite order. */
  function RunTestsOf(files: Utils.Files, libDir: string, names: seq<string>): Result<seq<Json>> {
    Concatenated(names, name => SuiteRunTests(files, libDir, name))
  }

  /** One more suite at the end. */
  lemma RunTestsSnoc(files: Utils.Files, libDir: string, names: seq<string>, last: string)
    ensures var init := RunTestsOf(files, libDir, names);
      var more := SuiteRunTests(files, libDir, last);
      RunTestsOf(files, libDir, names + [last])
      == if init.Err? then init else if more.Err? then more else Ok(init.value + more.value)
  {
    assert (names + [last])[..|names|] == names;
  }

  /** Concatenating the entries of two lists of suites, whatever loads them. */
  lemma {:induction false} ConcatenatedAppend(a: seq<string>, b: seq<string>, load: string -> Result<seq<Json>>)
    requires Concatenated(a, load).Ok? && Concatenated(b, load).Ok?
    ensures Concatenated(a + b, load) == Ok(Concatenated(a, load).value + Concatenated(b, load).value)
    decreases |b|
  {
    if b == [] {
      assert a + b == a;
      assert Concatenated(a, load).value + [] == Concatenated(a, load).value;
    } else {
      var n := |b| - 1;
      var init, last := b[..n], b[n];
      assert b == init + [last];
      ConcatAssoc(a, init, [last]);
      assert (a + b)[..|a + b| - 1] == a + init;
      ConcatenatedAppend(a, init, load);
      ConcatAssoc(Concatenated(a, load).value, Concatenated(init, load).value, load(last).value);
    }
  }

  /** Selecting two lists of suites one after the other gives the
      concatenation of their entries; duplicates are kept. */
  lemma RunTestsConcat(files: Utils.Files, libDir: string, a: seq<string>, b: seq<string>)
    requires RunTestsOf(files, libDir, a).Ok? && RunTestsOf(files, libDir, b).Ok?
    ensures RunTestsOf(files, libDir, a + b) == Ok(RunTestsOf(files, libDir, a).value + RunTestsOf(files, libDir, b).value)
  {
    ConcatenatedAppend(a, b, name => SuiteRunTests(files, libDir, name));
  }

  /** A prefix of the suites that fails makes the whole list fail the same way. */
  lemma {:induction false} RunTestsPrefixError(files: Utils.Files, libDir: string, names: seq<string>, i: nat)
    requires i <= |names|
    requires RunTestsOf(files, libDir, names[..i]).Err?
    ensures RunTestsOf(files, libDir, names) == RunTestsOf(files, libDir, names[..i])
    decreases |names| - i
  {
    if i < |names| {
      assert names[..i + 1][..i] == names[..i];
      RunTestsPrefixError(files, libDir, names, i + 1);
    } else {
      assert names[..i] == names;
    }
  }

  /** The first path that contains `wanted`, as the first element of the
      filtered list. */
  function FirstMatch(paths: seq<string>, wanted: string): (r: Option<string>)
    ensures r.None? <==> forall i :: 0 <= i < |paths| ==> !IsSubstring(wanted, paths[i])
    ensures r.Some? ==> exists i :: 0 <= i < |paths| && paths[i] == r.value && IsSubstring(wanted, r.value)
                                    && forall j :: 0 <= j < i ==> !IsSubstring(wanted, paths[j])
  {
    if paths == [] then None
    else if IsSubstring(wanted, paths[0]) then Some(paths[0])
    else
      var r := FirstMatch(paths[1..], wanted);
      assert forall i :: 1 <= i < |paths| ==> paths[i] == paths[1..][i - 1];
      r
  }

  /** A suite's catalogue entry with its environment's default data merged
      over it, the file winning; no matching file leaves it unchanged. */
  function SuiteWithDefaults(files: Utils.Files, defaultFiles: seq<string>, suite: string, environment: Json, data: Json)
    : Result<Json>
  {
    var envText :- Text(environment);
    var match_ := FirstMatch(defaultFiles, suite + "_" + envText + ".json");
    var extra :- if match_.Some? then Utils.LoadData(files, match_.value, false) else Ok(Empty);
    var base :- Unpack(data);
    var over :- Unpack(extra);
    Ok(JObj(base + over))
  }

  /** Without a default-data file for the suite and environment, a suite
      entry that is a mapping is unchanged. */
  lemma SuiteWithoutDefaults(files: Utils.Files, defaultFiles: seq<string>, suite: string, env: string, data: Object)
    requires forall i :: 0 <= i < |defaultFiles| ==> !IsSubstring(suite + "_" + env + ".json", defaultFiles[i])
    ensures SuiteWithDefaults(files, defaultFiles, suite, JStr(env), JObj(data)) == Ok(JObj(data))
  {
    assert data + map[] == data;
  }

  /** With default data, the file's keys win and the catalogue keeps the rest. */
  lemma SuiteDefaultsWin(files: Utils.Files, defaultFiles: seq<string>, suite: string, env: string, data: Object, k: string)
    requires SuiteWithDefaults(files, defaultFiles, suite, JStr(env), JObj(data)).Ok?
    ensures var r := SuiteWithDefaults(files, defaultFiles, suite, JStr(env), JObj(data)).value;
      var m := FirstMatch(defaultFiles, suite + "_" + env + ".json");
      r.JObj? && (m.Some? && m.value in files && files[m.value].Parsed? && files[m.value].json.JObj? ==>
        (k in files[m.value].json.fields ==> k in r.fields && r.fields[k] == files[m.value].json.fields[k])
        && (k !in files[m.value].json.fields && k in data ==> k in r.fields && r.fields[k] == data[k]))
  {
  }

  function Args(commandArgs: Object, cliArgs: Object): Object {
    if commandArgs != map[] then commandArgs else cliArgs
  }

  /** The configuration before the suites get their default data: the
      arguments, then the resource configuration, then `environment`, then
      `run_tests`. */
  function BaseConfig(files: Utils.Files, libDir: string, args: Object): Result<Object> {
    var resource :- Utils.ResourceConfigSpec(files, libDir);
    var resourceDict :- Unpack(resource);
    var names :- ParseSelectedSuites(args);
    var runTests :- RunTestsOf(files, libDir, names);
    Ok((args + resourceDict)["environment" := Get(args, "environment", JNull)]["run_tests" := JArr(runTests)])
  }

  /** The catalogue of a successfully built base configuration. */
  lemma BaseConfigSuites(files: Utils.Files, libDir: string, args: Object)
    requires BaseConfig(files, libDir, args).Ok?
    ensures "suites" in BaseConfig(files, libDir, args).value
    ensures BaseConfig(files, libDir, args).value["suites"] == JObj(Utils.SuitesAfter(files, libDir, Utils.SuiteFileNames(files, libDir).value).value)
  {
  }

  /** What `load_suite_config` may return. When every suite's defaults
      merge, the result is determined; otherwise it is the error of one of
      the failing suites (which one depends on the catalogue's order). */
  ghost predicate SuiteConfigOutcome(files: Utils.Files, libDir: string, defaultFiles: seq<string>,
                                     commandArgs: Object, cliArgs: Object, r: Result<Object>)
  {
    var args := Args(commandArgs, cliArgs);
    var env := Get(args, "environment", JNull);
    var b := BaseConfig(files, libDir, args);
    if b.Err? then r == Err(b.error)
    else if !("suites" in b.value && b.value["suites"].JObj?) then false
    else
      var suites := b.value["suites"].fields;
      if forall k :: k in suites ==> SuiteWithDefaults(files, defaultFiles, k, env, suites[k]).Ok?
      then r == Ok(b.value["suites" := JObj(map k | k in suites :: SuiteWithDefaults(files, defaultFiles, k, env, suites[k]).value)])
      else r.Err? && exists k :: k in suites && SuiteWithDefaults(files, defaultFiles, k, env, suites[k]) == Err(r.error)
  }

  /** The loop that extends `run_tests` with each selected suite's entries. */
  method CollectRunTests(files: Utils.Files, libDir: string, runSuites: seq<string>) returns (r: Result<seq<Json>>)
    ensures r == RunTestsOf(files, libDir, runSuites)
  {
    var runTests: seq<Json> := [];
    var i := 0;
    while i < |runSuites|
      invariant 0 <= i <= |runSuites|
      invariant RunTestsOf(files, libDir, runSuites[..i]) == Ok(runTests)
    {
      var next := CollectSuiteAt(files, libDir, runSuites, i, runTests);
      if next.Err? {
        RunTestsPrefixError(files, libDir, runSuites, i + 1);
        return next;
      }
      runTests := next.value;
      i := i + 1;
    }
    assert runSuites[..i] == runSuites;
    r := Ok(runTests);
  }

  /** One iteration of that loop: the entries of the next suite appended. */
  method CollectSuiteAt(files: Utils.Files, libDir: string, runSuites: seq<string>, i: nat, runTests: seq<Json>)
    returns (r: Result<seq<Json>>)
    requires i < |runSuites| && RunTestsOf(files, libDir, runSuites[..i]) == Ok(runTests)
    ensures r == RunTestsOf(files, libDir, runSuites[..i + 1])
  {
    assert runSuites[..i + 1] == runSuites[..i] + [runSuites[i]];
    RunTestsSnoc(files, libDir, runSuites[..i], runSuites[i]);
    var more := SuiteRunTests(files, libDir, runSuites[i]);
    if more.Err? {
      return Err(more.error);
    }
    r := Ok(runTests + more.value);
  }

  /** The loop that merges each suite's default data into its entry: the
      result when no suite fails, else the error of a suite that fails. */
  method AddSuiteDefaults(files: Utils.Files, defaultFiles: seq<string>, environment: Json, suites: Object)
    returns (r: Result<Object>)
    ensures (forall k :: k in suites ==> SuiteWithDefaults(files, defaultFiles, k, environment, suites[k]).Ok?) <==> r.Ok?
    ensures r.Ok? ==> r.value == map k | k in suites :: SuiteWithDefaults(files, defaultFiles, k, environment, suites[k]).value
    ensures r.Err? ==> exists k :: k in suites && SuiteWithDefaults(files, defaultFiles, k, environment, suites[k]) == Err(r.error)
  {
    var updated := suites;
    var remaining := suites.Keys;
    while remaining != {}
      invariant remaining <= suites.Keys
      invariant updated.Keys == suites.Keys
      invariant forall k :: k in suites && k !in remaining ==>
                  SuiteWithDefaults(files, defaultFiles, k, environment, suites[k]).Ok?
                  && updated[k] == SuiteWithDefaults(files, defaultFiles, k, environment, suites[k]).value
      decreases remaining
    {
      var suite :| suite in remaining;
      var merged := SuiteWithDefaults(files, defaultFiles, suite, environment, suites[suite]);
      if merged.Err? {
        return Err(merged.error);
      }
      updated := updated[suite := merged.value];
      remaining := remaining - {suite};
    }
    r := Ok(updated);
  }

  /** `load_suite_config(**command_args)` (the computation; the cache is
      `SuiteConfigResolver`). `cliArgs` are the parsed command-line
      arguments used when no arguments are passed, and `defaultFiles` the
      JSON files found under the default test-data directory, in the order
      the directory walk yields them. */
  method LoadSuiteConfig(files: Utils.Files, libDir: string, defaultFiles: seq<string>, commandArgs: Object, cliArgs: Object)
    returns (r: Result<Object>)
    ensures SuiteConfigOutcome(files, libDir, defaultFiles, commandArgs, cliArgs, r)
  {
    var args := if commandArgs != map[] then commandArgs else cliArgs;
    var environment := Get(args, "environment", JNull);
    var resource := Utils.GetResourceConfig(files, libDir);
    if resource.Err? {
      return Err(resource.error);
    }
    assert resource.value.JObj?;
    var overall := (args + resource.value.fields)["environment" := environment];
    var parsed := ParseSelectedSuites(args);
    if parsed.Err? {
      return Err(parsed.error);
    }
    var runTests := CollectRunTests(files, libDir, parsed.value);
    if runTests.Err? {
      return Err(runTests.error);
    }
    overall := overall["run_tests" := JArr(runTests.value)];
    assert BaseConfig(files, libDir, args) == Ok(overall);
    BaseConfigSuites(files, libDir, args);
    var suites := AddSuiteDefaults(files, defaultFiles, environment, overall["suites"].fields);
    if suites.Err? {
      return Err(suites.error);
    }
    r := Ok(overall["suites" := JObj(suites.value)]);
  }

  /** The layers of the configuration: `environment` is the argument's,
      `run_tests` the selected suites' entries, and every other argument is
      kept unless the resource configuration (`suites`) replaces it. */
  lemma ConfigLayers(files: Utils.Files, libDir: string, args: Object, k: string)
    requires BaseConfig(files, libDir, args).Ok?
    ensures BaseConfig(files, libDir, args).value["environment"] == Get(args, "environment", JNull)
    ensures BaseConfig(files, libDir, args).value["run_tests"]
         == JArr(RunTestsOf(files, libDir, ParseSelectedSuites(args).value).value)
    ensures k in args && k !in {"environment", "run_tests", "suites"} ==> BaseConfig(files, libDir, args).value[k] == args[k]
  {
  }

  /** Every argument value can be part of a cache key. */
  predicate HashableArgs(args: Object) {
    forall v :: v in args.Values ==> Hashable(v)
  }

  /** The memoised `load_suite_config`: a result is computed once per
      argument set and then returned from the cache. Arguments that cannot
      be hashed are refused, and a call that raises caches nothing. */
  /** Every cached configuration is what loading gives for its arguments. */
  ghost predicate CacheValid(files: Utils.Files, libDir: string, defaultFiles: seq<string>, cliArgs: Object,
                             cache: map<Object, Object>) {
    forall a :: a in cache ==> HashableArgs(a) && SuiteConfigOutcome(files, libDir, defaultFiles, a, cliArgs, Ok(cache[a]))
  }

  /** Caching one more loaded configuration keeps the cache valid. */
  lemma CacheValidExtend(files: Utils.Files, libDir: string, defaultFiles: seq<string>, cliArgs: Object,
                         cache: map<Object, Object>, args: Object, config: Object)
    requires CacheValid(files, libDir, defaultFiles, cliArgs, cache)
    requires HashableArgs(args) && SuiteConfigOutcome(files, libDir, defaultFiles, args, cliArgs, Ok(config))
    ensures CacheValid(files, libDir, defaultFiles, cliArgs, cache[args := config])
  {
    var after := cache[args := config];
    forall a | a in after
      ensures HashableArgs(a) && SuiteConfigOutcome(files, libDir, defaultFiles, a, cliArgs, Ok(after[a]))
    {
      if a != args {
        assert a in cache && after[a] == cache[a];
      }
    }
  }

  class SuiteConfigResolver {
    const files: Utils.Files
    const libDir: string
    const defaultFiles: seq<string>
    const cliArgs: Object
    var cache: map<Object, Object>

    ghost predicate Valid()
      reads this
    {
      CacheValid(files, libDir, defaultFiles, cliArgs, cache)
    }

    constructor (files: Utils.Files, libDir: string, defaultFiles: seq<string>, cliArgs: Object)
      ensures Valid()
      ensures this.files == files && this.libDir == libDir && this.defaultFiles == defaultFiles && this.cliArgs == cliArgs
      ensures cache == map[]
    {
      this.files := files;
      this.libDir := libDir;
      this.defaultFiles := defaultFiles;
      this.cliArgs := cliArgs;
      cache := map[];
    }

    method Resolve(commandArgs: Object) returns (r: Result<Object>)
      requires Valid()
      modifies this
      ensures Valid()
      ensures !HashableArgs(commandArgs) ==> r == Err(TypeError) && cache == old(cache)
      ensures HashableArgs(commandArgs) ==>
                SuiteConfigOutcome(files, libDir, defaultFiles, commandArgs, cliArgs, r)
      ensures commandArgs in old(cache) ==> r == Ok(old(cache)[commandArgs]) && cache == old(cache)
      ensures r.Ok? ==> commandArgs in cache && cache[commandArgs] == r.value
      ensures r.Err? ==> cache == old(cache)
      ensures forall a :: a in old(cache) ==> a in cache && cache[a] == old(cache)[a]
    {
      if !HashableArgs(commandArgs) {
        return Err(TypeError);
      }
      if commandArgs in cache {
        return Ok(cache[commandArgs]);
      }
      r := LoadSuiteConfig(files, libDir, defaultFiles, commandArgs, cliArgs);
      if r.Ok? {
        CacheValidExtend(files, libDir, defaultFiles, cliArgs, cache, commandArgs, r.value);
        cache := cache[commandArgs := r.value];
      }
    }
  }
}
