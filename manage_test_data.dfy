/** Test data: a JSON file per test module holding `args`, `params`,
    `headers`, `data`, `json` and `expected_response`, plus sections named
    after environments that override them. `env_test_data` folds the section
    of the current environment into the top level, one level deep. The parsed
    command line supplies the environment and an optional test-data file. */
module ManageTestData {
  import opened Outcomes
  import opened JsonValue
  import opened PyStrings
  import Utils

  const TestDataDir: string := "../test_data"

  const InvalidFileMessage: string := "Invalid test_data file name, provide valid json file"
  const MissingTestDataMessage: string := "test_data is missing, pass valid test_data"

  function TestDataPath(libDir: string, name: string): string {
    libDir + "/" + TestDataDir + "/" + name
  }

  /** `get_test_data(test_data_file, env)`: the file under the test-data
      directory, or only its `env` section when an environment is given. */
  function GetTestData(files: Utils.Files, libDir: string, file: Json, env: Json): (r: Result<Json>)
    ensures Text(file).Err? ==> r == Err(Text(file).error)
    ensures (Text(file).Ok? && !Truthy(env)) ==> r == Utils.LoadData(files, TestDataPath(libDir, Text(file).value), false)
    ensures Text(file).Ok? && Truthy(env) ==>
              var loaded := Utils.LoadData(files, TestDataPath(libDir, Text(file).value), false);
              (loaded.Err? ==> r == loaded)
              && (loaded.Ok? ==> (r.Ok? <==> loaded.value.JObj? && Hashable(env)))
              && (r.Ok? && env.JStr? ==> r.value == Get(loaded.value.fields, env.s, Empty))
              && (r.Ok? && !env.JStr? ==> r.value == Empty)
  {
    var name :- Text(file);
    var loaded :- Utils.LoadData(files, TestDataPath(libDir, name), false);
    if Truthy(env) then
      var d :- AsDict(loaded);
      GetByValue(d, env, Empty)
    else Ok(loaded)
  }

  /** The environment's overrides: the section under the exact name merged
      with the section under the upper-cased name, the latter winning. */
  function EnvSection(data: Object, env: string): (r: Result<Object>)
    ensures r.Ok? <==> Get(data, env, Empty).JObj? && Get(data, Upper(env), Empty).JObj?
  {
    var exact :- Unpack(Get(data, env, Empty));
    var upper :- Unpack(Get(data, Upper(env), Empty));
    Ok(exact + upper)
  }

  /** The upper-cased section wins on a key both sections define; a key only
      one of them defines keeps that section's value. */
  lemma EnvSectionPrecedence(data: Object, env: string, k: string)
    requires EnvSection(data, env).Ok?
    ensures k in EnvSection(data, env).value <==>
              k in Get(data, env, Empty).fields || k in Get(data, Upper(env), Empty).fields
    ensures k in Get(data, Upper(env), Empty).fields ==>
              EnvSection(data, env).value[k] == Get(data, Upper(env), Empty).fields[k]
    ensures k in Get(data, env, Empty).fields && k !in Get(data, Upper(env), Empty).fields ==>
              EnvSection(data, env).value[k] == Get(data, env, Empty).fields[k]
  {
  }

  /** Folding the key `k` of the section fails when the section holds a
      mapping there but the base holds something that cannot be unpacked. */
  predicate EntryFails(base: Object, section: Object, k: string)
    requires k in section
  {
    section[k].JObj? && k in base && !base[k].JObj?
  }

  predicate OverlayFails(base: Object, section: Object) {
    exists k :: k in section && EntryFails(base, section, k)
  }

  /** The folded value at a key of the section: a mapping is merged over the
      base mapping at that key, anything else replaces it. */
  function OverlayEntry(base: Object, section: Object, k: string): Json
    requires k in section && !EntryFails(base, section, k)
  {
    if section[k].JObj? then JObj(Get(base, k, Empty).fields + section[k].fields) else section[k]
  }

  /** The test data with the environment section folded in. */
  function Overlay(base: Object, section: Object): Result<Object> {
    if OverlayFails(base, section) then Err(TypeError)
    else Ok(map k | k in base.Keys + section.Keys ::
              if k in section then OverlayEntry(base, section, k) else base[k])
  }

  /** The loop of `env_test_data` that writes each key of the environment
      section into the test data. */
  method FoldEnvSection(base: Object, section: Object) returns (r: Result<Object>)
    ensures r == Overlay(base, section)
  {
    var data := base;
    var remaining := section.Keys;
    while remaining != {}
      invariant FoldedSoFar(base, section, remaining, data)
      decreases remaining
    {
      var k :| k in remaining;
      var next := FoldEntry(base, section, remaining, data, k);
      if next.Err? {
        assert OverlayFails(base, section);
        return next;
      }
      data := next.value;
      remaining := remaining - {k};
    }
    FoldedAll(base, section, data);
    r := Ok(data);
  }

  /** The state of the loop while the keys in `remaining` are still to be
      written: every key written so far could be folded, and the data holds
      the folded value at those keys and the base value elsewhere. */
  predicate FoldedSoFar(base: Object, section: Object, remaining: set<string>, data: Object) {
    remaining <= section.Keys
    && (forall k :: k in section && k !in remaining ==> !EntryFails(base, section, k))
    && data.Keys == base.Keys + (section.Keys - remaining)
    && forall k :: k in data ==>
         data[k] == if k in section && k !in remaining then OverlayEntry(base, section, k) else base[k]
  }

  /** One turn of the loop: the key `k` of the section is written into the
      data, merged over a mapping already there. */
  method FoldEntry(base: Object, section: Object, remaining: set<string>, data: Object, k: string) returns (r: Result<Object>)
    requires FoldedSoFar(base, section, remaining, data) && k in remaining
    ensures r.Ok? ==> FoldedSoFar(base, section, remaining - {k}, r.value)
    ensures r.Err? ==> r == Err(TypeError) && EntryFails(base, section, k)
  {
    var v := section[k];
    if v.JObj? {
      var current := Get(data, k, Empty);
      if !current.JObj? {
        return Err(TypeError);
      }
      return Ok(data[k := JObj(current.fields + v.fields)]);
    }
    return Ok(data[k := v]);
  }

  /** Once every key is written, the data is the folded test data. */
  lemma FoldedAll(base: Object, section: Object, data: Object)
    requires FoldedSoFar(base, section, {}, data)
    ensures Overlay(base, section) == Ok(data)
  {
    assert !OverlayFails(base, section);
    var folded := Overlay(base, section).value;
    assert folded.Keys == data.Keys;
    forall k | k in data ensures data[k] == folded[k] {
    }
    assert folded == data;
  }

  /** Folding fails exactly when the section holds a mapping at a key whose
      base value is present and is not a mapping. */
  lemma OverlayFailure(base: Object, section: Object)
    ensures Overlay(base, section).Err? <==>
              exists k :: k in section && section[k].JObj? && k in base && !base[k].JObj?
  {
  }

  /** What the folded test data holds: every key of both; a mapping in the
      section is merged one level deep over the base mapping, the section
      winning; any other section value replaces the base value; a key the
      section does not mention is unchanged. */
  lemma OverlayContents(base: Object, section: Object, k: string)
    requires Overlay(base, section).Ok?
    ensures k in Overlay(base, section).value <==> k in base || k in section
    ensures k in section && !section[k].JObj? ==> Overlay(base, section).value[k] == section[k]
    ensures k !in section && k in base ==> Overlay(base, section).value[k] == base[k]
    ensures k in section && section[k].JObj? ==>
              var r := Overlay(base, section).value[k];
              r.JObj? && forall j :: (j in r.fields <==> j in section[k].fields || (k in base && j in base[k].fields))
    ensures k in section && section[k].JObj? ==>
              forall j :: j in section[k].fields ==> Overlay(base, section).value[k].fields[j] == section[k].fields[j]
    ensures k in section && section[k].JObj? && k in base ==>
              forall j :: j in base[k].fields && j !in section[k].fields ==>
                Overlay(base, section).value[k].fields[j] == base[k].fields[j]
  {
  }

  /** The returned data already has its overrides folded in: folding the
      same section again changes nothing. */
  lemma OverlayIdempotent(base: Object, section: Object)
    requires Overlay(base, section).Ok?
    ensures Overlay(Overlay(base, section).value, section) == Overlay(base, section)
  {
    var once := Overlay(base, section).value;
    forall k | k in section ensures !EntryFails(once, section, k) {
    }
    var twice := Overlay(once, section).value;
    forall k | k in once ensures twice[k] == once[k] {
      if k in section && section[k].JObj? {
        var b := Get(base, k, Empty).fields;
        var e := section[k].fields;
        assert once[k] == JObj(b + e);
        assert twice[k] == JObj((b + e) + e);
        assert (b + e) + e == b + e;
      }
    }
    assert twice == once;
  }

  /** `env_test_data(test_data_file)` with the parsed command line's
      `environment` and `test_data`: the file is looked up under the
      test-data directory, it must be named `.json`, a file that gives no
      data there is read from the name as a full path, and the environment
      section is folded in. */
  function EnvTestDataSpec(files: Utils.Files, libDir: string, env: string, extTestData: Json, file: Json): Result<Object> {
    var tdFile := if Truthy(extTestData) then extTestData else file;
    var first :- GetTestData(files, libDir, tdFile, JNull);
    var named :- In(JStr(".json"), tdFile);
    if !named then Err(AssertionError(InvalidFileMessage))
    else
      var loaded :- if Truthy(first) then Ok(first) else FullPathData(files, tdFile);
      var data :- AsDict(loaded);
      var section :- EnvSection(data, env);
      Overlay(data, section)
  }

  /** `load_data(name)` with the name itself as the path; only a string can
      name a file. */
  function FullPathData(files: Utils.Files, name: Json): Result<Json> {
    if name.JStr? then Utils.LoadData(files, name.s, false) else Err(TypeError)
  }

  /** `env_test_data`. */
  method EnvTestData(files: Utils.Files, libDir: string, env: string, extTestData: Json, file: Json)
    returns (r: Result<Object>)
    ensures r == EnvTestDataSpec(files, libDir, env, extTestData, file)
  {
    var tdFile := if Truthy(extTestData) then extTestData else file;
    var first := GetTestData(files, libDir, tdFile, JNull);
    if first.Err? {
      return Err(first.error);
    }
    var named := In(JStr(".json"), tdFile);
    if named.Err? {
      return Err(named.error);
    }
    if !named.value {
      return Err(AssertionError(InvalidFileMessage));
    }
    var loaded := first;
    if !Truthy(first.value) {
      loaded := FullPathData(files, tdFile);
    }
    if loaded.Err? {
      return Err(loaded.error);
    }
    var data := AsDict(loaded.value);
    if data.Err? {
      return Err(data.error);
    }
    var section := EnvSection(data.value, env);
    if section.Err? {
      return Err(section.error);
    }
    r := FoldEnvSection(data.value, section.value);
  }

  /** The file the command line names takes precedence over the one the
      decorator names: whatever the decorator names, the result is that of
      the command-line file alone. */
  lemma EnvTestDataFileChoice(files: Utils.Files, libDir: string, env: string, ext: string, file: Json)
    requires ext != []
    ensures EnvTestDataSpec(files, libDir, env, JStr(ext), file) == EnvTestDataSpec(files, libDir, env, JNull, JStr(ext))
  {
  }

  /** A name without `.json` fails the assertion. */
  lemma EnvTestDataNeedsJson(files: Utils.Files, libDir: string, env: string, ext: string, file: Json)
    requires ext != [] && !IsSubstring(".json", ext)
    requires TestDataPath(libDir, ext) !in files
    ensures EnvTestDataSpec(files, libDir, env, JStr(ext), file) == Err(AssertionError(InvalidFileMessage))
  {
  }

  /** A file found empty under the test-data directory is read from the
      given name as a full path. */
  lemma EnvTestDataFullPath(files: Utils.Files, libDir: string, env: string, name: string, data: Object)
    requires IsSubstring(".json", name)
    requires TestDataPath(libDir, name) !in files
    requires name in files && files[name] == Utils.Parsed(JObj(data))
    ensures EnvTestDataSpec(files, libDir, env, JNull, JStr(name))
         == (var section :- EnvSection(data, env); Overlay(data, section))
  {
  }

  /** The documented example: with `{"args": {"x": 1}, "dev": {"args":
      {"x": 2, "y": 3}}}` and environment `dev`, the folded `args` is
      `{"x": 2, "y": 3}` and the `dev` section stays in place. */
  lemma EnvOverlayExample()
    ensures var dev := map["args" := JObj(map["x" := JInt(2), "y" := JInt(3)])];
      var data := map["args" := JObj(map["x" := JInt(1)]), "dev" := JObj(dev)];
      EnvSection(data, "dev") == Ok(dev)
      && Overlay(data, dev) == Ok(map["args" := JObj(map["x" := JInt(2), "y" := JInt(3)]), "dev" := JObj(dev)])
  {
    var dev := map["args" := JObj(map["x" := JInt(2), "y" := JInt(3)])];
    var data := map["args" := JObj(map["x" := JInt(1)]), "dev" := JObj(dev)];
    assert Upper("dev") == "DEV";
    assert "DEV" !in data;
    assert Get(data, "DEV", Empty) == Empty;
    assert dev + map[] == dev;
    assert EnvSection(data, "dev") == Ok(dev);
    assert !OverlayFails(data, dev);
    var r := Overlay(data, dev).value;
    assert r.Keys == {"args", "dev"};
    assert map["x" := JInt(1)] + map["x" := JInt(2), "y" := JInt(3)] == map["x" := JInt(2), "y" := JInt(3)];
    assert r["args"] == JObj(map["x" := JInt(2), "y" := JInt(3)]);
    assert r["dev"] == JObj(dev);
    assert r == map["args" := JObj(map["x" := JInt(2), "y" := JInt(3)]), "dev" := JObj(dev)];
  }

  /** The keyword arguments the `test_data` decorator passes on: the caller's,
      overridden by the folded test data. */
  function DecoratedKwargs(files: Utils.Files, libDir: string, env: string, extTestData: Json,
                           decKwargs: Object, kwargs: Object): (r: Result<Object>)
    ensures r.Ok? <==> EnvTestDataSpec(files, libDir, env, extTestData, Get(decKwargs, "file_name", JNull)).Ok?
    ensures r.Ok? ==> var data := EnvTestDataSpec(files, libDir, env, extTestData, Get(decKwargs, "file_name", JNull)).value;
      r.value.Keys == kwargs.Keys + data.Keys
      && (forall k :: k in data ==> r.value[k] == data[k])
      && (forall k :: k in kwargs && k !in data ==> r.value[k] == kwargs[k])
  {
    var data :- EnvTestDataSpec(files, libDir, env, extTestData, Get(decKwargs, "file_name", JNull));
    Ok(kwargs + data)
  }

  /** `get_expected_response(expected_res, env, **test_data)`: the common
      entry and the environment's entry, merged when both are mappings (the
      environment winning), else whichever is non-empty, the environment's
      first; nothing when neither is. */
  function GetExpectedResponse(expectedRes: string, env: Json, testData: Object): (r: Result<Option<Json>>)
    ensures testData == map[] ==> r == Err(AssertionError(MissingTestDataMessage))
    ensures r.Ok? ==> testData != map[]
  {
    if testData == map[] then Err(AssertionError(MissingTestDataMessage))
    else
      var common :- AsDict(Get(testData, "expected_response", Empty));
      var commonForAll := Get(common, expectedRes, Empty);
      var envData :- GetByValue(testData, env, Empty);
      var envDict :- AsDict(envData);
      var envExpected :- AsDict(Get(envDict, "expected_response", Empty));
      var envRes := Get(envExpected, expectedRes, Empty);
      if commonForAll.JObj? && envRes.JObj? then Ok(Some(JObj(commonForAll.fields + envRes.fields)))
      else if Truthy(envRes) then Ok(Some(envRes))
      else if Truthy(commonForAll) then Ok(Some(commonForAll))
      else Ok(None)
  }

  /** The expected response of the test data, by source. */
  function CommonExpected(testData: Object, expectedRes: string): Json {
    var c := Get(testData, "expected_response", Empty);
    if c.JObj? then Get(c.fields, expectedRes, Empty) else Empty
  }

  function EnvExpected(testData: Object, env: string, expectedRes: string): Json {
    var d := Get(testData, env, Empty);
    var e := if d.JObj? then Get(d.fields, "expected_response", Empty) else Empty;
    if e.JObj? then Get(e.fields, expectedRes, Empty) else Empty
  }

  /** The choice `get_expected_response` makes, for well-formed test data:
      both mappings are merged with the environment winning (so an entry
      absent from both gives an empty mapping), otherwise the non-empty
      environment entry, otherwise the non-empty common entry, otherwise
      nothing. */
  lemma ExpectedResponseChoice(expectedRes: string, env: string, testData: Object)
    requires testData != map[]
    requires Get(testData, "expected_response", Empty).JObj?
    requires Get(testData, env, Empty).JObj?
    requires Get(Get(testData, env, Empty).fields, "expected_response", Empty).JObj?
    ensures var c := CommonExpected(testData, expectedRes);
      var e := EnvExpected(testData, env, expectedRes);
      GetExpectedResponse(expectedRes, JStr(env), testData)
      == Ok(if c.JObj? && e.JObj? then Some(JObj(c.fields + e.fields))
            else if Truthy(e) then Some(e)
            else if Truthy(c) then Some(c)
            else None)
  {
  }

  /** An entry absent everywhere still gives an (empty) mapping, never
      nothing, because both lookups default to an empty mapping. */
  lemma ExpectedResponseAbsent(expectedRes: string, env: string, testData: Object)
    requires testData != map[]
    requires Get(testData, "expected_response", Empty) == Empty
    requires env !in testData
    ensures GetExpectedResponse(expectedRes, JStr(env), testData) == Ok(Some(Empty))
  {
  }
}
