/** The test-selection planner of the launcher: which test references end up
    in the suite that is run, from the `run_tests` entries of the suite
    configuration, from an explicit list, or in search mode. Discovery is
    given as data: the test files found under the `test` directory and the
    test-case classes they define, each with its test methods in the order
    the loader lists them. Importing, running and printing are not modelled. */
module TestLauncher {
  import opened Outcomes
  import opened JsonValue
  import opened PyStrings
  import Logger

  /** A test-case class as discovery sees it. */
  datatype TestClass = TestClass(moduleName: string, name: string, methods: seq<string>)

  /** The fully qualified reference `module.Class.method`. */
  function TestRef(c: TestClass, testMethod: string): string {
    c.moduleName + "." + c.name + "." + testMethod
  }

  /** Every test of a class, as the loader lists them. */
  function AllTests(c: TestClass): (r: seq<string>)
    ensures |r| == |c.methods|
    ensures forall i :: 0 <= i < |r| ==> r[i] == TestRef(c, c.methods[i])
  {
    seq(|c.methods|, i requires 0 <= i < |c.methods| => TestRef(c, c.methods[i]))
  }

  /** The suite being filled: an ordered list of test references. */
  class TestSuite {
    var tests: seq<string>

    constructor()
      ensures tests == []
    {
      tests := [];
    }

    /** `suite.addTest(...)`. */
    method AddTest(test: string)
      modifies this
      ensures tests == old(tests) + [test]
    {
      tests := tests + [test];
    }

    /** `suite.addTests(...)`. */
    method AddTests(more: seq<string>)
      modifies this
      ensures tests == old(tests) + more
    {
      tests := tests + more;
    }
  }

  // ---------------------------------------------------------------------
  // Module names and imports
  // ---------------------------------------------------------------------

  /** A test file's path with `.py` removed and both separators turned into `.`. */
  function DottedName(path: string): string {
    Replace(Replace(Replace(path, ".py", ""), "\\", "."), "/", ".")
  }

  /** The launcher turns backslashes into dots before slashes, the logger
      the other way round; the result is the same. */
  lemma DottedNameAsLogger(path: string)
    ensures DottedName(path) == Logger.DottedPath(path)
  {
    ReplaceToDotCommute(Replace(path, ".py", ""), '\\', '/');
  }

  /** The module name of a test file: the dotted path from just after the
      first `.test.`, or the whole dotted path when there is none. */
  function ModuleName(path: string): (r: string)
    ensures !IsSubstring(".test.", DottedName(path)) ==> r == DottedName(path)
    ensures IsSubstring(".test.", DottedName(path)) ==> StartsWith(r, "test.")
    ensures IsSubstring(".test.", DottedName(path)) ==> r == Logger.AfterMarker(DottedName(path), ".test.")
    ensures '/' !in r && '\\' !in r
  {
    var dotted := DottedName(path);
    DottedNameAsLogger(path);
    var i := Find(dotted, ".test.");
    if i == -1 then
      assert dotted[0..] == dotted;
      dotted
    else
      Logger.AfterMarkerStarts(dotted, ".test.");
      assert forall c :: c in dotted[i + 1..] ==> c in dotted;
      dotted[i + 1..]
  }

  /** With `.test.` in the path, the module name is the logger's source path. */
  lemma ModuleNameIsSourcePath(path: string)
    requires IsSubstring(".test.", DottedName(path))
    ensures ModuleName(path) == Logger.SourcePath(path)
  {
    DottedNameAsLogger(path);
  }

  /** A module is imported when there is no run list or the list names it. */
  predicate Selected(name: string, runModules: seq<Json>) {
    runModules == [] || JStr(name) in runModules
  }

  /** The modules `find_and_import_modules` imports, in file order. */
  function ImportedModules(files: seq<string>, runModules: seq<Json>): (r: seq<string>)
    ensures forall m :: m in r <==> exists f :: f in files && m == ModuleName(f) && Selected(m, runModules)
    decreases |files|
  {
    if files == [] then []
    else
      var last := files[|files| - 1];
      var before := ImportedModules(files[..|files| - 1], runModules);
      assert forall f :: f in files <==> f in files[..|files| - 1] || f == last;
      if Selected(ModuleName(last), runModules) then before + [ModuleName(last)] else before
  }

  /** `find_and_import_modules(run_modules)`: the names of the modules it
      imports. */
  method FindAndImportModules(files: seq<string>, runModules: seq<Json>) returns (imported: seq<string>)
    ensures imported == ImportedModules(files, runModules)
  {
    imported := [];
    for i := 0 to |files|
      invariant imported == ImportedModules(files[..i], runModules)
    {
      assert files[..i + 1][..i] == files[..i];
      var moduleName := ModuleName(files[i]);
      if runModules == [] || JStr(moduleName) in runModules {
        imported := imported + [moduleName];
      }
    }
    assert files[..|files|] == files;
  }

  /** With an empty run list every test file is imported. */
  lemma ImportAllWithoutRunList(files: seq<string>, f: string)
    requires f in files
    ensures ModuleName(f) in ImportedModules(files, [])
  {
  }

  /** The classes whose module has been imported, in their original order. */
  function Loaded(classes: seq<TestClass>, imported: seq<string>): (r: seq<TestClass>)
    ensures forall c :: c in r <==> c in classes && c.moduleName in imported
    decreases |classes|
  {
    if classes == [] then []
    else
      var before := Loaded(classes[..|classes| - 1], imported);
      var last := classes[|classes| - 1];
      assert forall c :: c in classes <==> c in classes[..|classes| - 1] || c == last;
      if last.moduleName in imported then before + [last] else before
  }

  // ---------------------------------------------------------------------
  // The run list of the suite configuration
  // ---------------------------------------------------------------------

  /** The module list and the per-module class filters of `run_tests`. */
  datatype RunFilters = RunFilters(modules: seq<Json>, classes: map<string, Json>)

  /** Recording one `run_tests` entry. An entry that is not a mapping is an
      `AttributeError`; a module that cannot be a dict key a `TypeError`;
      a later entry for the same module replaces the earlier filter. */
  function AddRunEntry(f: RunFilters, entry: Json): (r: Result<RunFilters>)
    ensures r.Ok? <==> entry.JObj? && Hashable(Get(entry.fields, "module", JNull))
    ensures r.Ok? ==> r.value.modules == f.modules + [Get(entry.fields, "module", JNull)]
  {
    var e :- AsDict(entry);
    var entryModule := Get(e, "module", JNull);
    if !Hashable(entryModule) then Err(TypeError)
    else
      var classes := Get(e, "classes", JStr(""));
      Ok(RunFilters(f.modules + [entryModule], if entryModule.JStr? then f.classes[entryModule.s := classes] else f.classes))
  }

  /** The filters of a whole `run_tests` list, entry by entry. */
  function CollectFilters(entries: seq<Json>): Result<RunFilters>
    decreases |entries|
  {
    if entries == [] then Ok(RunFilters([], map[]))
    else
      var before :- CollectFilters(entries[..|entries| - 1]);
      AddRunEntry(before, entries[|entries| - 1])
  }

  /** The loop of `find_test_classes` that fills `run_modules` and
      `run_classes`. */
  method CollectRunFilters(entries: seq<Json>) returns (r: Result<RunFilters>)
    ensures r == CollectFilters(entries)
  {
    var modules: seq<Json> := [];
    var classes: map<string, Json> := map[];
    for i := 0 to |entries|
      invariant CollectFilters(entries[..i]) == Ok(RunFilters(modules, classes))
    {
      assert entries[..i + 1][..i] == entries[..i];
      var entry := entries[i];
      if !entry.JObj? {
        assert CollectFilters(entries[..i + 1]) == Err(AttributeError);
        r := Err(AttributeError);
        assert entries[..i + 1] <= entries;
        CollectFiltersPrefixError(entries, i + 1);
        return;
      }
      var entryModule := Get(entry.fields, "module", JNull);
      if !Hashable(entryModule) {
        r := Err(TypeError);
        CollectFiltersPrefixError(entries, i + 1);
        return;
      }
      modules := modules + [entryModule];
      if entryModule.JStr? {
        classes := classes[entryModule.s := Get(entry.fields, "classes", JStr(""))];
      }
    }
    assert entries[..|entries|] == entries;
    r := Ok(RunFilters(modules, classes));
  }

  /** A failing prefix makes the whole list fail with the same error. */
  lemma {:induction false} CollectFiltersPrefixError(entries: seq<Json>, n: nat)
    requires n <= |entries| && CollectFilters(entries[..n]).Err?
    ensures CollectFilters(entries) == CollectFilters(entries[..n])
    decreases |entries| - n
  {
    if n < |entries| {
      assert entries[..n + 1][..n] == entries[..n];
      CollectFiltersPrefixError(entries, n + 1);
    } else {
      assert entries[..n] == entries;
    }
  }

  /** The module list keeps every entry's module, in order. */
  lemma {:induction false} CollectFiltersModules(entries: seq<Json>)
    requires CollectFilters(entries).Ok?
    ensures |CollectFilters(entries).value.modules| == |entries|
    ensures forall i :: 0 <= i < |entries| ==>
              entries[i].JObj? && CollectFilters(entries).value.modules[i] == Get(entries[i].fields, "module", JNull)
    decreases |entries|
  {
    if entries != [] {
      var init := entries[..|entries| - 1];
      CollectFiltersModules(init);
      forall i | 0 <= i < |init| ensures entries[i] == init[i] { }
    }
  }

  /** The class filter of a module is the one of its last entry. */
  lemma {:induction false} CollectFiltersLastWins(entries: seq<Json>, i: nat, entryModule: string)
    requires CollectFilters(entries).Ok?
    requires i < |entries| && entries[i].JObj? && Get(entries[i].fields, "module", JNull) == JStr(entryModule)
    requires forall j :: i < j < |entries| && entries[j].JObj? ==> Get(entries[j].fields, "module", JNull) != JStr(entryModule)
    ensures entryModule in CollectFilters(entries).value.classes
    ensures CollectFilters(entries).value.classes[entryModule] == Get(entries[i].fields, "classes", JStr(""))
    decreases |entries|
  {
    var init := entries[..|entries| - 1];
    if i < |entries| - 1 {
      forall j | i < j < |init| && init[j].JObj? ensures Get(init[j].fields, "module", JNull) != JStr(entryModule) {
        assert init[j] == entries[j];
      }
      assert init[i] == entries[i];
      CollectFiltersLastWins(init, i, entryModule);
    }
  }

  /** A `run_tests` entry that is not a mapping stops the planner. */
  lemma NonMappingEntryFails(entries: seq<Json>, i: nat)
    requires i < |entries| && !entries[i].JObj?
    requires CollectFilters(entries[..i]).Ok?
    ensures CollectFilters(entries) == Err(AttributeError)
  {
    assert entries[..i + 1][..i] == entries[..i];
    CollectFiltersPrefixError(entries, i + 1);
  }

  // ---------------------------------------------------------------------
  // Class filters
  // ---------------------------------------------------------------------

  /** `test_methods` turned into references, one per listed name. */
  function MethodRefs(c: TestClass, methods: seq<Json>): (r: Result<seq<string>>)
    ensures r.Ok? ==> |r.value| == |methods|
    ensures r.Ok? ==> forall i :: 0 <= i < |methods| ==> Text(methods[i]).Ok? && r.value[i] == TestRef(c, Text(methods[i]).value)
    ensures (forall i :: 0 <= i < |methods| ==> methods[i].JStr?) ==> r.Ok?
    decreases |methods|
  {
    if methods == [] then Ok([])
    else
      var before :- MethodRefs(c, methods[..|methods| - 1]);
      var name :- Text(methods[|methods| - 1]);
      Ok(before + [TestRef(c, name)])
  }

  /** What one entry of a class filter adds for class `c`: nothing when it
      names another class; all tests when it lists no methods; then each
      listed method. */
  function ForClassEntry(c: TestClass, entry: Json): Result<seq<string>> {
    var e :- AsDict(entry);
    if Get(e, "test_class", JNull) != JStr(c.name) then Ok([])
    else
      var listed := Get(e, "test_methods", JArr([]));
      var whole := if Truthy(listed) then [] else AllTests(c);
      var methods :- Iterate(listed);
      var refs :- MethodRefs(c, methods);
      Ok(whole + refs)
  }

  /** `add_configured_test_methods` over the entries of a class filter. */
  function ConfiguredFold(c: TestClass, entries: seq<Json>): Result<seq<string>>
    decreases |entries|
  {
    if entries == [] then Ok([])
    else
      var before :- ConfiguredFold(c, entries[..|entries| - 1]);
      var more :- ForClassEntry(c, entries[|entries| - 1]);
      Ok(before + more)
  }

  function Configured(c: TestClass, filter: Json): Result<seq<string>> {
    var entries :- Iterate(filter);
    ConfiguredFold(c, entries)
  }

  /** What a discovered class contributes: nothing outside the `test`
      package; all its tests when its module has no (or an empty) class
      filter; then what the class filter selects. */
  function ClassPlan(c: TestClass, classes: map<string, Json>): Result<seq<string>> {
    if !StartsWith(c.moduleName, "test.") then Ok([])
    else
      var filter := if c.moduleName in classes then classes[c.moduleName] else JArr([]);
      var whole := if Truthy(filter) then [] else AllTests(c);
      var configured :- Configured(c, filter);
      Ok(whole + configured)
  }

  /** The plan of a sequence of classes, class by class. */
  function SuitePlan(loaded: seq<TestClass>, classes: map<string, Json>): Result<seq<string>>
    decreases |loaded|
  {
    if loaded == [] then Ok([])
    else
      var before :- SuitePlan(loaded[..|loaded| - 1], classes);
      var more :- ClassPlan(loaded[|loaded| - 1], classes);
      Ok(before + more)
  }

  /** `find_test_classes(suite_config)`: the test references of the suite,
      given the test files and the classes they define. */
  function FindTestClassesSpec(suiteConfig: Object, files: seq<string>, defined: seq<TestClass>): Result<seq<string>> {
    var entries :- Iterate(Get(suiteConfig, "run_tests", JNull));
    var filters :- CollectFilters(entries);
    var imported := ImportedModules(files, filters.modules);
    SuitePlan(Loaded(defined, imported), filters.classes)
  }

  /** A class outside the `test` package contributes nothing. */
  lemma OutsideTestPackage(c: TestClass, classes: map<string, Json>)
    requires !StartsWith(c.moduleName, "test.")
    ensures ClassPlan(c, classes) == Ok([])
  {
  }

  /** A class whose module has no class filter contributes all its tests. */
  lemma NoFilterAllTests(c: TestClass, classes: map<string, Json>)
    requires StartsWith(c.moduleName, "test.")
    requires c.moduleName !in classes || classes[c.moduleName] == JStr("") || classes[c.moduleName] == JArr([])
    ensures ClassPlan(c, classes) == Ok(AllTests(c))
  {
    assert AllTests(c) + [] == AllTests(c);
  }

  /** A class filter naming the class with a list of methods selects exactly
      those methods, in the listed order. */
  lemma ListedMethodsOnly(c: TestClass, methods: seq<string>)
    requires StartsWith(c.moduleName, "test.") && methods != []
    ensures var listed := JArr(seq(|methods|, i requires 0 <= i < |methods| => JStr(methods[i])));
            var filter := JArr([JObj(map["test_class" := JStr(c.name), "test_methods" := listed])]);
            ClassPlan(c, map[c.moduleName := filter])
              == Ok(seq(|methods|, i requires 0 <= i < |methods| => TestRef(c, methods[i])))
  {
    var listed := JArr(seq(|methods|, i requires 0 <= i < |methods| => JStr(methods[i])));
    var entry := JObj(map["test_class" := JStr(c.name), "test_methods" := listed]);
    var refs := MethodRefs(c, listed.items);
    assert refs.Ok?;
    var expected := seq(|methods|, i requires 0 <= i < |methods| => TestRef(c, methods[i]));
    assert refs.value == expected;
    assert ForClassEntry(c, entry) == Ok(expected) by {
      assert [] + expected == expected;
    }
    assert [entry][..0] == [];
    assert ConfiguredFold(c, [entry]) == Ok(expected) by {
      assert [] + expected == expected;
    }
    assert [] + expected == expected;
  }

  /** A class filter naming the class without methods selects all its tests. */
  lemma ListedClassAllTests(c: TestClass)
    requires StartsWith(c.moduleName, "test.")
    ensures var filter := JArr([JObj(map["test_class" := JStr(c.name)])]);
            ClassPlan(c, map[c.moduleName := filter]) == Ok(AllTests(c))
  {
    var entry := JObj(map["test_class" := JStr(c.name)]);
    assert MethodRefs(c, []) == Ok([]);
    assert ForClassEntry(c, entry) == Ok(AllTests(c)) by {
      assert AllTests(c) + [] == AllTests(c);
    }
    assert [entry][..0] == [];
    assert ConfiguredFold(c, [entry]) == Ok(AllTests(c)) by {
      assert [] + AllTests(c) == AllTests(c);
    }
    assert [] + AllTests(c) == AllTests(c);
  }

  /** Filter entries that all name other classes select nothing for `c`. */
  lemma {:induction false} UnlistedFoldNothing(c: TestClass, entries: seq<Json>)
    requires forall i :: 0 <= i < |entries| ==>
               entries[i].JObj? && Get(entries[i].fields, "test_class", JNull) != JStr(c.name)
    ensures ConfiguredFold(c, entries) == Ok([])
    decreases |entries|
  {
    if entries != [] {
      UnlistedFoldNothing(c, entries[..|entries| - 1]);
      assert ForClassEntry(c, entries[|entries| - 1]) == Ok([]);
      var none: seq<string> := [];
      assert none + none == none;
    }
  }

  /** A class that a non-empty class filter of its module does not name
      contributes nothing. */
  lemma UnlistedClassNothing(c: TestClass, entries: seq<Json>)
    requires entries != []
    requires forall i :: 0 <= i < |entries| ==>
               entries[i].JObj? && Get(entries[i].fields, "test_class", JNull) != JStr(c.name)
    ensures ClassPlan(c, map[c.moduleName := JArr(entries)]) == Ok([])
  {
    UnlistedFoldNothing(c, entries);
  }

  /** An explicit `"classes": null` adds all the module's tests and then
      fails, because `None` cannot be iterated. */
  lemma NullClassFilterFails(c: TestClass)
    requires StartsWith(c.moduleName, "test.")
    ensures ClassPlan(c, map[c.moduleName := JNull]) == Err(TypeError)
  {
  }

  /** The example of the documentation: an entry for `test.m` selecting
      method `a` of class `T`, which has `a` and `b`, plans exactly `test.m.T.a`. */
  lemma DiscoveryExample(m: string, t: string, a: string, b: string)
    requires m == "test.m" && t == "T" && a == "a" && b == "b"
    ensures var c := TestClass(m, t, [a, b]);
            var filter := JArr([JObj(map["test_class" := JStr(t), "test_methods" := JArr([JStr(a)])])]);
            SuitePlan([c], map[m := filter]) == Ok([m + "." + t + "." + a])
  {
    var c := TestClass(m, t, [a, b]);
    assert StartsWith(c.moduleName, "test.");
    ListedMethodsOnly(c, [a]);
    assert seq(1, i requires 0 <= i < 1 => JStr([a][i])) == [JStr(a)];
    assert seq(1, i requires 0 <= i < 1 => TestRef(c, [a][i])) == [TestRef(c, a)];
    var filter := JArr([JObj(map["test_class" := JStr(t), "test_methods" := JArr([JStr(a)])])]);
    assert ClassPlan(c, map[m := filter]) == Ok([TestRef(c, a)]);
    assert [c][..0] == [];
    assert [] + [TestRef(c, a)] == [TestRef(c, a)];
  }

  // ---------------------------------------------------------------------
  // The imperative planner
  // ---------------------------------------------------------------------

  /** The inner loop of `add_configured_test_methods`: one reference per
      listed method. */
  method AddMethodRefs(c: TestClass, methods: seq<Json>, suite: TestSuite) returns (err: Option<Error>)
    modifies suite
    ensures MethodRefs(c, methods).Ok? ==> err == None && suite.tests == old(suite.tests) + MethodRefs(c, methods).value
    ensures MethodRefs(c, methods).Err? ==> err == Some(MethodRefs(c, methods).error)
  {
    ghost var start := suite.tests;
    for j := 0 to |methods|
      invariant MethodRefs(c, methods[..j]).Ok?
      invariant suite.tests == start + MethodRefs(c, methods[..j]).value
    {
      assert methods[..j + 1][..j] == methods[..j];
      var name := Text(methods[j]);
      if name.Err? {
        MethodRefsPrefixError(c, methods, j + 1);
        return Some(name.error);
      }
      suite.AddTest(TestRef(c, name.value));
    }
    assert methods[..|methods|] == methods;
    return None;
  }

  /** One entry of a class filter applied to class `c`. */
  method AddForClassEntry(c: TestClass, entry: Json, suite: TestSuite) returns (err: Option<Error>)
    modifies suite
    ensures ForClassEntry(c, entry).Ok? ==> err == None && suite.tests == old(suite.tests) + ForClassEntry(c, entry).value
    ensures ForClassEntry(c, entry).Err? ==> err == Some(ForClassEntry(c, entry).error)
  {
    if !entry.JObj? {
      return Some(AttributeError);
    }
    if Get(entry.fields, "test_class", JNull) != JStr(c.name) {
      assert suite.tests + [] == suite.tests;
      return None;
    }
    var listed := Get(entry.fields, "test_methods", JArr([]));
    ghost var whole := if Truthy(listed) then [] else AllTests(c);
    if !Truthy(listed) {
      suite.AddTests(AllTests(c));
    }
    assert suite.tests == old(suite.tests) + whole;
    var methods := Iterate(listed);
    if methods.Err? {
      return Some(methods.error);
    }
    err := AddMethodRefs(c, methods.value, suite);
    if err == None {
      assert suite.tests == old(suite.tests) + (whole + MethodRefs(c, methods.value).value);
    }
  }

  /** `add_configured_test_methods(_class, class_tuples, suite)`. */
  method AddConfiguredTestMethods(c: TestClass, filter: Json, suite: TestSuite) returns (err: Option<Error>)
    modifies suite
    ensures Configured(c, filter).Ok? ==> err == None && suite.tests == old(suite.tests) + Configured(c, filter).value
    ensures Configured(c, filter).Err? ==> err == Some(Configured(c, filter).error)
  {
    var entries := Iterate(filter);
    if entries.Err? {
      return Some(entries.error);
    }
    err := AddClassEntries(c, entries.value, suite);
  }

  /** The loop of `add_configured_test_methods` over the entries of a class
      filter. */
  method AddClassEntries(c: TestClass, entries: seq<Json>, suite: TestSuite) returns (err: Option<Error>)
    modifies suite
    ensures ConfiguredFold(c, entries).Ok? ==> err == None && suite.tests == old(suite.tests) + ConfiguredFold(c, entries).value
    ensures ConfiguredFold(c, entries).Err? ==> err == Some(ConfiguredFold(c, entries).error)
  {
    ghost var start := suite.tests;
    for i := 0 to |entries|
      invariant ConfiguredFold(c, entries[..i]).Ok?
      invariant suite.tests == start + ConfiguredFold(c, entries[..i]).value
    {
      var e := AddClassEntryAt(c, entries, i, suite, start);
      if e.Some? {
        ConfiguredFoldPrefixError(c, entries, i + 1);
        return e;
      }
    }
    assert entries[..|entries|] == entries;
    return None;
  }

  /** One iteration of that loop: the suite follows the fold one entry
      further. */
  method AddClassEntryAt(c: TestClass, entries: seq<Json>, i: nat, suite: TestSuite, ghost start: seq<string>)
    returns (err: Option<Error>)
    requires i < |entries| && ConfiguredFold(c, entries[..i]).Ok?
    requires suite.tests == start + ConfiguredFold(c, entries[..i]).value
    modifies suite
    ensures ConfiguredFold(c, entries[..i + 1]).Ok? ==> err == None && suite.tests == start + ConfiguredFold(c, entries[..i + 1]).value
    ensures ConfiguredFold(c, entries[..i + 1]).Err? ==> err == Some(ConfiguredFold(c, entries[..i + 1]).error)
  {
    ghost var before := ConfiguredFold(c, entries[..i]).value;
    ghost var more := ForClassEntry(c, entries[i]);
    ConfiguredFoldStep(c, entries, i);
    err := AddForClassEntry(c, entries[i], suite);
    if more.Ok? {
      assert ConfiguredFold(c, entries[..i + 1]) == Ok(before + more.value);
      assert suite.tests == (start + before) + more.value;
      ConcatAssoc(start, before, more.value);
    } else {
      assert ConfiguredFold(c, entries[..i + 1]) == Err(more.error);
    }
  }

  /** One more entry extends the fold by what that entry selects. */
  lemma ConfiguredFoldStep(c: TestClass, entries: seq<Json>, i: nat)
    requires i < |entries| && ConfiguredFold(c, entries[..i]).Ok?
    ensures ForClassEntry(c, entries[i]).Err? ==> ConfiguredFold(c, entries[..i + 1]) == Err(ForClassEntry(c, entries[i]).error)
    ensures ForClassEntry(c, entries[i]).Ok? ==>
      ConfiguredFold(c, entries[..i + 1]) == Ok(ConfiguredFold(c, entries[..i]).value + ForClassEntry(c, entries[i]).value)
  {
    assert entries[..i + 1][..i] == entries[..i];
  }

  lemma {:induction false} ConfiguredFoldPrefixError(c: TestClass, entries: seq<Json>, n: nat)
    requires n <= |entries| && ConfiguredFold(c, entries[..n]).Err?
    ensures ConfiguredFold(c, entries) == ConfiguredFold(c, entries[..n])
    decreases |entries| - n
  {
    if n < |entries| {
      assert entries[..n + 1][..n] == entries[..n];
      ConfiguredFoldPrefixError(c, entries, n + 1);
    } else {
      assert entries[..n] == entries;
    }
  }

  lemma {:induction false} MethodRefsPrefixError(c: TestClass, methods: seq<Json>, n: nat)
    requires n <= |methods| && MethodRefs(c, methods[..n]).Err?
    ensures MethodRefs(c, methods) == MethodRefs(c, methods[..n])
    decreases |methods| - n
  {
    if n < |methods| {
      assert methods[..n + 1][..n] == methods[..n];
      MethodRefsPrefixError(c, methods, n + 1);
    } else {
      assert methods[..n] == methods;
    }
  }

  lemma {:induction false} SuitePlanPrefixError(loaded: seq<TestClass>, classes: map<string, Json>, n: nat)
    requires n <= |loaded| && SuitePlan(loaded[..n], classes).Err?
    ensures SuitePlan(loaded, classes) == SuitePlan(loaded[..n], classes)
    decreases |loaded| - n
  {
    if n < |loaded| {
      assert loaded[..n + 1][..n] == loaded[..n];
      SuitePlanPrefixError(loaded, classes, n + 1);
    } else {
      assert loaded[..n] == loaded;
    }
  }

  /** The class loop of `find_test_classes`. */
  method PlanClasses(loaded: seq<TestClass>, classes: map<string, Json>) returns (r: Result<seq<string>>)
    ensures r == SuitePlan(loaded, classes)
  {
    var suite := new TestSuite();
    for i := 0 to |loaded|
      invariant SuitePlan(loaded[..i], classes) == Ok(suite.tests)
    {
      assert loaded[..i + 1][..i] == loaded[..i];
      var c := loaded[i];
      if StartsWith(c.moduleName, "test.") {
        var filter := if c.moduleName in classes then classes[c.moduleName] else JArr([]);
        if !Truthy(filter) {
          suite.AddTests(AllTests(c));
        }
        ghost var whole := if Truthy(filter) then [] else AllTests(c);
        assert suite.tests == SuitePlan(loaded[..i], classes).value + whole;
        var err := AddConfiguredTestMethods(c, filter, suite);
        if err.Some? {
          SuitePlanPrefixError(loaded, classes, i + 1);
          return Err(err.value);
        }
        assert suite.tests == SuitePlan(loaded[..i], classes).value + (whole + Configured(c, filter).value);
      } else {
        assert suite.tests + [] == suite.tests;
      }
    }
    assert loaded[..|loaded|] == loaded;
    return Ok(suite.tests);
  }

  /** `find_test_classes(suite_config)`. */
  method FindTestClasses(suiteConfig: Object, files: seq<string>, defined: seq<TestClass>) returns (r: Result<seq<string>>)
    ensures r == FindTestClassesSpec(suiteConfig, files, defined)
  {
    var entries := Iterate(Get(suiteConfig, "run_tests", JNull));
    if entries.Err? {
      return Err(entries.error);
    }
    var filters := CollectRunFilters(entries.value);
    if filters.Err? {
      return Err(filters.error);
    }
    var imported := FindAndImportModules(files, filters.value.modules);
    r := PlanClasses(Loaded(defined, imported), filters.value.classes);
  }

  // ---------------------------------------------------------------------
  // Search mode and explicit lists
  // ---------------------------------------------------------------------

  /** A test reference matches the search term when the term is `*` or
      occurs in it, ignoring case. */
  predicate Matches(searchText: string, test: string) {
    searchText == "*" || IsSubstring(Lower(searchText), Lower(test))
  }

  /** The matching references of a sequence of classes, in discovery order. */
  function Found(searchText: string, loaded: seq<TestClass>): (r: seq<string>)
    ensures forall t :: t in r ==> Matches(searchText, t)
    decreases |loaded|
  {
    if loaded == [] then []
    else
      var c := loaded[|loaded| - 1];
      var mine := if StartsWith(c.moduleName, "test.") then FoundIn(searchText, c, c.methods) else [];
      Found(searchText, loaded[..|loaded| - 1]) + mine
  }

  /** The matching references of the first methods of a class. */
  function FoundIn(searchText: string, c: TestClass, methods: seq<string>): (r: seq<string>)
    ensures forall t :: t in r ==> Matches(searchText, t) && exists m :: m in methods && t == TestRef(c, m)
    decreases |methods|
  {
    if methods == [] then []
    else
      var m := methods[|methods| - 1];
      var before := FoundIn(searchText, c, methods[..|methods| - 1]);
      assert forall x :: x in methods[..|methods| - 1] ==> x in methods;
      if Matches(searchText, TestRef(c, m)) then before + [TestRef(c, m)] else before
  }

  /** The matches of a class are exactly its methods' references that match
      the term. */
  lemma {:induction false} FoundInExactly(searchText: string, c: TestClass, methods: seq<string>, t: string)
    ensures t in FoundIn(searchText, c, methods) <==>
              Matches(searchText, t) && exists m :: m in methods && t == TestRef(c, m)
    decreases |methods|
  {
    if methods != [] {
      var init := methods[..|methods| - 1];
      FoundInExactly(searchText, c, init, t);
      assert methods == init + [methods[|methods| - 1]];
      if Matches(searchText, t) && exists m :: m in methods && t == TestRef(c, m) {
        var m :| m in methods && t == TestRef(c, m);
        if m !in init {
          assert m == methods[|methods| - 1];
        }
      }
    }
  }

  /** The search lists exactly the matching tests of the classes of the
      `test` package. */
  lemma {:induction false} FoundExactly(searchText: string, loaded: seq<TestClass>, t: string)
    ensures t in Found(searchText, loaded) <==>
              Matches(searchText, t)
              && exists c, m :: c in loaded && StartsWith(c.moduleName, "test.") && m in c.methods && t == TestRef(c, m)
    decreases |loaded|
  {
    if loaded != [] {
      var init := loaded[..|loaded| - 1];
      var last := loaded[|loaded| - 1];
      assert loaded == init + [last];
      FoundExactly(searchText, init, t);
      FoundInExactly(searchText, last, last.methods, t);
      if Matches(searchText, t)
         && exists c, m :: c in loaded && StartsWith(c.moduleName, "test.") && m in c.methods && t == TestRef(c, m) {
        var c, m :| c in loaded && StartsWith(c.moduleName, "test.") && m in c.methods && t == TestRef(c, m);
        if c !in init {
          assert c == last;
        }
      }
    }
  }

  /** The inner loop of `tests_list`: the matching tests of one class. */
  method SearchClass(searchText: string, c: TestClass) returns (found: seq<string>)
    ensures found == FoundIn(searchText, c, c.methods)
  {
    found := [];
    for j := 0 to |c.methods|
      invariant found == FoundIn(searchText, c, c.methods[..j])
    {
      assert c.methods[..j + 1][..j] == c.methods[..j];
      var test := TestRef(c, c.methods[j]);
      if searchText == "*" || IsSubstring(Lower(searchText), Lower(test)) {
        found := found + [test];
      }
    }
    assert c.methods[..|c.methods|] == c.methods;
  }

  /** `tests_list(search_text)`: every test module is imported, then each
      test of the `test` package that matches is listed. */
  method TestsList(searchText: string, files: seq<string>, defined: seq<TestClass>) returns (tests: seq<string>)
    ensures tests == Found(searchText, Loaded(defined, ImportedModules(files, [])))
  {
    var imported := FindAndImportModules(files, []);
    var loaded := Loaded(defined, imported);
    tests := [];
    for i := 0 to |loaded|
      invariant tests == Found(searchText, loaded[..i])
    {
      tests := ListClassAt(searchText, loaded, i, tests);
    }
    assert loaded[..|loaded|] == loaded;
  }

  /** One turn of the outer loop of `tests_list`: the matching tests of the
      next class, when it belongs to the `test` package, are appended. */
  method ListClassAt(searchText: string, loaded: seq<TestClass>, i: nat, tests: seq<string>) returns (next: seq<string>)
    requires i < |loaded| && tests == Found(searchText, loaded[..i])
    ensures next == Found(searchText, loaded[..i + 1])
  {
    assert loaded[..i + 1][..i] == loaded[..i];
    var c := loaded[i];
    if StartsWith(c.moduleName, "test.") {
      var found := SearchClass(searchText, c);
      next := tests + found;
    } else {
      next := tests + [];
    }
  }

  /** Searching for `*` lists every test of a class in the `test` package. */
  lemma {:induction false} StarFindsAll(c: TestClass, methods: seq<string>)
    ensures FoundIn("*", c, methods) == seq(|methods|, i requires 0 <= i < |methods| => TestRef(c, methods[i]))
    decreases |methods|
  {
    if methods != [] {
      StarFindsAll(c, methods[..|methods| - 1]);
    }
  }

  /** Upper-casing then lower-casing is lower-casing. */
  lemma LowerUpper(s: string)
    ensures Lower(Upper(s)) == Lower(s)
  {
  }

  /** Search ignores case: an upper-cased term finds the same tests. */
  lemma {:induction false} SearchIgnoresCase(searchText: string, loaded: seq<TestClass>)
    requires searchText != "*"
    ensures Found(Upper(searchText), loaded) == Found(searchText, loaded)
    decreases |loaded|
  {
    LowerUpper(searchText);
    assert Upper(searchText) != "*" by {
      if |searchText| == 1 {
        assert Upper(searchText)[0] == UpperChar(searchText[0]);
      }
    }
    if loaded != [] {
      var c := loaded[|loaded| - 1];
      SearchIgnoresCaseIn(searchText, c, c.methods);
      SearchIgnoresCase(searchText, loaded[..|loaded| - 1]);
    }
  }

  lemma {:induction false} SearchIgnoresCaseIn(searchText: string, c: TestClass, methods: seq<string>)
    requires searchText != "*" && Upper(searchText) != "*"
    ensures FoundIn(Upper(searchText), c, methods) == FoundIn(searchText, c, methods)
    decreases |methods|
  {
    LowerUpper(searchText);
    if methods != [] {
      SearchIgnoresCaseIn(searchText, c, methods[..|methods| - 1]);
    }
  }

  /** `add_tests_to_suite(add_tests)`: one entry per name, in order. */
  method AddTestsToSuite(addTests: seq<string>) returns (tests: seq<string>)
    ensures tests == addTests
  {
    var suite := new TestSuite();
    for i := 0 to |addTests|
      invariant suite.tests == addTests[..i]
    {
      suite.AddTest(addTests[i]);
      assert addTests[..i + 1] == addTests[..i] + [addTests[i]];
    }
    assert addTests[..|addTests|] == addTests;
    return suite.tests;
  }

  // ---------------------------------------------------------------------
  // The launcher
  // ---------------------------------------------------------------------

  /** What a launch produces: the listing of search mode (after which the
      launcher exits with status 0), or the plan handed to the runner. */
  datatype Launch = Searched(found: seq<string>) | Planned(plan: seq<string>)

  /** `run_test_suite()` up to the runner. `args` are the parsed command-line
      arguments and `suiteConfig` what `load_suite_config()` returned. */
  function RunTestSuiteSpec(args: Object, suiteConfig: Result<Object>, files: seq<string>, defined: seq<TestClass>)
    : (r: Result<Launch>)
    ensures Truthy(Get(args, "test_search", JNull)) && Get(args, "test_search", JNull).JStr? ==>
              r == Ok(Searched(Found(args["test_search"].s, Loaded(defined, ImportedModules(files, [])))))
    ensures !Truthy(Get(args, "test_search", JNull)) && suiteConfig.Err? ==> r == Err(suiteConfig.error)
    ensures (!Truthy(Get(args, "test_search", JNull)) && suiteConfig.Ok? && Get(args, "add_tests", JNull).JStr?
             && Truthy(args["add_tests"])) ==> r == Ok(Planned(Split(args["add_tests"].s, ',')))
    ensures !Truthy(Get(args, "test_search", JNull)) && suiteConfig.Ok? && !Truthy(Get(args, "add_tests", JNull)) ==>
              (r.Ok? <==> FindTestClassesSpec(suiteConfig.value, files, defined).Ok?)
              && (r.Ok? ==> r == Ok(Planned(FindTestClassesSpec(suiteConfig.value, files, defined).value)))
  {
    var searchText := Get(args, "test_search", JNull);
    if Truthy(searchText) then
      if !searchText.JStr? then Err(AttributeError)
      else Ok(Searched(Found(searchText.s, Loaded(defined, ImportedModules(files, [])))))
    else
      var config :- suiteConfig;
      var addTests := Get(args, "add_tests", JNull);
      if Truthy(addTests) then
        if !addTests.JStr? then Err(AttributeError)
        else Ok(Planned(Split(addTests.s, ',')))
      else
        var plan :- FindTestClassesSpec(config, files, defined);
        Ok(Planned(plan))
  }

  /** `run_test_suite()` up to the runner. */
  method RunTestSuite(args: Object, suiteConfig: Result<Object>, files: seq<string>, defined: seq<TestClass>)
    returns (r: Result<Launch>)
    ensures r == RunTestSuiteSpec(args, suiteConfig, files, defined)
  {
    var searchText := Get(args, "test_search", JNull);
    if Truthy(searchText) {
      if !searchText.JStr? {
        return Err(AttributeError);
      }
      var tests := TestsList(searchText.s, files, defined);
      return Ok(Searched(tests));
    }
    if suiteConfig.Err? {
      return Err(suiteConfig.error);
    }
    var addTests := Get(args, "add_tests", JNull);
    if Truthy(addTests) {
      if !addTests.JStr? {
        return Err(AttributeError);
      }
      var plan := AddTestsToSuite(Split(addTests.s, ','));
      return Ok(Planned(plan));
    }
    var plan := FindTestClasses(suiteConfig.value, files, defined);
    if plan.Err? {
      return Err(plan.error);
    }
    return Ok(Planned(plan.value));
  }

  /** An explicit list is planned as written: joining the plan with commas
      gives back the argument. */
  lemma AddTestsRoundTrip(args: Object, suiteConfig: Result<Object>, files: seq<string>, defined: seq<TestClass>)
    requires !Truthy(Get(args, "test_search", JNull)) && suiteConfig.Ok?
    requires Get(args, "add_tests", JNull).JStr? && Truthy(args["add_tests"])
    ensures RunTestSuiteSpec(args, suiteConfig, files, defined).Ok?
    ensures Join(RunTestSuiteSpec(args, suiteConfig, files, defined).value.plan, ',') == args["add_tests"].s
  {
    JoinSplit(args["add_tests"].s, ',');
  }
}
