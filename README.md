# pytaf core, modelled in Dafny

pytaf is a test-automation framework for REST services. A test run picks its
tests from suite files. Each test calls an endpoint through `call_endpoint`,
which layers the request from several sources:

- the suite catalogue (base URL, default args, params and headers);
- the test data, a JSON file per test module with per-environment sections;
- arguments given at the call site;
- the parsed command line;
- the authentication headers.

This project models the parts of the framework that compute values:

- request assembly and the endpoint catalogue (`lib/get_endpoint.py`);
- the test-data overlay (`lib/manage_test_data.py`);
- the suite configuration (`lib/test_suite_config.py`);
- the test-selection planner (`test_launcher.py`);
- the helpers they rest on (`lib/utils.py`, `lib/tupleware.py`, `_source_path`
  in `lib/logger.py`, and the records in `lib/common_namedtuples.py`);
- the task-search oracle `_search_list_of_tasks` of the company-tasks tests.

JSON values are the datatype `JsonValue.Json`. Objects are `map<string, Json>`,
so every merge `{**a, **b}` is the map union `a + b`. Python exceptions are
`Outcomes.Error` values, carried in a `Result`. The file system is a map from
path to file contents (`Utils.Files`). JSON serialisation (RFC 8259) and the
transport are function parameters. The test modules, classes and methods that
the launcher discovers are given as data.

Loops and in-place updates in the source are methods with loops. Each such
method is proved equal to a specification function, or to a relational outcome
where the order of a dict decides which exception is raised. The properties
are proved as lemmas about those functions. The modules are:

- `Outcomes`, `JsonValue` and `PyStrings`: the value model, and the Python
  string operations the source uses.
- `CommonNamedtuples`, `Logger`, `Tupleware`, `Utils` and `StrFormat`: the
  helpers.
- `ManageTestData`, `TestSuiteConfig`, `GetEndpoint`, `TestLauncher` and
  `SearchCompanyTasks`: the core.

Where the prose description of the framework and its code disagree, the model
follows the code:

- Merges are shallow, one level of `{**a, **b}`. They are not recursive.
- Both `data` and `json` can be sent in one request (`GetEndpoint.BothPayloadsSent`).
- A suite file that does not exist contributes no tests. Reading it is fatal
  only when its path contains `auth.json` (`TestSuiteConfig.MissingSuiteFile`).
- The documented discovery example only selects its test when the module name
  starts with `test.` (`TestLauncher.DiscoveryExample`).
- A method name listed in `test_methods` is added as a test reference even when
  the class has no such method. The loader then reports it as a failing test.
- `load_suite_config` is called even when an explicit `add_tests` list is given.
  So a suite configuration that fails also fails that mode.
- The header line of `format_response` reads the response field
  `transaction_id`. The source text shows it as `transaction-id`.

## Model

| member | source | states |
|---|---|---|
| CommonNamedtuples.NewEndPoint | lib/common_namedtuples.py:7-15 | Building an endpoint succeeds exactly when the keywords are known fields and include `uri`, `method` and `env`. Each required field is taken from its keyword. Each other field is its keyword's value, or an empty dict when the keyword is absent. |
| CommonNamedtuples.EndPointRoundTrip | lib/common_namedtuples.py:7-15 | An endpoint rebuilt from its own `_asdict()` is the same endpoint. |
| CommonNamedtuples.EndPointDefaults | lib/common_namedtuples.py:11-15 | Given only the three required fields, `headers`, `params`, `data`, `json` and `files` are empty dicts. |
| CommonNamedtuples.EndPointAsDict | lib/common_namedtuples.py:7-15 | `_asdict()` has exactly the eight field names as keys. |
| CommonNamedtuples.NewHttpResponse | lib/common_namedtuples.py:18-26 | Building a response succeeds exactly when `env`, `url`, `status` and `headers` are given and nothing unknown is. `data`, `error` and `transaction_id` default to `''`, and `content` to empty bytes. |
| CommonNamedtuples.TransportErrorResponseAsWritten | lib/web_service_client.py:36 | The transport's failure path builds a response without `headers`, so the construction raises `TypeError`. |
| CommonNamedtuples.TransportErrorResponse | lib/web_service_client.py:16-36 | The evidently intended sentinel response: status `555`, the exception as the error, the endpoint's env and uri, an empty `headers` dict, and defaults elsewhere. |
| Logger.DottedPath | lib/logger.py:143 | After `.py` is removed and both separators are turned into dots, no `/` or `\` is left. |
| Logger.AfterMarker | lib/logger.py:144-149 | The result is the text after the leading dot of the first occurrence of the marker. No earlier position holds the marker. |
| Logger.SourcePath | lib/logger.py:136-151 | The result is a suffix of the dotted path and has no separators. With `.test.` present, it is the text after the first occurrence of `.test.` (`AfterMarker`). Otherwise `.test_automation.` is tried the same way, then `.src.`. With no marker it is the whole dotted path. |
| Logger.AfterMarkerStarts | lib/logger.py:144-149 | The suffix starts with the marker without its leading dot. |
| Logger.SourcePathTest | lib/logger.py:144-145 | When `.test.` occurs, the result starts with `test.`. |
| Logger.SourcePathTestAutomation | lib/logger.py:146-147 | `.test_automation.` is used only when `.test.` is absent. The result then starts with `test_automation.`. |
| Logger.SourcePathSrc | lib/logger.py:148-149 | `.src.` is tried last. The result then starts with `src.`. |
| Logger.DottedPathSinglePass | lib/logger.py:143 | Removing `.py` is a single left-to-right pass. A new `.py` formed by a removal stays. |
| Logger.RemovePyOnce | lib/logger.py:143 | In `a.p.pyy` only the `.py` starting at index 3 is removed. The `.py` this leaves behind stays. |
| Tupleware.StrLeTotal | lib/tupleware.py:7 | Python's string order, used by `sorted`, is total. |
| Tupleware.StrLeAntisymmetric | lib/tupleware.py:7 | Python's string order is antisymmetric. |
| Tupleware.StrLeTransitive | lib/tupleware.py:7 | Python's string order is transitive. |
| Tupleware.StrLeReflexive | lib/tupleware.py:7 | Python's string order is reflexive. |
| Tupleware.LeastExists | lib/tupleware.py:7 | Every non-empty set of keys has a least key, so `sorted` is defined. |
| Tupleware.LeastOfInsert | lib/tupleware.py:7 | Adding one key to a set that has a least key leaves a set that still has one. |
| Tupleware.SortedKeys | lib/tupleware.py:7 | `sorted(keys)` holds each key exactly once, in strictly increasing order. |
| Tupleware.SortedCons | lib/tupleware.py:7 | The least key in front of the sorted remaining keys is strictly sorted. |
| Tupleware.Tupleware | lib/tupleware.py:5-23 | A dict whose sorted keys are valid field names becomes a record with those fields. Otherwise a dict stays a dict with converted values. A list keeps its length, and any other value is returned unchanged. |
| Tupleware.TuplewareObject | lib/tupleware.py:6-19 | Each field or value of a converted dict is the conversion of the value at that key. |
| Tupleware.TuplewareRoundTrip | lib/tupleware.py:5-23 | The conversion loses nothing: reading every record back as a dict gives the original value. |
| Tupleware.RoundTripObject | lib/tupleware.py:6-19 | A dict whose values read back as themselves also reads back as itself after conversion. |
| Tupleware.RecordReadsBack | lib/tupleware.py:8-14 | A record converted from a dict whose values read back reads back as that dict. |
| Tupleware.DictReadsBack | lib/tupleware.py:15-19 | The fallback dict converted from such a dict reads back as that dict. |
| Tupleware.RecordFieldsSorted | lib/tupleware.py:7-12 | The fields of a record are the keys in sorted order, whatever order they were written in. |
| Tupleware.KeywordKeyStaysDict | lib/tupleware.py:15-19 | A reserved word as a key makes building the record fail, so the value stays a dict. |
| Tupleware.UnderscoreKeys | lib/tupleware.py:8-19 | `_0` is accepted as the name of field 0. `_1` at position 0 would be renamed, so that dict stays a dict. |
| Tupleware.IndexOf | lib/tupleware.py:13-14 | The index is the first position of the field name, or the length when the name is absent. |
| Tupleware.PlainRecord | lib/tupleware.py:8-14 | A record over all keys of a dict, whose values read back as the dict's, reads back as that dict. |
| Tupleware.PlainDict | lib/tupleware.py:15-19 | The same holds for the fallback dict. |
| Utils.LoadData | lib/utils.py:56-74 | A parsed file gives its JSON, and malformed JSON gives `ValueError`. A missing file gives `{}`, except that it exits with status 1 when errors are printed and the path names `auth.json`. |
| Utils.GetAuth | lib/utils.py:77-82 | The authentication file is required. When it is missing the run exits with status 1. Otherwise its JSON is returned. |
| Utils.MissingFileIsEmpty | lib/utils.py:56-74 | Any missing file other than the authentication file loads as `{}`. |
| Utils.SliceGenerator | lib/utils.py:41-53 | The result is the first `slice_for` items in order, or every item when there are fewer or `slice_for <= 0`. |
| Utils.UpdateArg | lib/utils.py:102-103 | `dict.update` with a loaded file succeeds on a mapping and merges its entries. A scalar is a `TypeError`. Updating from a sequence (a list or a string) is not modelled. |
| Utils.GetResourceConfig | lib/utils.py:96-105 | The loop over the listed files equals `ResourceConfigSpec`: the listed files' contents merged in list order, later files winning, under the single key `suites`. |
| Utils.SuitesLastWins | lib/utils.py:101-105 | A suite is configured exactly when some listed file defines it. Its entry comes from the last such file. |
| Utils.UpdatedByLastWins | lib/utils.py:102-103 | For any way of loading the listed files, the repeated `dict.update` succeeds only when every load succeeds. A key is then present exactly when some loaded dict has it, and it holds the value from the last such dict. |
| Utils.SuitesPrefixError | lib/utils.py:102-103 | A file that fails to merge stops the merge with its error. |
| Utils.NormaliseEnv | lib/utils.py:137-139 | The normalised name holds no `+` and no upper-case letter. |
| Utils.NormaliseEnvIdempotent | lib/utils.py:137-140 | Normalising a normalised name changes nothing, including the special case `n` to `n0`. |
| Utils.FormattedEnvIdempotent | lib/utils.py:137-140 | `format_env` applied twice is `format_env` applied once. Only `environment` changes, and no key is added or removed. |
| Utils.PyDict.constructor | lib/utils.py:131 | A fresh argument dict holds the given entries. |
| Utils.FormatEnv | lib/utils.py:131-141 | The dict is updated in place to the formatted arguments, and the same dict is returned. A non-string environment leaves it unchanged and gives the error. |
| Utils.FormatResponse | lib/utils.py:116-128 | Formatting succeeds exactly when the response headers are a dict. The text starts with the message, or `Error Message:` when none is given, followed by the status line. |
| Utils.FormatResponseLines | lib/utils.py:123-128 | When no field renders with a line break, the text splits back into the six lines: message, status, URL, `sec-id`, `x-txid` and data. |
| Utils.FormatTransportError | lib/utils.py:116-128 | A failed transport call formats with status `555` and an empty `sec-id`. |
| StrFormat.FieldValue | lib/get_endpoint.py:40 | A named field is the text of its argument. A missing argument raises `KeyError` with its name, and a positional field raises `IndexError`. |
| StrFormat.FormatPlain | lib/get_endpoint.py:40 | A template without braces formats to itself, whatever the arguments. |
| StrFormat.FormatPlainPrefix | lib/get_endpoint.py:40 | A brace-free prefix is copied in front of the formatted rest. |
| StrFormat.FormatField | lib/get_endpoint.py:40 | A `{name}` field is its argument's text in front of the formatted rest. The field's error comes first. |
| StrFormat.FormatEscapes | lib/get_endpoint.py:40 | `{{` and `}}` stand for one literal brace. |
| StrFormat.FormatTwoFields | lib/get_endpoint.py:39-40 | A path with two placeholders is filled left to right. The first missing one is the error. |
| ManageTestData.GetTestData | lib/manage_test_data.py:10-18 | Without an environment, the file under the test-data directory is loaded. With a truthy environment, the result is the file's section for that environment, or `{}` when it has none. A load error is passed on. A loaded value that is not a dict fails (`.get`). An unhashable environment fails. A list or dict file name is outside the model (`Unsupported`). Any other name is turned into text as an f-string does. |
| ManageTestData.EnvSection | lib/manage_test_data.py:50 | The environment section exists exactly when both the exact-name and the upper-cased sections are dicts (or absent). |
| ManageTestData.EnvSectionPrecedence | lib/manage_test_data.py:50 | The section holds the keys of both. The upper-cased section wins on a shared key. |
| ManageTestData.FoldEnvSection | lib/manage_test_data.py:52-58 | The loop that writes each key of the section into the test data equals the overlay specification. |
| ManageTestData.FoldEntry | lib/manage_test_data.py:52-58 | Writing one key merges a dict over the dict already there. It fails with `TypeError` exactly when the value there is not a dict. Every key written so far keeps its folded value. |
| ManageTestData.FoldedAll | lib/manage_test_data.py:52-58 | Once every key of the section is written, the data is the folded test data. |
| ManageTestData.OverlayFailure | lib/manage_test_data.py:52-55 | The overlay fails exactly when a dict in the section meets a base value that cannot be unpacked. |
| ManageTestData.OverlayContents | lib/manage_test_data.py:52-60 | The result holds the keys of both. A non-dict in the section overwrites, and a dict is shallow-merged over the base value with the section winning. Keys outside the section keep their values. |
| ManageTestData.OverlayIdempotent | lib/manage_test_data.py:52-58 | Folding the same section in again changes nothing. |
| ManageTestData.EnvTestData | lib/manage_test_data.py:33-60 | `env_test_data` equals `EnvTestDataSpec`. That function picks the command-line file if there is one, else the decorator's. It loads the file, asserts `.json` in its name, and falls back to `FullPathData` (the name read as a full path, lines 46-48). It then folds the environment section in. |
| ManageTestData.EnvTestDataFileChoice | lib/manage_test_data.py:41-42 | The command-line file wins: when one is given, the result is the same whatever file the decorator names. |
| ManageTestData.EnvTestDataNeedsJson | lib/manage_test_data.py:44 | A file name without `.json` that is absent under the test-data path fails the assertion. That is the case where line 44 is reached, because the earlier load does not raise. |
| ManageTestData.EnvTestDataFullPath | lib/manage_test_data.py:46-48 | A file that is empty under the test-data directory is read from the name as a full path. |
| ManageTestData.EnvOverlayExample | lib/manage_test_data.py:50-60 | For the documented example, the `dev` section's args are merged over the base args, and the `dev` section stays in the data. |
| ManageTestData.DecoratedKwargs | lib/manage_test_data.py:21-30 | The decorator passes the caller's keyword arguments with the overlay's keys winning. It fails exactly when the overlay fails. |
| ManageTestData.GetExpectedResponse | lib/manage_test_data.py:63-79 | No test data fails the assertion. A result is produced only when test data is given. |
| ManageTestData.ExpectedResponseChoice | lib/manage_test_data.py:72-79 | Two dicts are merged with the environment entry winning. Otherwise the non-empty environment entry is taken, then the non-empty common entry, then nothing. |
| ManageTestData.ExpectedResponseAbsent | lib/manage_test_data.py:72-74 | An entry absent everywhere gives an empty dict, not nothing. |
| TestSuiteConfig.ParseSelectedSuites | lib/test_suite_config.py:72-79 | A missing or empty `suite` gives no suites. Otherwise the result is the comma-separated names in order, none containing a comma. |
| TestSuiteConfig.ParseSelectedSuitesRoundTrip | lib/test_suite_config.py:78-79 | Names joined with commas parse back to the same names. |
| TestSuiteConfig.SuiteFileName | lib/test_suite_config.py:49 | `.json` is appended exactly when the name does not already contain it. |
| TestSuiteConfig.MissingSuiteFile | lib/test_suite_config.py:47-54 | A suite file that does not exist contributes no tests, unless its path contains `auth.json`. Then the run exits. |
| TestSuiteConfig.AuthSuiteExits | lib/test_suite_config.py:49-50 | The suite `auth` reads `auth.json`. When that file is missing the run exits with status 1. |
| TestSuiteConfig.RunTestsSnoc | lib/test_suite_config.py:47-54 | One more suite appends its `run_tests` entries at the end. |
| TestSuiteConfig.RunTestsConcat | lib/test_suite_config.py:47-54 | The tests of `a + b` are the tests of `a` followed by those of `b`, duplicates kept. |
| TestSuiteConfig.ConcatenatedAppend | lib/test_suite_config.py:47-54 | For any way of loading one suite, the tests of `a + b` are those of `a` followed by those of `b`. |
| TestSuiteConfig.RunTestsPrefixError | lib/test_suite_config.py:47-54 | A suite file that fails stops the collection with its error. |
| TestSuiteConfig.CollectRunTests | lib/test_suite_config.py:47-54 | The loop that extends `run_tests` equals the concatenation in suite order. |
| TestSuiteConfig.CollectSuiteAt | lib/test_suite_config.py:47-54 | One turn of the loop extends the tests collected so far to those of one more suite, or gives that suite's error. |
| TestSuiteConfig.FirstMatch | lib/test_suite_config.py:62-63 | The result is the first data file whose path contains the wanted name, or none exactly when no path contains it. |
| TestSuiteConfig.SuiteWithoutDefaults | lib/test_suite_config.py:65-66 | Without a matching defaults file, the suite entry is unchanged. |
| TestSuiteConfig.SuiteDefaultsWin | lib/test_suite_config.py:61-66 | With a defaults file, the file's keys win, and the catalogue keeps its other keys. |
| TestSuiteConfig.BaseConfigSuites | lib/test_suite_config.py:42 | `suites` holds the merged resource catalogue. |
| TestSuiteConfig.ConfigLayers | lib/test_suite_config.py:40-54 | `environment` is the argument's, `run_tests` is the collected list (set last), and every other argument passes through. |
| TestSuiteConfig.AddSuiteDefaults | lib/test_suite_config.py:61-66 | It succeeds exactly when `SuiteWithDefaults` succeeds for every suite. On success, each suite's entry is that function's result: its `<suite>_<env>.json` defaults file merged over it, the file winning. On failure the error is that of some failing suite. |
| TestSuiteConfig.LoadSuiteConfig | lib/test_suite_config.py:34-69 | `load_suite_config` yields exactly the specified outcome. |
| TestSuiteConfig.SuiteConfigResolver.constructor | lib/test_suite_config.py:34 | The cache starts empty. |
| TestSuiteConfig.CacheValidExtend | lib/test_suite_config.py:34 | Caching a configuration that loading gives for its arguments keeps every cached entry correct. |
| TestSuiteConfig.SuiteConfigResolver.Resolve | lib/test_suite_config.py:34-69 | Unhashable arguments raise `TypeError`. A cached argument set returns its cached result. A new success is cached, a failure is not, and cached entries never change. |
| GetEndpoint.MergeOverrides | lib/get_endpoint.py:32-43 | `{**a, **b}` holds the keys of both, and `b` wins on shared keys. |
| GetEndpoint.SuiteLevelData | lib/get_endpoint.py:52-65 | The base URL is `<env>_baseurl` when present, else `baseurl` with `{environment}` filled in. Args, params and headers default to empty dicts. |
| GetEndpoint.Layer | lib/get_endpoint.py:75-78 | The environment section overrides the base section key by key. It fails exactly when either is not a dict. |
| GetEndpoint.DataPayload | lib/get_endpoint.py:81-88 | Two dicts merge with the environment winning. A dict base with a non-dict override stays. Otherwise the non-empty override is serialised, else the non-empty base, else `{}`. |
| GetEndpoint.JsonPayload | lib/get_endpoint.py:90-94 | Two dicts merge with the environment winning. Otherwise the non-empty override is taken, else the base value or `{}`. |
| GetEndpoint.InternalTestData | lib/get_endpoint.py:68-96 | The environment section is looked up by value and must be a dict. Args, params and headers are its key-by-key overrides of the base layers. |
| GetEndpoint.BothPayloadsSent | lib/get_endpoint.py:81-94 | Nothing stops test data from sending both a form and a JSON payload. |
| GetEndpoint.EndpointArgs | lib/get_endpoint.py:32-34 | Path arguments: command-line args win over call-site args, which win over test-data args, which win over suite args. |
| GetEndpoint.RequestHeaders | lib/get_endpoint.py:43 | Headers: auth wins over `add_headers`, which wins over test-data headers, which win over suite headers. |
| GetEndpoint.RequestMethod | lib/get_endpoint.py:45-46 | The method is the explicit one when given, else the declared one. It is always lower case. |
| GetEndpoint.Prepare | lib/get_endpoint.py:22-37 | The suite is `configs['suites'][suite]`. The level is that suite's `SuiteLevelData`. The test data is `InternalTestData` of the environment and kwargs. The args are `EndpointArgs` of the suite, test-data, input and command-line layers. The params are the suite params overridden by the test-data params. The declared entry is `DeclaredEndpoint`, which is `suite['endpoints'][endpoint]` (lines 39 and 45). An `env` keyword is a duplicate-argument `TypeError`. |
| GetEndpoint.BuildEndPoint | lib/get_endpoint.py:11-46 | The endpoint's uri is the base URL followed by the formatted path. Its headers are `RequestHeaders` of the suite, test-data, `add_headers` and auth layers (line 43), later layers winning. Its method is `RequestMethod`: the explicit method if given, else the declared one (line 45), lower-cased. |
| GetEndpoint.MissingPlaceholderFails | lib/get_endpoint.py:39-40 | A path placeholder that no argument layer provides fails with `KeyError` naming it. |
| GetEndpoint.SendAsWritten | lib/get_endpoint.py:49 | A transport response is passed through. A call that raised becomes `TypeError`, because the transport builds the sentinel response without `headers`. |
| GetEndpoint.Send | lib/get_endpoint.py:49 | The corrected send that the rest of the model uses (see Findings). A transport response is passed through. A call that raised becomes the intended `555` sentinel response. It agrees with `SendAsWritten` wherever that succeeds. |
| GetEndpoint.CallEndpointAsWritten | lib/get_endpoint.py:11-49 | As written, the call fails exactly when building fails (with the same error) or the transport raises (as `TypeError`). On success the result is the transport's response to the built endpoint, and agrees with `CallEndpoint`. |
| GetEndpoint.CallEndpoint | lib/get_endpoint.py:11-49 | With the corrected sentinel, the call fails exactly when building the endpoint fails, with the same error. On success the result is `Send` of the built endpoint. A missing auth file always fails it. |
| GetEndpoint.SuiteBaseUrl | lib/get_endpoint.py:108 | A suite must be a dict with `baseurl`. A non-dict suite is a `TypeError`, and a dict without the key raises `KeyError('baseurl')`. |
| GetEndpoint.StampEndpoint | lib/get_endpoint.py:110-114 | Stamping succeeds exactly when the declaration is a dict with a `path`. |
| GetEndpoint.StampedFields | lib/get_endpoint.py:110-114 | A stamped endpoint keeps its declared fields. It gains its suite, its key, the base URL in front of its path, and `GET` when no method is declared. |
| GetEndpoint.StampedSuite | lib/get_endpoint.py:105-116 | A suite entry holds the endpoint keys and `suite`. It names the suite unless an endpoint took that key. |
| GetEndpoint.StampEndpoints | lib/get_endpoint.py:107-115 | The inner loop gives the stamped suite exactly when every endpoint stamps. Otherwise it gives the error of some failing endpoint. |
| GetEndpoint.StampEach | lib/get_endpoint.py:107-115 | For any stamping function, the loop gives the suite name plus every stamped endpoint when all stamp. Otherwise it gives the error of one endpoint that fails. |
| GetEndpoint.EndpointSuites | lib/get_endpoint.py:99-117 | The catalogue loop succeeds exactly when every suite can be stamped, and gives each suite's stamped entry. Otherwise it gives the error of some failing suite. |
| GetEndpoint.BaseUrlRemoved | lib/get_endpoint.py:107-116 | No catalogue entry holds `baseurl` unless an endpoint is named so. The in-place `del` on the resource configuration itself is not modelled (see below). |
| GetEndpoint.CatalogEntryStamped | lib/get_endpoint.py:105-116 | Every catalogue endpoint knows its suite, its key and its full URL template, and has a method. |
| GetEndpoint.EndpointNamedSuite | lib/get_endpoint.py:105-116 | An endpoint declared under the key `suite` replaces the suite's name in the entry. |
| GetEndpoint.StampedSuiteFrom | lib/get_endpoint.py:107-115 | A dict agreeing with the stamped suite at every key is the stamped suite. |
| GetEndpoint.OverlayFrom | lib/get_endpoint.py:107-115 | The same holds for any stamping function. |
| GetEndpoint.StampedSuiteAt | lib/get_endpoint.py:110-115 | The stamped suite at an endpoint key is that endpoint stamped. |
| GetEndpoint.SameEntries | lib/get_endpoint.py:105-116 | Two dicts with the same keys and values are equal. |
| TestLauncher.AllTests | test_launcher.py:42 | All tests of a class: one reference `module.Class.method` per method, in loader order. |
| TestLauncher.TestSuite.constructor | test_launcher.py:36 | A new suite is empty. |
| TestLauncher.TestSuite.AddTest | test_launcher.py:65 | `addTest` appends one reference. |
| TestLauncher.TestSuite.AddTests | test_launcher.py:42 | `addTests` appends the references in order. |
| TestLauncher.DottedNameAsLogger | test_launcher.py:77 | The launcher's dotted file name equals the logger's, although the separators are replaced in the other order. |
| TestLauncher.ModuleName | test_launcher.py:77-78 | The module name has no separators. When `.test.` occurs it is the text after its first occurrence (`Logger.AfterMarker`), which starts with `test.`. Otherwise it is the whole dotted path. |
| TestLauncher.ModuleNameIsSourcePath | test_launcher.py:77-78 | With `.test.` in the path, the module name is the logger's source path. |
| TestLauncher.ImportedModules | test_launcher.py:76-80 | A module is imported exactly when some test file derives it and the run list is empty or names it. |
| TestLauncher.FindAndImportModules | test_launcher.py:69-80 | The import loop equals the specification. |
| TestLauncher.ImportAllWithoutRunList | test_launcher.py:79 | With an empty run list, every test file's module is imported. |
| TestLauncher.Loaded | test_launcher.py:37 | The classes seen are exactly the defined classes whose module was imported, in order. |
| TestLauncher.AddRunEntry | test_launcher.py:25-30 | An entry succeeds exactly when it is a mapping with a hashable `module`. The module is appended to the run list. |
| TestLauncher.CollectRunFilters | test_launcher.py:23-30 | The loop that fills `run_modules` and `run_classes` equals the entry-by-entry specification. |
| TestLauncher.CollectFiltersModules | test_launcher.py:25-27 | The run list holds every entry's module, in order. |
| TestLauncher.CollectFiltersLastWins | test_launcher.py:30 | A module's class filter comes from its last entry. |
| TestLauncher.NonMappingEntryFails | test_launcher.py:26-29 | A `run_tests` entry that is not a mapping raises `AttributeError`. |
| TestLauncher.CollectFiltersPrefixError | test_launcher.py:25-30 | A failing entry stops the collection with its error. |
| TestLauncher.MethodRefs | test_launcher.py:64-66 | The references are one per listed method, in listed order. The step succeeds whenever every method name is a string. |
| TestLauncher.OutsideTestPackage | test_launcher.py:38 | A class outside the `test.` package contributes nothing. |
| TestLauncher.NoFilterAllTests | test_launcher.py:39-42 | A class whose module has no class filter, or an empty one, contributes all its tests. |
| TestLauncher.ListedMethodsOnly | test_launcher.py:57-66 | A filter that names the class with methods selects exactly those methods, in listed order. |
| TestLauncher.ListedClassAllTests | test_launcher.py:58-62 | A filter that names the class without methods selects all its tests. |
| TestLauncher.UnlistedFoldNothing | test_launcher.py:57-66 | Entries that all name other classes add no test for the class. |
| TestLauncher.UnlistedClassNothing | test_launcher.py:57-66 | A class whose module's non-empty filter never names it gets no tests. |
| TestLauncher.NullClassFilterFails | test_launcher.py:39-44 | `"classes": null` adds every test, then fails with `TypeError`. |
| TestLauncher.DiscoveryExample | test_launcher.py:25-66 | An entry for `test.m` selecting method `a` of class `T` plans exactly `test.m.T.a`. |
| TestLauncher.AddMethodRefs | test_launcher.py:64-66 | The inner loop appends exactly the method references to the suite, or reports their error. |
| TestLauncher.AddForClassEntry | test_launcher.py:58-66 | One filter entry appends `ForClassEntry` or reports its error. `ForClassEntry` adds nothing for another class. For this class it adds all tests when no methods are listed, then each listed method. |
| TestLauncher.AddConfiguredTestMethods | test_launcher.py:49-66 | The suite grows by exactly `Configured`, or reports its error. `Configured` is the entries of the class filter folded through `ForClassEntry` in order. |
| TestLauncher.AddClassEntries | test_launcher.py:57-66 | The loop over the class filter's entries grows the suite by exactly the fold of their selections, or stops with the first error. |
| TestLauncher.AddClassEntryAt | test_launcher.py:57-66 | One turn of that loop extends the suite to the selection of one more entry, or reports that entry's error. |
| TestLauncher.ConfiguredFoldStep | test_launcher.py:57-66 | One more filter entry extends the selection by what that entry selects. |
| TestLauncher.ConfiguredFoldPrefixError | test_launcher.py:57-66 | A failing filter entry stops the selection with its error. |
| TestLauncher.MethodRefsPrefixError | test_launcher.py:64-66 | A method name that is not text stops the step with its error. |
| TestLauncher.SuitePlanPrefixError | test_launcher.py:37-44 | A failing class stops the plan with its error. |
| TestLauncher.PlanClasses | test_launcher.py:36-46 | The class loop gives exactly the suite plan: the `ClassPlan` of each class, in order. A class outside `test.` gives nothing. A class whose module has no filter, or an empty one, gives all its tests. The filter's selection comes after those. |
| TestLauncher.FindTestClasses | test_launcher.py:14-46 | `find_test_classes` equals `FindTestClassesSpec`: collect the `run_tests` filters, import the modules they name, then take the suite plan of the loaded classes. |
| TestLauncher.Found | test_launcher.py:92-99 | Every reference found matches the search term. |
| TestLauncher.FoundExactly | test_launcher.py:92-99 | A reference is listed exactly when it matches the term and names a method of a loaded class in the `test` package. |
| TestLauncher.FoundIn | test_launcher.py:94-99 | Each reference found for a class matches the term and names one of its methods. |
| TestLauncher.FoundInExactly | test_launcher.py:94-99 | A reference is found for a class exactly when it matches the term and names one of the class's methods. |
| TestLauncher.SearchClass | test_launcher.py:94-99 | The inner search loop gives exactly the class's matching references, in order. |
| TestLauncher.TestsList | test_launcher.py:84-100 | The search imports every test module, then lists the matching tests in discovery order. |
| TestLauncher.ListClassAt | test_launcher.py:94-99 | One turn of the outer search loop extends the list to the matches of one more class, in discovery order. |
| TestLauncher.StarFindsAll | test_launcher.py:97 | Searching for `*` lists every test of the class. |
| TestLauncher.SearchIgnoresCase | test_launcher.py:97 | An upper-cased search term finds the same tests. |
| TestLauncher.SearchIgnoresCaseIn | test_launcher.py:97 | The same holds within one class. |
| TestLauncher.LowerUpper | test_launcher.py:97 | Lower-casing after upper-casing is lower-casing. |
| TestLauncher.AddTestsToSuite | test_launcher.py:103-112 | The suite holds one entry per name, in the given order. Resolving a name is left out (see below). |
| TestLauncher.RunTestSuiteSpec | test_launcher.py:126-146 | Search mode lists and exits before anything is planned. A failing suite configuration fails the run. A non-empty `add_tests` is split on commas. Otherwise the plan of `find_test_classes` is used. |
| TestLauncher.RunTestSuite | test_launcher.py:126-146 | The launcher equals its specification up to the runner. |
| TestLauncher.AddTestsRoundTrip | test_launcher.py:140-143 | Joining the ad-hoc plan with commas gives back the argument. |
| PyStrings.FindFrom | test_launcher.py:78 | `str.find` from a start: the first occurrence at or after it, or -1. |
| PyStrings.Find | test_launcher.py:78 | `str.find` is -1 exactly when the text does not occur. Otherwise it is the first occurrence. |
| PyStrings.Split | lib/test_suite_config.py:79 | `str.split(sep)` has at least one part, and no part holds the separator. |
| PyStrings.JoinSplit | test_launcher.py:143 | Joining the split parts gives back the text. |
| PyStrings.SplitFirst | lib/test_suite_config.py:79 | With a separator present, the first part ends just before the first separator, and the rest is split after it. |
| PyStrings.JoinCons | test_launcher.py:143 | Joining a part in front of at least one more puts the separator between them. |
| PyStrings.JoinPrefix | lib/utils.py:123-128 | A joined text starts with its first part, the separator and any prefix of its second part. |
| PyStrings.SplitJoin | lib/test_suite_config.py:79 | Splitting joined separator-free parts gives back the parts. |
| PyStrings.SplitAtFirst | lib/test_suite_config.py:79 | Splitting at a first separator gives the head, then the split of the tail. |
| PyStrings.Lower | test_launcher.py:97 | `str.lower` maps each character. |
| PyStrings.Upper | lib/manage_test_data.py:50 | `str.upper` maps each character. |
| PyStrings.LowerIdempotent | lib/utils.py:138 | Lower-casing twice is lower-casing once. |
| PyStrings.LowerKeeps | lib/utils.py:138 | Lower-casing keeps what is present and adds no character other than a lower-case letter. |
| PyStrings.ReplaceCharAt | lib/logger.py:143 | Replacing one character by another changes exactly the positions holding it. |
| PyStrings.ReplaceCharRemoves | lib/logger.py:143 | After the replacement, the replaced character is gone. |
| PyStrings.RemoveChar | lib/utils.py:138 | Removing a character leaves none of it. |
| PyStrings.ReplaceAbsent | lib/logger.py:143 | Replacing a pattern that does not occur changes nothing. |
| PyStrings.ReplaceFront | lib/logger.py:143 | An occurrence at the front is replaced, and the scan resumes after it. |
| PyStrings.ReplaceSkip | lib/logger.py:143 | Without an occurrence at the front, the first character is kept and the scan resumes at the next one. |
| PyStrings.ReplaceToDotCommute | test_launcher.py:77 | Turning two characters into dots gives the same text in either order. |
| PyStrings.CharSubstring | lib/get_endpoint.py:40 | A character occurs as a one-character substring exactly where it is. |
| JsonValue.Chars | test/company_tasks_svc/test_search_company_tasks.py:266 | Iterating a string gives one item per character. |
| SearchCompanyTasks.PickMembers | test/company_tasks_svc/test_search_company_tasks.py:221-247 | `Pick` (an `append` guarded by `not in`) collects a task exactly when it is in the input and is kept. |
| SearchCompanyTasks.PickDistinct | test/company_tasks_svc/test_search_company_tasks.py:221-247 | Each task is collected at most once. |
| SearchCompanyTasks.PickSubsequence | test/company_tasks_svc/test_search_company_tasks.py:221-247 | The collected tasks keep the input order. |
| SearchCompanyTasks.SubsequenceAppend | test/company_tasks_svc/test_search_company_tasks.py:221-247 | A subsequence stays one when the input grows at the end. |
| SearchCompanyTasks.SubsequenceDropLast | test/company_tasks_svc/test_search_company_tasks.py:221-247 | Dropping the last element of a subsequence leaves a subsequence. |
| SearchCompanyTasks.PickTwice | test/company_tasks_svc/test_search_company_tasks.py:221-285 | Filtering the candidates again is filtering once by both conditions. |
| SearchCompanyTasks.FieldTablesInverse | test/company_tasks_svc/test_search_company_tasks.py:217-220 | The field-to-argument and argument-to-field tables are inverse. An unknown name raises `KeyError` with that name. |
| SearchCompanyTasks.MatchAssignees | test/company_tasks_svc/test_search_company_tasks.py:228-247 | The assignee loop of the candidate phase equals its specification. |
| SearchCompanyTasks.AssigneeMatchPrefixError | test/company_tasks_svc/test_search_company_tasks.py:228-247 | A failing assignee stops the loop with its error. |
| SearchCompanyTasks.MatchItem | test/company_tasks_svc/test_search_company_tasks.py:222-247 | One task item's verdict equals `KeyMatch`. A searchable key tests membership of its value in the mapped argument list, when that list is truthy. Otherwise `assignees` is scanned for `advSecGuids`, or else for `ueids`, in that elif order. Any other key does not match. |
| SearchCompanyTasks.MatchTask | test/company_tasks_svc/test_search_company_tasks.py:222-247 | A task matches when some field matches and none fails. Otherwise the result is the error of some failing field. |
| SearchCompanyTasks.CollectCandidates | test/company_tasks_svc/test_search_company_tasks.py:221-247 | The candidates are the matching tasks in order. If a task's test fails, the result is that task's error. |
| SearchCompanyTasks.CollectAssignees | test/company_tasks_svc/test_search_company_tasks.py:257-261 | The `advSecGuids` assignee loop equals its specification. |
| SearchCompanyTasks.CollectedPrefixError | test/company_tasks_svc/test_search_company_tasks.py:257-261 | A failing assignee stops that loop with its error. |
| SearchCompanyTasks.ScanUeids | test/company_tasks_svc/test_search_company_tasks.py:270-279 | The `ueids` assignee loop equals `UeidScan`. That scan collects each assignee's ueid. After each assignee it tests the intersection with the listed ueids. Any empty intersection drops the task. |
| SearchCompanyTasks.UeidScanPrefixError | test/company_tasks_svc/test_search_company_tasks.py:270-279 | A failing assignee stops that loop with its error. |
| SearchCompanyTasks.DropItem | test/company_tasks_svc/test_search_company_tasks.py:254-283 | One search argument's removal test equals its specification. |
| SearchCompanyTasks.DropTask | test/company_tasks_svc/test_search_company_tasks.py:253-283 | A task is dropped when some argument drops it and none fails. Otherwise the result is the error of some failing argument. |
| SearchCompanyTasks.RemoveFirstAfter | test/company_tasks_svc/test_search_company_tasks.py:283 | `RemoveFirst`, the model of `list.remove`, deletes exactly the first occurrence. |
| SearchCompanyTasks.SurvivorsStep | test/company_tasks_svc/test_search_company_tasks.py:252-285 | Removing one dropped candidate from the working list extends the survivors by one step. |
| SearchCompanyTasks.RemoveCandidateAt | test/company_tasks_svc/test_search_company_tasks.py:252-285 | One turn of the removal loop keeps `new_list` equal to the survivors so far followed by the candidates still to come, or reports the candidate's error. |
| SearchCompanyTasks.RemovalFailureAt | test/company_tasks_svc/test_search_company_tasks.py:250-285 | When every earlier candidate was checked without error, the first failing check is a removal failure of the whole list. |
| SearchCompanyTasks.RemovalDone | test/company_tasks_svc/test_search_company_tasks.py:250-285 | Once every candidate is checked, `new_list` holds exactly the survivors. |
| SearchCompanyTasks.RemoveUnmatched | test/company_tasks_svc/test_search_company_tasks.py:250-285 | The removal loop leaves exactly the candidates no argument drops, in order. Otherwise it fails with the error of some failing candidate. |
| SearchCompanyTasks.SearchArgs.constructor | test/company_tasks_svc/test_search_company_tasks.py:201 | The search arguments hold the given entries. |
| SearchCompanyTasks.SearchListOfTasks | test/company_tasks_svc/test_search_company_tasks.py:201-285 | `pageRequest` is removed in place when truthy. The result satisfies `SearchOutcome`. With no truthy `companyid` that is `[]`. Otherwise it is a failing candidate's error, the survivors of the removal phase, or a failing removal check's error. |
| SearchCompanyTasks.NoCompanyNoTasks | test/company_tasks_svc/test_search_company_tasks.py:212-213 | Without `companyid` the result is exactly the empty list. |
| SearchCompanyTasks.SearchResultShape | test/company_tasks_svc/test_search_company_tasks.py:221-285 | A result holds only input tasks, each at most once, in input order. A task is in it exactly when it matches and is not dropped. |
| SearchCompanyTasks.UnknownFieldFails | test/company_tasks_svc/test_search_company_tasks.py:222-224 | A task field the tables do not know raises `KeyError`. |
| SearchCompanyTasks.CollectedListed | test/company_tasks_svc/test_search_company_tasks.py:257-261 | The collected guids are listed ones. They are non-empty exactly when some assignee's guid is listed. |
| SearchCompanyTasks.AdvSecGuidsRule | test/company_tasks_svc/test_search_company_tasks.py:255-269 | For `advSecGuids`, a task is dropped exactly when no assignee's guid is listed. |
| SearchCompanyTasks.IntersectsListed | test/company_tasks_svc/test_search_company_tasks.py:262-266 | Guids taken from a plain search list share an element with it exactly when there is at least one. |
| SearchCompanyTasks.UeidScanListed | test/company_tasks_svc/test_search_company_tasks.py:270-279 | The `ueids` scan decides from the first assignee alone. |
| SearchCompanyTasks.UeidsFirstAssigneeRule | test/company_tasks_svc/test_search_company_tasks.py:270-279 | For `ueids`, a task without assignees is kept. Otherwise it is dropped exactly when its first assignee's ueid is not listed. |
| SearchCompanyTasks.FieldRule | test/company_tasks_svc/test_search_company_tasks.py:280-283 | For a plain key, a task is dropped exactly when its mapped field is not in the list. |

## Left out

- HTTP transport, Kafka and Avro: the transport is a parameter `EndPoint -> TransportOutcome`. Reflection-based dispatch in `send_request` and response parsing are not part of this model.
- File reads: the file system is a map from path to contents (parsed JSON, or malformed text). Directory paths are built as strings.
- JSON serialisation is a parameter `dumps`, and `str()` of a response field is a parameter `render`. Floats are not in the JSON model.
- Python's `1 == True` equality and hashing of mixed keys are not modelled. Dict iteration order is lost. Where order decides which exception a loop raises, the contract says only that it is the error of some failing entry.
- Iterating a non-empty dict (for example a dict given where a list of values is expected) is reported as `Unsupported`.
- `str.format`: only named fields and doubled braces are modelled. Attribute, index, conversion and format specifications are reported as `Unsupported`.
- Case mapping covers ASCII letters only.
- `importlib`, `glob` and `loadTestsFromName`: the test files and the classes they define are inputs, and the glob order is the input order. Import side effects are not modelled. `TestLauncher.AddTestsToSuite` adds one entry per `--add_tests` name without resolving it. `loadTestsFromName` raises `ValueError` on an empty name (for example `a,,b`), and the model does not capture that. An unresolvable name becomes a failing test.
- `TextTestRunner`, printing, `exit(0)` after a search, and the `trace`/`headline` decorators are I/O. The launch result stops at the plan or the listing.
- `get_logger_config`, `get_basic_auth_key`, the argparse surface (`get_args_dict` is an input map) and `update_auth.py` are not part of this model.
- `lru_cache` is a map from argument set to result inside `SuiteConfigResolver`. Eviction is not modelled. The returned `MappingProxyType` is the map value itself, which cannot be changed.
- `endpoint_suites` changes the resource configuration in place. The model returns the new catalogue and does not model the aliasing with later reads of that configuration.
- `get_endpoint.py` converts the catalogue with `tupleware`. The request assembly reads the catalogue as plain dicts, which `Tupleware.TuplewareRoundTrip` shows loses nothing.
- `slice_generator` takes a generator. The model takes the sequence of items.
- Tupleware.Tupleware: `set`, `tuple` and `frozenset` are not JSON values, so only lists are modelled. Field-name validity is checked for ASCII identifiers.
- SearchCompanyTasks.RemoveUnmatched: requires distinct candidates, which `CollectCandidates` guarantees. Dict-valued task fields compared by `in` are handled by JSON equality.
- GetEndpoint.Send: a transport call that raised gives the corrected `555` sentinel response. As written, the transport raises `TypeError` (see Findings); `GetEndpoint.SendAsWritten` models that.
- GetEndpoint.CallEndpoint: built on the corrected `Send`, so it does not fail when the transport raises. The call as written does fail then, with `TypeError`; `GetEndpoint.CallEndpointAsWritten` models that.
- Utils.UpdateArg: `dict.update` from a sequence of pairs (a list, or a string such as `""`) is not modelled. It is reported as `Unsupported`, although Python accepts an empty or pair sequence.
- The `data`/`json` payload model does not check that exactly one is set. The code does not check it either (`GetEndpoint.BothPayloadsSent`).

## Findings

| source | as written | input that shows it | evidently intended | confidence | as-written member | corrected member |
|---|---|---|---|---|---|---|
| lib/web_service_client.py:36 | When the request raises, the transport builds `HttpResponse(env=..., url=..., status=SERVER_ERROR_STATUS, error=...)` without the required `headers` field, so the constructor raises `TypeError`. The same holds at lines 48, 65, 86, 99, 120, 132, 152 and 164. | any endpoint whose request raises, for example a refused connection | a sentinel response with status `555`, the exception as its error and empty headers | not executed | CommonNamedtuples.TransportErrorResponseAsWritten | CommonNamedtuples.TransportErrorResponse |
