# sparc.client in Dafny

A model of the core of `sparc.client`, the Python client of the NIH SPARC portal. It covers four parts:

- **Service registry and facade** (`SparcClient`). The client:
  - reads a ConfigParser file;
  - resolves `global.default_profile`;
  - walks the modules of the services package;
  - registers every concrete subclass of `ServiceBase` under its module name.

  It keeps the class-level `module_names` list, binds the instance (the last binding wins) and optionally connects each instance as it is built. `connect()` later replays the list. The abstract base `ServiceBase` and the package initialiser belong here too. The initialiser exports every class of every module, and since its loop runs at module level, the loop variables and each imported submodule end up in the package namespace as well.
- **MetadataService**. It tracks three fields, the API key, the profile name and `host_api`. Its search calls build URLs by string concatenation and classify HTTP outcomes (410 counts as success).
- **O2SparcService / O2SparcSolver**. These cover three things:
  - per-option resolution from the environment and the configuration;
  - the version taken from the SDK user agent;
  - the solver's job bookkeeping (input mapping, job list, results).
- **`get_version` of setup.py**: the first `__version__` line and its quoted token.

Python exceptions are `Err` values of `PyRuntime.Result`. The following are parameters: run-time reflection, the configuration file's contents, the environment, HTTP outcomes and every osparc SDK call.

Module layout, one file each:

| file | module | models |
|---|---|---|
| `py_runtime.dfy` | `PyRuntime` | `Option`, `Result`, Python exceptions, `dict.get` |
| `py_strings.dfy` | `PyStrings` | `str.strip`, `split()`, `split(sep)`, `startswith`, `upper`/`lower`, `str(int)` |
| `seq_util.dfy` | `SeqUtil` | last-write-wins assignment of a sequence of keys |
| `config_store.dfy` | `ConfigStore` | ConfigParser sections, including `DEFAULT` |
| `service_base.dfy` | `ServiceBase` | `_default.py`, `DummyService` |
| `reflection.dfy` | `Reflection` | modules and attributes as data |
| `client.dfy` | `Client` | `client.py` |
| `services_package.dfy` | `ServicesPackage` | `services/__init__.py` |
| `metadata.dfy` | `Metadata` | `services/metadata.py` |
| `o2sparc.dfy` | `O2Sparc` | `services/o2sparc.py` |
| `setup_version.dfy` | `SetupVersion` | `setup.py` `get_version` |

Each loop of the source is specified by a function that follows the loop step by step, as a front fold: `Client.Construct`, `Client.Replay` (the `connect()` loop), `ServicesPackage.ExportModules`, `O2Sparc.ResolveAll` (the option loop of the `O2SparcService` constructor), `O2Sparc.MapInputsFrom` and `O2Sparc.ResultsFrom`. The search loop of `get_version` is specified directly by the `ensures` of `SetupVersion.GetVersion`. The method that runs the loop (in a class over the source's fields where the source has one) is proved to end in exactly the state or result that function gives. Lemmas then state what the fold amounts to in closed form:

- registration count and order;
- last write wins;
- the connect schedule;
- key preservation.

## Model

| member | source | states |
|---|---|---|
| ServiceBase.RunBaseBody | src/sparc/client/services/_default.py:8 | every base body raises NotImplementedError |
| ServiceBase.ConcreteNeverRunsBase | src/sparc/client/services/_default.py:6-28 | in a non-abstract class, none of the six members falls through to a raising base body |
| ServiceBase.MissingMemberIsAbstract | src/sparc/client/services/_default.py:6-28 | a class that leaves any one of the six members unimplemented is abstract |
| ServiceBase.ServiceBaseIsAbstract | src/sparc/client/services/_default.py:5-8 | ServiceBase is a subclass of itself yet abstract, and every member of it runs the base body |
| ServiceBase.DummyCall | tests/dummyservices/dummymodule.py:5-24 | DummyService returns True from connect, the strings "info", "get_profile" and "set_profile", and None from `__init__` and close |
| ServiceBase.DummyServiceIsConcrete | tests/dummyservices/dummymodule.py:5 | DummyService subclasses ServiceBase and is not abstract |
| ConfigStore.SectionView | src/sparc/client/client.py:48 | `config[name]` exists iff the name is DEFAULT or a section; its keys are the DEFAULT keys plus the section's own, with the section's values taking precedence |
| ConfigStore.LookupInConfig | src/sparc/client/client.py:28 | `config[s][k]` raises KeyError(s) for a section that is neither DEFAULT nor in the file; otherwise it is the section's own option, else the DEFAULT option, else KeyError(k) |
| ConfigStore.EmptyConfigHasNoGlobal | src/sparc/client/client.py:23-28 | without a file, looking up `global.default_profile` raises KeyError("global") |
| SeqUtil.AssignIndexedLastWins | src/sparc/client/client.py:49 | after binding a sequence of names to successive indices, a name is bound iff it occurs, and then to its last occurrence |
| SeqUtil.AssignAllLastWins | src/sparc/client/services/__init__.py:18 | after assigning (key, value) pairs in order, the map holds the old keys plus the new ones, each new key bound to its last pair's value, and the other keys unchanged |
| SeqUtil.AssignAllOnKey | src/sparc/client/services/__init__.py:18 | what a run of assignments leaves under a key depends only on the assignments to that key, in order |
| Client.QualifyingInAppend | src/sparc/client/client.py:39-45 | the qualifying classes of a concatenation of attribute lists are those of the first list followed by those of the second |
| Client.QualifyingInSingle | src/sparc/client/client.py:39-45 | one attribute qualifies as exactly itself, paired with the module name, when it is a concrete ServiceBase subclass, and contributes nothing otherwise |
| Client.QualifyingAppend | src/sparc/client/client.py:35-45 | the qualifying classes of a concatenation of module lists are those of the first list followed by those of the second |
| Client.QualifyingSingle | src/sparc/client/client.py:35-45 | one module contributes exactly its own qualifying attributes, in dir order |
| Client.RunAttrsRegisters | src/sparc/client/client.py:39-51 | the inner loop registers exactly the module's qualifying classes, in dir order |
| Client.RunModulesRegisters | src/sparc/client/client.py:35-51 | without import failures, the walk registers exactly the qualifying classes of all modules, in visiting order |
| Client.RunModulesAbsorbs | src/sparc/client/client.py:35-51 | once an exception has been raised, no later module changes anything |
| Client.ScheduleAt | src/sparc/client/client.py:48-51 | the event schedule alternates build i and connect i when connecting, and is the builds alone otherwise |
| Client.RegisterClean | src/sparc/client/client.py:47-51 | a registration in which nothing raises appends the module names, builds one instance per class, binds last-write-wins and logs the schedule |
| Client.RegisterFailsIffUnclean | src/sparc/client/client.py:47-51 | registration raises iff some class raises in its constructor (or in connect, when connecting) or the profile section is missing |
| Client.ConstructClean | src/sparc/client/client.py:17-51 | a clean construction ends in the closed-form state: names, bindings, instances built with connect=False and the profile section, and the event schedule |
| Client.RegistrationCountAndOrder | src/sparc/client/client.py:47-48 | one module_names entry and one instance per qualifying class, in order, after the earlier entries; each instance built with connect=False and the same section |
| Client.LastRegistrationWins | src/sparc/client/client.py:49 | a module name is bound iff a qualifying class came from it, and then to the last such instance; a later class of the same module overwrites an earlier one |
| Client.EagerConnectSchedule | src/sparc/client/client.py:50-51 | with connect=True each instance's connect() is called once, immediately after it is built and before the next class; with connect=False it is never called |
| Client.NoConfigFileRaises | src/sparc/client/client.py:20-21 | a missing or empty config path raises RuntimeError before any configuration or module is touched |
| Client.DefaultConfigFileGiven | src/sparc/client/client.py:17-28 | the default path "config/config.ini" passes the emptiness test; when it is not a file, construction raises KeyError("global") with module_names untouched |
| Client.MissingGlobalProfileRaises | src/sparc/client/client.py:25-28 | a missing global section or default_profile key raises that KeyError without touching module_names; a path that is not a file always raises KeyError("global") |
| Client.MissingProfileSection | src/sparc/client/client.py:47-48 | a profile naming no section raises KeyError at the first qualifying class, after its name was appended; with no qualifying class, construction succeeds |
| Client.ConstructSucceedsIffClean | src/sparc/client/client.py:17-51 | with a readable profile and no import failure, construction succeeds iff nothing raises and a section exists whenever a class needs one |
| Client.ImportFailureStopsWalk | src/sparc/client/client.py:35-38 | a module whose import raises stops construction with that module's own import error, keeping what the earlier modules registered; later modules are not read |
| Client.PackageImportedFirst | src/sparc/client/client.py:10 | when the package's import-time walk over the same modules succeeded (it runs first, through `from .services import *`), construction registers exactly the qualifying classes of all modules, so it meets no import failure |
| Client.InstancesAreConcrete | src/sparc/client/client.py:41-49 | every instance the client holds, even after an error, is of a ServiceBase subclass that overrides all six members, and every binding is valid |
| Client.AccumulatesAcrossClients | src/sparc/client/client.py:15 | module_names is shared: a second client over the same modules appends the same names again |
| Client.ReplayConnectsEachName | src/sparc/client/client.py:53-55 | when every name is bound and nothing raises, connect() calls the bound instance once per list entry, in list order, and nothing else |
| Client.DuplicateNameConnectsTwice | src/sparc/client/client.py:53-55 | a name listed twice connects the same instance twice |
| Client.SparcClient.New | src/sparc/client/client.py:17-51 | the constructor's loops end in exactly the state Construct gives; the shared list grows even when construction raises, and it raises iff Construct does |
| Client.SparcClient.RegisterClass | src/sparc/client/client.py:47-51 | one registration step appends the module name to the shared list, then ends in exactly the state and exception StepClass gives, keeping every binding valid |
| Client.SparcClient.Connect | src/sparc/client/client.py:53-55 | connect() appends exactly the Replay events, raises as Replay does, and leaves bindings and instances unchanged |
| Client.SparcClient.Alive | src/sparc/client/client.py:57-58 | alive() is always true |
| ServicesPackage.ClassPairsAppend | src/sparc/client/services/__init__.py:14-18 | the class exports of a concatenation of attribute lists are those of the first list followed by those of the second |
| ServicesPackage.ClassPairsSingle | src/sparc/client/services/__init__.py:16-18 | one attribute exports exactly (its name, its class) when it is a class, and nothing otherwise |
| ServicesPackage.ClassAttrsAppend | src/sparc/client/services/__init__.py:12-18 | the class exports of a concatenation of module lists are those of the first list followed by those of the second |
| ServicesPackage.ClassAttrsSingle | src/sparc/client/services/__init__.py:12-18 | one module exports exactly its own class attributes, in dir order |
| ServicesPackage.ExportAttrsAssigns | src/sparc/client/services/__init__.py:14-18 | for each attribute in dir order, the inner loop binds `attribute_name`, then `attribute`, then, for a class only, the attribute's own name |
| ServicesPackage.ExportIsAssignAll | src/sparc/client/services/__init__.py:12-18 | without import failures, the namespace is the in-order assignment of every binding the walk makes: per module `_`, `module_name`, `_`, the submodule under its name, `module`, then its attributes' bindings |
| ServicesPackage.WritesOnKey | src/sparc/client/services/__init__.py:12-18 | under a name that is neither a loop variable nor a module name, the walk makes exactly the class exports' assignments, in order |
| ServicesPackage.ClassView | src/sparc/client/services/__init__.py:12-18 | under such a name the final namespace agrees with assigning only the class exports |
| ServicesPackage.OrdinaryNamesBound | src/sparc/client/services/__init__.py:14-18 | for every name other than the loop variables and the module names, the namespace is the old one with each class name bound to its last class |
| ServicesPackage.WalkNamesBound | src/sparc/client/services/__init__.py:12-13 | after a walk over at least one module, every module name and the loop's `_`, `module_name` and `module` are bound |
| ServicesPackage.ExportedNamespace | src/sparc/client/services/__init__.py:12-18 | a name other than the loop variables and the module names is bound iff it was before or some class attribute has it, then to the last class of that name in visiting order, else to its old value; every module name, `_`, `module_name` and `module` end bound |
| ServicesPackage.ImportFailureStopsExport | src/sparc/client/services/__init__.py:12-13 | a module whose import raises stops the walk with that module's own import error; the namespace holds the earlier modules' bindings and the failing iteration's `_` and `module_name`, and nothing of later modules |
| ServicesPackage.ExportSucceedsIffImports | src/sparc/client/services/__init__.py:12-13 | the package's import-time walk raises nothing iff every module imports |
| ServicesPackage.Package.ExportClasses | src/sparc/client/services/__init__.py:12-18 | the import-time loop ends with exactly the namespace and error of ExportModules |
| Metadata.SuccessClassification | src/sparc/client/services/metadata.py:140-156 | a request succeeds iff it returned a response whose status is 410 or outside 400-599; a request exception is a failure |
| Metadata.FailedRequestRaises | src/sparc/client/services/metadata.py:160-165 | a connection failure and an HTTP 500 both raise instead of returning an empty result |
| Metadata.ReadResponseCorrects | src/sparc/client/services/metadata.py:217-222 | the corrected reading never raises AttributeError and differs from the written one exactly on failed requests |
| Metadata.BodyFormsAgree | src/sparc/client/services/metadata.py:181-185 | a dict body and a query text that decodes to that dict post the same JSON, and a dict body is always readable |
| Metadata.DefaultQueryMatchesAll | src/sparc/client/services/metadata.py:254 | the default query of search_datasets posts `{"query": {"match_all": {}}}` |
| Metadata.ListUrl | src/sparc/client/services/metadata.py:249 | the list URL starts with the search host and `?from=`; a None key raises TypeError |
| Metadata.ListQueryRoundTrip | src/sparc/client/services/metadata.py:249 | the query part parses back to exactly the offset, limit and key |
| Metadata.ListUrlRoundTrip | src/sparc/client/services/metadata.py:249 | the list URL carries exactly the requested offset, limit and key, whatever the key holds |
| Metadata.SearchUrl | src/sparc/client/services/metadata.py:272 | the search URL is the search host, `?key=` and the key; a None key raises TypeError |
| Metadata.MetadataService.Create | src/sparc/client/services/metadata.py:59-74 | with a config, the key and profile come from scicrunch_api_key and pennsieve_profile_name, and a missing profile name raises TypeError; without one both stay None; host_api starts at the default endpoint |
| Metadata.MetadataService.Connect | src/sparc/client/services/metadata.py:76-81 | connect() resets host_api to the default endpoint, returns it and leaves the key and profile unchanged |
| Metadata.MetadataService.Info | src/sparc/client/services/metadata.py:83-87 | info() performs the same reset and returns the default endpoint |
| Metadata.MetadataService.SetProfile | src/sparc/client/services/metadata.py:98-111 | set_profile(k) returns k, after which get_profile() returns k; host_api and the profile are unchanged |
| Metadata.MetadataService.ListDatasets | src/sparc/client/services/metadata.py:228-252 | list_datasets switches host_api to the search endpoint even when it then raises; it GETs a URL that parses back to the offset, limit and key, with the default headers, and reads its outcome with the corrected reading |
| Metadata.MetadataService.SearchDatasets | src/sparc/client/services/metadata.py:254-275 | search_datasets switches host_api to the search endpoint and POSTs the decoded body to the key URL with the default headers; a None key or an unreadable body raises before any request; the outcome is read with the corrected reading |
| Metadata.FieldStateMachine | src/sparc/client/services/metadata.py:76-115 | set_profile then get_profile returns the key; close() returns the search endpoint after a search and the default one after connect() or info(), and repeated close() calls agree |
| O2Sparc.ConfigNameOfLowerName | src/sparc/client/services/o2sparc.py:120-121 | the configuration key of a lower-case option name is `o2sparc_<name>` |
| O2Sparc.ResolveRule | src/sparc/client/services/o2sparc.py:119-122 | a non-empty environment value wins; otherwise the config value is used; the result is None iff neither has the option |
| O2Sparc.ResolveAllContents | src/sparc/client/services/o2sparc.py:118-124 | after the loop, a name is bound iff its resolved value is not None, and then to that value; other keys keep theirs |
| O2Sparc.ResolveOptions | src/sparc/client/services/o2sparc.py:118-124 | kwargs holds exactly the option names whose resolved value is not None, with those values |
| O2Sparc.DebugModeRule | src/sparc/client/services/o2sparc.py:130-131 | debug mode is on iff pennsieve_profile_name is "test"; with no config it is off, since the default is "prod" |
| O2Sparc.Info | src/sparc/client/services/o2sparc.py:144-146 | the result holds no '/', and a failure is IndexError |
| O2Sparc.InfoFailsIffNoSlash | src/sparc/client/services/o2sparc.py:146 | info() raises iff the user agent contains no '/' |
| O2Sparc.InfoIsSecondField | src/sparc/client/services/o2sparc.py:146 | info() is the field between the first and the second '/' |
| O2Sparc.InfoOfDefaultAgent | tests/test_o2sparc.py:81-84 | for the user agent "OpenAPI-Generator/0.5.0/python", info() is "0.5.0" |
| O2Sparc.O2SparcService.constructor | src/sparc/client/services/o2sparc.py:113-131 | host, username and password each hold their resolved value, and debug is the debug-mode rule |
| O2Sparc.O2SparcService.GetInfo | src/sparc/client/services/o2sparc.py:144-146 | info() returns the second '/'-separated field of the user agent |
| O2Sparc.O2SparcService.SetProfile | src/sparc/client/services/o2sparc.py:159-176 | set_profile stores username and password in the configuration, changes nothing else and returns what get_profile returns |
| O2Sparc.MapInputsOkIff | src/sparc/client/services/o2sparc.py:40-47 | input mapping succeeds iff no Path input is missing its file |
| O2Sparc.MapInputsFirstError | src/sparc/client/services/o2sparc.py:42-44 | on failure, the RuntimeError names the first input whose path is not a file |
| O2Sparc.MapInputsContents | src/sparc/client/services/o2sparc.py:39-47 | on success the key set is preserved, Path inputs are replaced by their upload and every other input is copied unchanged |
| O2Sparc.O2SparcSolver.SubmitJob | src/sparc/client/services/o2sparc.py:32-54 | a mapping failure or a create failure leaves the job list unchanged; otherwise the job list grows by exactly the created job with the mapped inputs, before start_job, and the job id is returned |
| O2Sparc.ResultsContents | src/sparc/client/services/o2sparc.py:83-91 | the results have exactly the output keys; downloadable entries become the downloaded path and the rest are returned unchanged |
| O2Sparc.O2SparcSolver.GetResults | src/sparc/client/services/o2sparc.py:74-91 | get_results raises RuntimeError when the job is not done; otherwise the result has exactly the keys of the outputs |
| SetupVersion.InnerSlice | setup.py:16 | `t[1:-1]` drops the first and last characters, and is empty for tokens of length two or less |
| SetupVersion.ExtractVersion | setup.py:16 | the extracted version contains no whitespace |
| SetupVersion.IndentedLineSkipped | setup.py:15 | the prefix test is on the raw line, so an indented line never matches |
| SetupVersion.GetVersion | setup.py:13-17 | the result comes from the first line that starts with `__version__`; it fails with an assertion iff no line does |
| SetupVersion.VersionLineRoundTrip | setup.py:15-16 | a line `__version__ = "<v>"` plus its terminator yields exactly v, for any version free of whitespace |

## Left out

- HTTP sessions, the retry and backoff configuration, and the `requests` calls of `getURL`/`postURL` are network I/O. What a request returned is a parameter (`HttpOutcome`), and JSON decoding of a response body or query text is given with it.
- The osparc SDK calls are foreign code. These are `ApiClient` and its pool, `get_my_profile`, `close`, `upload_file`, `download_file`, `create_job`, `start_job`, `inspect_job` and `get_solver_release`. The model takes their results as parameters: upload and download as functions, created and started as given outcomes, and `job_done` as a boolean. As a consequence:
  - `O2SparcService` `connect`, `get_profile` and `close` are not modelled as operations;
  - `get_solver` is not modelled;
  - the `connect` flag of the `O2SparcService` constructor is not modelled, because it only touches the SDK pool.
- `get_job_progress` is left out because it uses floating-point division. `get_job_log` is left out because it unpacks a zip file into a temporary directory.
- `services/osparc.py`, `services/pennsieve.py` and `zinchelper.py` are not part of this model.
- Metadata.MetadataService.ListDatasets: reads the request outcome with the corrected `ReadResponse`, so a failed request yields the empty JSON object; as written it raises AttributeError (`ReadResponseAsWritten`, see Findings).
- Metadata.MetadataService.SearchDatasets: reads the request outcome with the corrected `ReadResponse`, so a failed request yields the empty JSON object; as written it raises AttributeError (`ReadResponseAsWritten`, see Findings).
- ServicesPackage.ValueOf: the value `getattr` yields for a non-class attribute, and the module finder and `ispkg` flag bound to `_`, are placeholders; only class-ness is modelled. The names bound before the loop (the imports and `package_dir`) are part of the initial namespace given to `Package`.
- Python reflection is given as data: the modules `iter_modules` yields, what `import_module` raises for each (the exception the module's own body raises, as a value; its traceback is not modelled), the attributes in `dir` order, and each class's `issubclass`/`isabstract` facts.
- The contents of the configuration file are given, already parsed. ConfigParser's reading, interpolation and `optionxform` key lowering are not modelled.
- What a service constructor or `connect()` raises is abstracted to `ServiceError(class, operation)`.
- Logging is treated as a no-op. The argument of a log call is evaluated all the same, so `"Profile: " + None` raises TypeError. `metadata.py` calls `logging` without importing it, so as written every logging call raises NameError: in the constructor, in the 410 branch and every `except` handler of `getURL` and `postURL`, and in the handler for an unreadable query body. The AttributeError of the Findings, and the UnboundLocalError of an unreadable body, are therefore reached only once logging is importable. The model follows that evident intent.
- `SparcClient.connect` resolves names with `getattr` on the instance. Python falls back to class attributes there, which the model does not capture: a name never bound on this client raises AttributeError in the model.
- O2Sparc.O2SparcSolver.SubmitJob: uploads performed before a later input fails the mapping are not recorded as effects.
- O2Sparc.Downloadable: `dir(r)` of a dict lists its methods, not its keys. The attributes `dir` reports are given as data rather than derived.
- Python's `-O` flag, under which `assert False` in `get_version` does nothing, is not modelled. Reading the version file is not modelled either: its lines are the input.
- `setup()` and `get_long_description` of setup.py are packaging, and are left out.
- Tests that disagree with the code are not followed (`add_module`, `Agent`, other host URLs); the model follows the code. Service discovery visits modules in the order given. No lexical ordering is imposed, since `iter_modules` does not promise one.

## Findings

| source | as written | input that shows it | evidently intended | confidence | as-written member | corrected member |
|---|---|---|---|---|---|---|
| src/sparc/client/services/metadata.py:160-165 (the same at :217-222) | on failure `result = {}`, then `return result.json()` (once `logging` is importable; see Left out) | any request exception or a 4xx/5xx status other than 410, e.g. a connection failure or HTTP 500 | return an empty JSON result instead of raising | not executed | Metadata.ReadResponseAsWritten / Metadata.FailedRequestRaises | Metadata.ReadResponse / Metadata.ReadResponseCorrects |
