# python_factory core, modelled in Dafny

`python_factory` is an application-scaffolding library for web services. This
project models the parts of it that make decisions, and proves what they
promise:

- **The YAML configuration reader** (`YamlFileReader`), in module `YamlReader`.
  It descends into a parsed document along a dotted base key. It then rewrites
  every `${NAME}` / `${NAME:DEFAULT}` token from the environment, repeating
  until no token is left. It also classifies its failures.
- **The package configuration builder** (`build_config_from_file_in_package`),
  in module `Configs`. It reads a section of a file shipped in a package, with
  injection always on, and constructs a typed record from it. It has two
  configuration error kinds.
- **The application plugin manager** (`ApplicationPluginManagerAbstract`), in
  module `PluginsManager`. It reads the activation list and resolves each
  plugin in order, failing fast on the first that cannot be imported, does not
  conform, or refuses its pre-conditions. It runs the `on_load` and
  `on_startup` hooks over the accepted plugins in order.
- **The example book service** (`BookService`), in module `BookServices`. It is
  a table of books keyed by id, shared by every service instance. It has add,
  get, get-all, remove and update, and a counter per changing operation.
- **The ODM plugin builder** (`ODMBuilder`), in module `OdmPlugin`. It builds a
  configuration, a client and a database. An explicit argument wins over the
  stored field.
- **The OpenTelemetry plugin builder** (`OpenTelemetryPluginBuilder`), in module
  `OpenTelemetryPlugin`. It builds a resource and a configuration, then the
  meter and tracer providers behind ordered guards, and registers them with the
  API.

Each operation is first stated as a function on values: `Filter`, `Substitute`,
`Inject`, `Read`, `Resolve`, `AddBook`, `ClientOf`, `MeterProviderOf` and the
rest. The code that changes things step by step is then written as methods:

- the base-key loop;
- the substitution loop;
- the mapping rewrite;
- the plugin loop and the hook loops;
- the table updates;
- the builders' field updates.

Each method is proved against its function. The functions' properties are
proved as lemmas:

- substitution terminates, leaves no token, keeps the document's shape, and
  does nothing to data without tokens;
- nested tokens are resolved innermost first;
- every occurrence of a token is replaced in one step;
- the plugin loop fails fast and keeps the activation order;
- the table operations are inverse to one another and keep each book under
  its own id;
- the builders check their guards in the source's order.

The file system, the YAML parser, the package lookup and pydantic validation
are parameters. A `PackageFile` / `YamlFile` stands for what looking up and
parsing a file gave. A function `map<string, Yaml> -> Option<C>` stands for a
record's constructor. Dynamic import is a registry from plugin name to module
record. Calls into plugins and into the OpenTelemetry API are recorded as
sequences of calls. The environment is a `map<string, string>`.

## Model

| member | source | states |
|---|---|---|
| YamlReader.Split | src/python_factory/core/utils/yaml_reader.py:71 | The base key split on '.' gives at least one segment, none holding '.', and joining them back with '.' gives the key. |
| YamlReader.SplitJoin | src/python_factory/core/utils/yaml_reader.py:71 | Splitting the join of '.'-free segments gives back exactly those segments, so `"a.b"` is the path `["a", "b"]`. |
| YamlReader.WalkAppend | src/python_factory/core/utils/yaml_reader.py:72-81 | Walking a path is walking its first stretch and then the rest from where it ended, so segments go left to right and the first failure stops the walk. |
| YamlReader.WalkMissingSegment | src/python_factory/core/utils/yaml_reader.py:76-81 | A segment absent from the mapping reached so far ends the walk with a key-not-found error naming that segment, whatever follows it. |
| YamlReader.FilterTwoLevels | src/python_factory/core/utils/yaml_reader.py:70-82 | With base key `"a.b"` the result is exactly `doc["a"]["b"]`. |
| YamlReader.FilterWithBaseKey | src/python_factory/core/utils/yaml_reader.py:60-82 | The pop-and-descend loop gives the document itself when there is no base key, and otherwise the walk of the key's segments, with the same error. |
| YamlReader.TokenAtSound | src/python_factory/core/utils/yaml_reader.py:34 | Every match found at an index is `${NAME}` or `${NAME:DEFAULT}`, with a non-empty name and a default made of name characters. |
| YamlReader.TokenAtComplete | src/python_factory/core/utils/yaml_reader.py:34 | Every text of the token pattern is matched where it stands, with its own name and default, so the match is exactly the pattern's language. |
| YamlReader.FindToken | src/python_factory/core/utils/yaml_reader.py:130 | `search` returns the leftmost match: no token starts before it, and when it finds none, no index holds a token. |
| YamlReader.ReplaceAllSplit | src/python_factory/core/utils/yaml_reader.py:136 | `replace` on text around one occurrence of a token text replaces that occurrence and works on both sides independently. |
| YamlReader.ReplaceAllTwice | src/python_factory/core/utils/yaml_reader.py:136 | Two occurrences of a token text among '$'-free text are both replaced. |
| YamlReader.StepDropsDollar | src/python_factory/core/utils/yaml_reader.py:129-136 | Under a '$'-free environment each turn of the loop removes at least one '$'. This is the loop's termination measure. |
| YamlReader.Substitute | src/python_factory/core/utils/yaml_reader.py:128-136 | The string loop terminates under a '$'-free environment, and its result holds no substring matching the token pattern. |
| YamlReader.InjectString | src/python_factory/core/utils/yaml_reader.py:129-136 | The `while True` / `search` / `replace` loop computes Substitute and leaves no token. |
| YamlReader.SubstituteOneToken | src/python_factory/core/utils/yaml_reader.py:133-136 | A token among '$'-free text becomes the variable's value when it is set (the default loses), else its default, else the empty string. |
| YamlReader.SubstituteSingleToken | src/python_factory/core/utils/yaml_reader.py:133-136 | A string that is one token becomes that token's value. |
| YamlReader.SubstituteRepeatedToken | src/python_factory/core/utils/yaml_reader.py:136 | Both copies of a repeated token take its value in the same step. |
| YamlReader.SubstituteNested | src/python_factory/core/utils/yaml_reader.py:129-136 | `${A:${B}}` resolves innermost first. The result is A's value when A is set, else B's value, else empty, when B's value is a name. |
| YamlReader.SubstituteNestedNotAName | src/python_factory/core/utils/yaml_reader.py:129-136 | When B is set to a value that is not a name (and holds no `}`), `${A:${B}}` becomes `${A:value}`, which is no token, and the loop stops there. |
| YamlReader.SubstituteNestedDotted | src/python_factory/core/utils/yaml_reader.py:129-136 | With B set to `a.b`, `${A:${B}}` stays `${A:a.b}`. |
| YamlReader.StepLoopsOnSelfReference | src/python_factory/core/utils/yaml_reader.py:129-136 | An environment value that is its own token is a fixed point of the loop, so without the '$'-free condition the loop need not end. |
| YamlReader.Inject | src/python_factory/core/utils/yaml_reader.py:110-138 | Injection leaves no token in any string of the document. |
| YamlReader.InjectPreservesShape | src/python_factory/core/utils/yaml_reader.py:121-127 | Injection keeps every mapping's keys and every list's length and order, keeps strings as strings, and leaves other scalars unchanged. |
| YamlReader.InjectTokenFree | src/python_factory/core/utils/yaml_reader.py:121-138 | Data without tokens comes out of injection unchanged. |
| YamlReader.InjectIdempotent | src/python_factory/core/utils/yaml_reader.py:110-138 | Injecting twice is injecting once. |
| YamlReader.InjectEnvironmentVariables | src/python_factory/core/utils/yaml_reader.py:110-138 | The recursive rewrite (mapping key by key, list element by element, string by the loop) computes Inject. |
| YamlReader.InjectMapping | src/python_factory/core/utils/yaml_reader.py:121-123 | The loop over the mapping's keys replaces each value by its injected form and keeps the keys. |
| YamlReader.InjectList | src/python_factory/core/utils/yaml_reader.py:124-127 | The comprehension replaces each element by its injected form, in order. |
| YamlReader.DictOf | src/python_factory/core/utils/yaml_reader.py:162-165 | `dict(...)` accepts a mapping, giving its entries, and the empty string and empty list, giving `{}`; anything else is refused. |
| YamlReader.Read | src/python_factory/core/utils/yaml_reader.py:140-165 | A missing file, an unparseable one, a base-key segment not found and a segment that reaches a non-mapping are each exactly the error naming that cause and key. A found mapping section always succeeds. The result is `NotAMapping` exactly when the (injected) section is something `dict` refuses. On success the file parsed and the base key was found. Without injection a mapping result is the selected section; with injection it is the injected section, of the same shape and without tokens. |
| YamlReader.ReadMissingBaseKey | src/python_factory/core/utils/yaml_reader.py:70-81 | A dotted base key whose segment `i` is missing from the mapping its earlier segments reach is an `UnableToReadYamlFileError` naming that segment, not an empty mapping. |
| YamlReader.ReadMissingInnerKey | src/python_factory/core/utils/yaml_reader.py:70-81 | For a key `a.b` where `a` holds a mapping without `b`, the error names `b`. |
| YamlReader.ReadUnsetTokenSection | src/python_factory/core/utils/yaml_reader.py:159-165 | A section that is a single token for an unset variable becomes the empty string, which `dict` turns into `{}`. |
| YamlReader.ReadWithoutInjection | src/python_factory/core/utils/yaml_reader.py:159-165 | With injection off, `read` returns the base-key-filtered section unchanged. |
| Configs.ReadInPackage | src/python_factory/core/utils/configs.py:66-79 | The read uses injection. A missing package, a missing file or any reader error of the reader's own kind is exactly `UnableToReadConfigFileError`. A successful read of a located file is exactly success with the reader's result, which holds no token; any other reader error escapes unchanged as `Escaped` of that error. |
| Configs.BuildConfigFromFileInPackage | src/python_factory/core/utils/configs.py:44-89 | Read failure and constructor rejection map to the two distinct errors, each an if-and-only-if. Success is exactly the record the constructor builds from the section read. An escaping reader error is passed on unchanged. |
| Configs.ReadFailureIgnoresConstructor | src/python_factory/core/utils/configs.py:67-83 | When the read fails, the outcome does not depend on the constructor: no record is built. |
| Configs.ConfigErrorKinds | src/python_factory/core/utils/configs.py:20-41 | A failure is a `ConfigBaseException` exactly when it does not come from a reader error that the builder lets escape. |
| Configs.BuildFromTokenFreeSection | src/python_factory/core/utils/configs.py:81-89 | For a token-free section the record's constructor receives exactly the section under the base key. |
| Configs.MissingBaseKeyIsUnreadable | src/python_factory/core/utils/configs.py:66-79 | A base key with any segment missing from the file is `UnableToReadConfigFileError`, whatever the record would accept. |
| PluginsManager.ActivationListFrom | src/python_factory/core/app/base/plugins_manager_abstract.py:21-26 | The section is accepted exactly when it has no key but `activate` and that key holds known plugin names. The list is those names in order, or empty when `activate` is absent. |
| PluginsManager.BuildPluginsActivationList | src/python_factory/core/app/base/plugins_manager_abstract.py:95-124 | It succeeds exactly when the configuration builder does, with the same list. The unreadable and invalid configuration errors each become a manager error. A reader error the builder lets escape passes through unchanged, not converted to a manager exception. |
| PluginsManager.ResolveMeetsSpec | src/python_factory/core/app/base/plugins_manager_abstract.py:66-88 | The accepted modules are the registry's modules for a prefix of the list, in order and with duplicates. The failure is absent iff every entry passes. A failure names the first rejected entry with the first check it fails. The pre-condition check is called on exactly the modules that imported and conformed. |
| PluginsManager.RejectionIsFinal | src/python_factory/core/app/base/plugins_manager_abstract.py:66-86 | Once an entry is rejected, the entries after it change nothing. |
| PluginsManager.ResolveAllAccepted | src/python_factory/core/app/base/plugins_manager_abstract.py:66-88 | When every entry passes, the plugins are the resolved modules of every entry, one per entry, in activation order. |
| PluginsManager.Construct | src/python_factory/core/app/base/plugins_manager_abstract.py:43-56 | An empty package name fails before anything is read. A failure to build the list is the constructor's failure. Once the list is built, a rejected entry makes the constructor fail with that entry's error, and a resolution without error is the constructor's success. |
| PluginsManager.ConstructFailsOnFirstRejected | src/python_factory/core/app/base/plugins_manager_abstract.py:58-88 | The constructor fails with the error of the first rejected entry of the activation list, whatever follows it. |
| PluginsManager.ConstructAllAccepted | src/python_factory/core/app/base/plugins_manager_abstract.py:58-88 | When every entry is accepted the constructor succeeds with one module per entry, in list order. |
| PluginsManager.EmptyActivationNoPlugins | src/python_factory/core/app/base/plugins_manager_abstract.py:21-26 | A plugins section without `activate` gives a manager with no plugins and no calls. |
| PluginsManager.PluginManager.CheckPreConditions | src/python_factory/core/app/base/plugins_manager_abstract.py:58-88 | The loop that appends to the plugin list in place leaves the plugins, the calls and the error that Resolve describes. |
| PluginsManager.FirstRaising | src/python_factory/core/app/base/plugins_manager_abstract.py:90-93 | The index found is the first at or after the start whose hook raises, or the list's length when none does. |
| PluginsManager.HookPrefix | src/python_factory/core/app/base/plugins_manager_abstract.py:90-93 | The hook is called on each of the first `k` modules, in order. |
| PluginsManager.HooksAllRun | src/python_factory/core/app/base/plugins_manager_abstract.py:90-93 | When no hook raises, the hook is called once per plugin, in order, and the run ends normally. |
| PluginsManager.RaisingHookEndsRun | src/python_factory/core/app/base/plugins_manager_abstract.py:126-129 | The first raising hook ends the run: the modules after it are never called, and its error is the run's. |
| PluginsManager.PluginManager.RunHook | src/python_factory/core/app/base/plugins_manager_abstract.py:90-93 | The hook is called on each plugin in list order up to and including the first that raises, which is returned; the plugin list is unchanged. |
| PluginsManager.PluginManager.OnLoadAll | src/python_factory/core/app/base/plugins_manager_abstract.py:90-93 | `on_load` is called on each plugin in list order until one raises; the plugin list is unchanged. |
| PluginsManager.PluginManager.OnStartupAll | src/python_factory/core/app/base/plugins_manager_abstract.py:126-129 | `on_startup` is called on each plugin, each after the previous one, until one raises. |
| PluginsManager.NewPluginManager | src/python_factory/core/app/base/plugins_manager_abstract.py:43-56 | The constructor fails exactly as Construct does. Otherwise it gives a fresh manager whose plugins and calls are Construct's resolution. |
| BookServices.StoreOfKeys | src/python_factory/example/services/books/services.py:67 | The table's keys are exactly the ids of the books given. |
| BookServices.StoreOfLastWins | src/python_factory/example/services/books/services.py:67 | A book that no later book shares its id with is the book filed under that id. |
| BookServices.StoreOfDistinct | src/python_factory/example/services/books/services.py:67 | With distinct ids the table has one entry per book. |
| BookServices.DefaultStore | src/python_factory/example/services/books/services.py:49-55 | The default table holds three books, "Book 1", "Book 2" and "Book 3", under their ids. |
| BookServices.AddBook | src/python_factory/example/services/books/services.py:79-82 | An existing id is an error iff it is present. A new id inserts exactly that entry, grows the table by one and leaves the other entries unchanged. |
| BookServices.GetBook | src/python_factory/example/services/books/services.py:98-101 | A present id gives the book filed under it. An absent id is an error iff it is absent. |
| BookServices.RemoveBook | src/python_factory/example/services/books/services.py:121-124 | A present id is deleted, the table shrinks by one, and the other entries are unchanged. An absent id is an error iff it is absent. |
| BookServices.UpdateBook | src/python_factory/example/services/books/services.py:138-141 | A present id is overwritten, the size and the other entries are unchanged. An absent id is an error iff it is absent. |
| BookServices.AddThenGetAndRemove | src/python_factory/example/services/books/services.py:79-124 | A book just added is found under its id, and removing it gives back the table as it was. |
| BookServices.RemoveThenAdd | src/python_factory/example/services/books/services.py:79-124 | Removing a book and adding it back gives back the table. |
| BookServices.UpdateIdempotent | src/python_factory/example/services/books/services.py:138-141 | Updating twice with one book is updating once, and that book is then found under its id. |
| BookServices.BuildBookStore | src/python_factory/example/services/books/services.py:58-67 | The shared table becomes the id-to-book table of the given books. With none given, the three default books are used; an empty list stays empty. |
| BookServices.BookService.constructor | src/python_factory/example/services/books/services.py:26-46 | The shared table is rebuilt with the default books only when it is empty. The counters start at zero. The service starts valid when the table was empty or already filed every book under its id. |
| BookServices.BookService.Add | src/python_factory/example/services/books/services.py:70-84 | The table becomes AddBook's result. On error it is unchanged. The add counter rises by one on success only, and the other counters are unchanged. |
| BookServices.BookService.Get | src/python_factory/example/services/books/services.py:86-101 | A book is found exactly when its id is in the shared table, and it carries the id asked for; otherwise the error names the id. |
| BookServices.BookService.GetAll | src/python_factory/example/services/books/services.py:103-109 | The list has one element per entry: every book of the table, each once, under its own id. |
| BookServices.BookService.Remove | src/python_factory/example/services/books/services.py:112-126 | The table becomes RemoveBook's result. On error it is unchanged. The remove counter rises by one on success only. |
| BookServices.BookService.Update | src/python_factory/example/services/books/services.py:129-143 | The table becomes UpdateBook's result. On error it is unchanged. The update counter rises by one on success only. |
| OdmPlugin.OdmConfigFrom | src/python_factory/core/plugins/odm_plugin/builder.py:72-103 | An empty package name fails before any read. A read failure and an invalid section are each `ODMPluginConfigError`, iff. Success is the record built from the `odm` section. A reader error that escapes the configuration builder escapes here unchanged. |
| OdmPlugin.OdmErrorKinds | src/python_factory/core/plugins/odm_plugin/builder.py:72-103 | A failure is an `ODMPluginConfigError` exactly when it is not a reader error escaping uncaught. |
| OdmPlugin.ClientOf | src/python_factory/core/plugins/odm_plugin/builder.py:105-135 | It fails iff neither a configuration is given nor one is stored. The client is made from the given configuration, else the stored one: host is its uri, and both timeouts are its connection timeout. |
| OdmPlugin.DatabaseOf | src/python_factory/core/plugins/odm_plugin/builder.py:137-181 | It succeeds iff there is a name or a configuration and there is a client. The configuration is checked before the client. The given client and name win over the stored ones. |
| OdmPlugin.GivenConfigWins | src/python_factory/core/plugins/odm_plugin/builder.py:120-126 | A configuration passed in makes the stored one irrelevant. |
| OdmPlugin.DatabaseConfigUse | src/python_factory/core/plugins/odm_plugin/builder.py:159-171 | With an explicit name no configuration is consulted. With neither a name nor a configuration the build fails on the configuration even when a client is present. |
| OdmPlugin.DocumentedSequence | src/python_factory/core/plugins/odm_plugin/builder.py:105-181 | Building the client and then the database from a stored configuration gives that configuration's database on a client for its uri. |
| OdmPlugin.OdmBuilder.BuildOdmConfig | src/python_factory/core/plugins/odm_plugin/builder.py:72-103 | The stored configuration becomes OdmConfigFrom's result. It is kept on failure, and the client and database are unchanged. |
| OdmPlugin.OdmBuilder.BuildClient | src/python_factory/core/plugins/odm_plugin/builder.py:105-135 | The stored client becomes ClientOf's result. It is kept on failure, and the configuration and database are unchanged. |
| OdmPlugin.OdmBuilder.BuildDatabase | src/python_factory/core/plugins/odm_plugin/builder.py:137-181 | The stored database becomes DatabaseOf's result. It is kept on failure, and the configuration and client are unchanged. |
| OpenTelemetryPlugin.OtelConfigFrom | src/python_factory/core/plugins/opentelemetry_plugin/builder.py:105-140 | An empty package name fails before any read. A read failure and an invalid section are each `OpenTelemetryPluginConfigError`, iff. Success is the record built from the `opentelemetry` section. A reader error that escapes the configuration builder escapes here unchanged. |
| OpenTelemetryPlugin.OtelErrorKinds | src/python_factory/core/plugins/opentelemetry_plugin/builder.py:105-140 | A failure is an `OpenTelemetryPluginConfigError` exactly when it is not a reader error escaping uncaught. |
| OpenTelemetryPlugin.MeterProviderOf | src/python_factory/core/plugins/opentelemetry_plugin/builder.py:142-189 | The resource is checked before the configuration, and the meter configuration only when export is activated. There are no readers unless export is activated, and then exactly one: its exporter uses the endpoint plus "v1/metrics" and the timeout, with the meter configuration's interval and timeout. |
| OpenTelemetryPlugin.TracerProviderOf | src/python_factory/core/plugins/opentelemetry_plugin/builder.py:191-251 | The same guards in the same order, with the tracer configuration. There is an active processor iff export is activated: one batch processor exporting to the endpoint plus "v1/traces", with the four batch parameters copied. |
| OpenTelemetryPlugin.ExportEndpointsDiffer | src/python_factory/core/plugins/opentelemetry_plugin/builder.py:165-220 | Both export endpoints extend the configured one, and they differ from each other. |
| OpenTelemetryPlugin.DeactivatedExportsNothing | src/python_factory/core/plugins/opentelemetry_plugin/builder.py:156-247 | With export off, both providers build from any configuration and export nothing. |
| OpenTelemetryPlugin.ActivatedNeedsOwnSignal | src/python_factory/core/plugins/opentelemetry_plugin/builder.py:157-214 | With export on, each provider builds iff its own signal's configuration is present. |
| OpenTelemetryPlugin.OpenTelemetryPluginBuilder.BuildResource | src/python_factory/core/plugins/opentelemetry_plugin/builder.py:89-103 | The resource copies the environment, service name, namespace and version from the application configuration, and nothing else changes. |
| OpenTelemetryPlugin.OpenTelemetryPluginBuilder.BuildConfig | src/python_factory/core/plugins/opentelemetry_plugin/builder.py:105-140 | The stored configuration becomes OtelConfigFrom's result and is kept on failure. The other fields are unchanged. |
| OpenTelemetryPlugin.OpenTelemetryPluginBuilder.BuildMeterProvider | src/python_factory/core/plugins/opentelemetry_plugin/builder.py:142-189 | The stored meter provider becomes MeterProviderOf's result and is registered once. On failure nothing is stored or registered. |
| OpenTelemetryPlugin.OpenTelemetryPluginBuilder.BuildTracerProvider | src/python_factory/core/plugins/opentelemetry_plugin/builder.py:191-251 | The stored tracer provider becomes TracerProviderOf's result and is registered after the B3 propagator when export is activated. On failure nothing is stored or registered. |
| OpenTelemetryPlugin.OpenTelemetryPluginBuilder.BuildAll | src/python_factory/core/plugins/opentelemetry_plugin/builder.py:253-266 | Resource, configuration, meter provider, tracer provider, in that order, stopping at the first failure. The fields and registrations are those of the steps run. |

## Left out

- File I/O, the package lookup and YAML parsing (`_read_yaml_file`, `get_path_file_in_package`) are not modelled. The reader and the builders receive what the lookup and the parse gave (`PackageFile`, `YamlFile`).
- The `dict(...)` conversion at the end of `read` is modelled for mappings, the empty string and the empty list (both give `{}`). A non-empty list of pairs that `dict` would accept is reported as `NotAMapping`.
- YAML mapping keys are strings. Integer, boolean and other non-string keys that a YAML parser can produce cannot be represented.
- A dotted base key that reaches a non-mapping raises an uncaught `TypeError`. It is modelled as its own failure (`BaseKeyNotSubscriptable`), not as a reader error.
- Pydantic validation (`config_class(**content)`, `ODMConfig(**…)`, `OpenTelemetryConfig(**…)`) is a partial function passed in. The one exception is `PluginsActivationList`, whose rules are modelled in `ActivationListFrom`.
- Each builder's configuration record has the fields that builder reads. `ODMConfig` and `OpenTelemetryConfig` as declared in `configs.py` have different fields; that drift is not modelled.
- `import_module` and the runtime `PluginProtocol` check are a registry lookup that returns a module record with a conformance flag and a pre-condition answer. The plugins' hook bodies are not modelled; the calls are recorded instead, and whether each hook raises is a flag of the module. The exception a raising hook propagates is modelled as the module returned by the run.
- `_on_startup` is asynchronous. It is modelled as the sequential call trace its one-at-a-time `await` gives. `plugins_manager_abstract.py` has no shutdown hook, so none is modelled.
- The OpenTelemetry SDK objects and the motor client are records of the arguments they are created with. `set_meter_provider`, `set_tracer_provider` and `set_global_textmap` are recorded as a list of registrations. The API's set-once behaviour is not modelled.
- `Url.unicode_string()` normalisation of the endpoint is not modelled. The endpoint is used as the string configured.
- The injector providers and factories, which pass the endpoint without a signal path, are not part of this model.
- The metric counters are natural numbers. The meter, counter descriptions and tracing decorators are not modelled.
- Book ids are parameters standing for the UUIDs the entity generates. `BookName` validation and the entity class are not part of this model. A stored book is a value, so changes to an entity shared with a caller are not modelled.
- The missing base key follows the code and its unit test. A missing segment raises `UnableToReadYamlFileError`; it does not give an empty mapping.
- YamlReader.Substitute: requires that no environment value contains '$'. Without that the loop need not end (see StepLoopsOnSelfReference). This condition bounds every member below that injects.
- YamlReader.InjectString: requires a '$'-free environment, as Substitute does.
- YamlReader.Inject: requires a '$'-free environment, as Substitute does.
- YamlReader.InjectEnvironmentVariables: requires a '$'-free environment, as Substitute does.
- YamlReader.Read: requires a '$'-free environment when injection is on, as Substitute does.
- YamlReader.SubstituteNested: covers the case where the inner variable's value is a name. A value with other characters is stated by SubstituteNestedNotAName; an unset inner variable with a set or unset outer one is covered here, and a value holding `}` is not stated.
- Configs.ReadInPackage: requires a '$'-free environment, because the read always injects.
- Configs.BuildConfigFromFileInPackage: requires a '$'-free environment, as ReadInPackage does.
- PluginsManager.BuildPluginsActivationList: requires a '$'-free environment, as ReadInPackage does.
- PluginsManager.Construct: requires a '$'-free environment, as ReadInPackage does.
- PluginsManager.NewPluginManager: requires a '$'-free environment, as ReadInPackage does.
- OdmPlugin.OdmConfigFrom: requires a '$'-free environment, as ReadInPackage does.
- OdmPlugin.OdmBuilder.BuildOdmConfig: requires a '$'-free environment, as ReadInPackage does.
- OpenTelemetryPlugin.OtelConfigFrom: requires a '$'-free environment, as ReadInPackage does.
- OpenTelemetryPlugin.OpenTelemetryPluginBuilder.BuildConfig: requires a '$'-free environment, as ReadInPackage does.
- OpenTelemetryPlugin.OpenTelemetryPluginBuilder.BuildAll: requires a '$'-free environment, as ReadInPackage does.
- BookServices.BookService.GetAll: the order of the list (the table's insertion order) is not stated. The contract states the contents, one per entry. It also requires every book to be filed under its own id, as Add does.
- BookServices.BookService.Add: requires every book to be filed under its own id. That holds for every table built by `build_book_store` and kept by these operations. A table written to directly is outside the model.
- BookServices.BookService.Get: requires every book to be filed under its own id, as Add does.
- BookServices.BookService.Remove: requires every book to be filed under its own id, as Add does.
- BookServices.BookService.Update: requires every book to be filed under its own id, as Add does.
