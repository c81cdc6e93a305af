# sla-wizard plugin mechanism in Dafny

sla-wizard generates reverse-proxy configuration from an OpenAPI document and an SLA, and it can be extended by plugins. Plugins add command-line sub-commands and directly callable functions. This project models that plugin mechanism and proves its properties. It has three cooperating parts:

- **Registry and loader** (`src/plugins.js`).
  - A module-global list of descriptors `{pluginModule, config, priority}`. `use` appends to it and re-sorts by priority.
  - `loadConfigFile` reads `sla-wizard.config.json`.
  - `loadPlugins` discovers local `*.js` files and named packages, registers them, and activates each in list order, catching each error.
- **Capability exposure** (`src/index.js`).
  - The exported `use` activates a plugin and publishes its function-valued keys onto `module.exports` as wrappers that merge options.
  - At load time every registered plugin goes through `use` again, and then the built-ins `config`, `runTest`, `program`, `runCLI` and `use` are assigned.
- **Live surface** (`index.js`). The package's main export is a Proxy around an anonymous function. Its `get`, `has`, `ownKeys` and `getOwnPropertyDescriptor` traps consult the function first and the live `module.exports` second. Calling it forwards to `config`.

The registry, the command-line program and `module.exports` are classes whose methods update them in place. Each method is proved against a specification function (`LoadSpec`, `UseSpec`, `Republish`, `StartupSpec`, `Publish`, `AssignBuiltins`), and the lemmas state properties of those functions.

Files and modules:

| file | module | contents |
|---|---|---|
| `wrappers.dfy` | `Wrappers` | `Option`, `Result` |
| `values.dfy` | `Values` | JavaScript values, truthiness, `Object.assign` |
| `plugin_modules.dfy` | `PluginModules` | the shape of a plugin module, activation dispatch, the program's call log |
| `registry.dfy` | `Registry` | descriptors, insertion into a priority-sorted list, stable sort, its uniqueness |
| `loader.dfy` | `Loader` | the descriptor file, discovery, named loading, guarded activation, the `PluginRegistry` class |
| `exports.dfy` | `Exports` | the exports table, publication, the built-ins, the option merges, calling an export |
| `api.dfy` | `Api` | the exported `use`, re-registration at load, startup, the `Host` class |
| `surface.dfy` | `Surface` | the Proxy surface class and its traps |

Observable behaviour is represented as follows:
- **Oracles.** Each of these is a parameter (the `Env` datatype gathers them):
  - the file system: the descriptor file's state and the `plugins` directory listing;
  - `JSON.parse`;
  - `require` of a local file and of a package name;
  - what plugin code throws when activated.
- **Logs.** The commander program is reduced to the log of activation calls it receives. `console.error` output is the list of `Diagnostic`s.

The activation oracle sees the calls the program has already received, so a plugin may behave differently on its second activation. The statement that a throwing plugin aborts startup is proved for oracles that ignore that history (`HistoryIndependent`).

Behaviour the lemmas make visible:
- Every loaded plugin is activated twice at startup (`Api.StartupActivatesTwice`):
  - once inside `loadPlugins`, which catches its errors;
  - once inside `use`, which does not.
- Under a history-independent oracle, a plugin whose activation error `loadPlugins` caught and reported aborts the load of `src/index.js` (`Api.ThrowingPluginAbortsStartup`).
- At the surface, `has` reports inherited function methods such as `apply`, `bind` and `call`, but `get` returns `undefined` for them unless they are exported (`Surface.InheritedFunctionMethodsAreNotReturned`).
- The Proxy target is a function that is not in strict mode. It has its own `length`, `name`, `arguments`, `caller` and `prototype`, so an export with one of those names is hidden behind the target's property (`Surface.TargetShadowsExports`).
- The `ownKeys` trap as written leaves out the target's non-configurable keys, so `Object.keys` of the package's export throws (Findings, `Surface.OwnKeysBreaksProxyInvariant`).

## Model

| member | source | states |
|---|---|---|
| Values.OrEmpty | src/plugins.js:65 | `v \|\| {}` is always truthy and is `v` itself when `v` is truthy |
| Values.AssignAll | src/index.js:34 | `Object.assign({}, ...sources)` holds exactly the keys some source has, each with the value of the last source holding it |
| Exports.LastWithOfTwo | src/index.js:34 | with two sources, the second source's value wins, then the first's |
| Exports.LastWithOfThree | src/index.js:148 | with three sources, the last one holding the key wins |
| PluginModules.OwnProp | src/index.js:128 | own-property lookup finds a property with that key, and fails only when no property has it |
| PluginModules.Activation | src/plugins.js:74-78 | corrected dispatch: a call is made iff the module has an own function `apply` or is callable; it always passes `(program, ctx, config)`; `apply` wins and is called on the module |
| PluginModules.ActivationAsWritten | src/plugins.js:74-78 | dispatch as written: a call is made iff the module has an own function `apply` or is callable; with an own `apply` it agrees with the corrected dispatch; a callable module without an own `apply` is called with `this` = program and no arguments |
| PluginModules.AsWrittenDiffersOnlyForBareFunctions | src/plugins.js:74-78 | the dispatch as written differs from the corrected one exactly for callable modules without an own `apply` |
| PluginModules.BareFunctionPluginGetsNoArguments | src/index.js:128-132 | as written, a bare-function plugin is called with `this` = program and no arguments; the corrected dispatch passes `(program, ctx, config)` |
| PluginModules.Activate | src/plugins.js:75-77 | one activation call is appended to the program's call log and throws what the plugin throws given the earlier calls |
| PluginModules.Program.constructor | src/index.js:8 | a new program has received no calls |
| Registry.Insert | src/plugins.js:14-15 | push then sort makes the list one longer and adds exactly the new descriptor to its multiset |
| Registry.StableSort | src/plugins.js:15 | the sort keeps length and multiset |
| Registry.InsertSorted | src/plugins.js:15 | inserting into a sorted list keeps it sorted (non-decreasing priority) |
| Registry.InsertShape | src/plugins.js:14-15 | the new descriptor lands after its insertion point's predecessor, before every element of greater priority, with the rest in order |
| Registry.InsertAt | src/plugins.js:14-15 | on a sorted list the new descriptor lands after every element of priority at most its own and before every element of greater priority |
| Registry.SortedPrefixAtMost | src/plugins.js:15 | in a sorted list, every element before one of priority at most `p` also has priority at most `p` |
| Registry.InsertKeepsPriorityOrder | src/plugins.js:14-15 | each priority class keeps its order, and the new descriptor joins the end of its class |
| Registry.StableSortSorts | src/plugins.js:15 | the sort is sorted, stable per priority class and a permutation |
| Registry.SortedClassesDetermine | src/plugins.js:15 | two sorted lists with the same priority classes are equal |
| Registry.StableSortIsTheStableSort | src/plugins.js:15 | a list is a stable sort of `s` iff it equals `StableSort(s)`, so the model's sort is the only behaviour a stable `Array.prototype.sort` can have |
| Registry.SortedIsFixed | src/plugins.js:15 | sorting a sorted list changes nothing |
| Registry.PushThenSortIsInsert | src/plugins.js:14-15 | `push` followed by the stable sort is insertion at the insertion point |
| Registry.InsertAllIsStableSort | src/plugins.js:14-15 | any sequence of `use` calls on a sorted list gives the stable sort of the list plus the new descriptors, which is sorted |
| Registry.EqualPrioritiesKeepRegistrationOrder | src/plugins.js:14-15 | descriptors of one priority stay in registration order |
| Registry.InsertAllAppend | src/plugins.js:14-15 | registering `a` then `b` is registering `a + b` |
| Registry.InsertAllSnoc | src/plugins.js:14-15 | registering one more descriptor is one more insertion |
| Loader.LoadConfigFile | src/plugins.js:22-32 | never fails: an absent file or a parse error gives `{}`, and only a parse error is reported; otherwise the parsed document |
| Loader.IndexOfIsFirstOccurrence | src/plugins.js:55 | the index found is an occurrence, and no occurrence comes earlier |
| Loader.StripJsOfBaseName | src/plugins.js:55 | removing the first `".js"` from `base + ".js"` gives `base` when `base` has no `".js"` |
| Loader.FindEntry | src/plugins.js:55 | the first entry with that name: the one found has the name and no earlier entry has it |
| Loader.IndexOf | src/plugins.js:55 | an index found leaves room for the whole pattern |
| Loader.StripJs | src/plugins.js:55 | a name without `".js"` is unchanged; otherwise exactly three characters are removed |
| Loader.LocalConfig | src/plugins.js:55-56 | a local plugin's config is always truthy: the matching entry's config, or `{}` when there is no match or its config is falsy |
| Loader.JsFiles | src/plugins.js:51-52 | exactly the listed names ending in `".js"` |
| Loader.LocalPhaseFailsOnJsFiles | src/plugins.js:50-58 | discovery fails iff some `*.js` file fails to load, because a failing `require` is not caught |
| Loader.LocalPhaseLoadsJsFiles | src/plugins.js:50-58 | discovery that does not fail yields one descriptor per `*.js` file in listing order, with priority 0 and its matched config |
| Loader.DiscoveredPriorityZero | src/plugins.js:56 | every discovered descriptor has priority 0 |
| Loader.NamedPhaseIsolates | src/plugins.js:62-69 | named loading of `a + b` is loading `a` then `b`, so a failed entry does not affect later entries |
| Loader.LocalPhaseAppend | src/plugins.js:51-58 | discovery over `a + b` continues into `b` only when `a` did not fail |
| Loader.NamedPhaseAttemptsEveryEntry | src/plugins.js:62-69 | every entry is either registered or reported; when all resolve, all are registered in order with config `p.config \|\| {}` |
| Loader.ActivationRun | src/plugins.js:72-82 | the guarded run makes at most one call per plugin and reports at most one error per call |
| Loader.ActivationVisitsAll | src/plugins.js:72-82 | every plugin is activated in list order whatever earlier ones threw, with at most one error per call |
| Loader.LoadSpec | src/plugins.js:44-84 | a successful `loadPlugins` returns the registry itself; a failed one activates nothing; the program's earlier calls are kept as a prefix of its log |
| Loader.LoadKeepsDiscoveryOrder | src/plugins.js:83 | on an empty registry `loadPlugins` returns the registry itself: local plugins, then named ones, each activated once |
| Loader.PluginRegistry.constructor | src/plugins.js:5 | the registry starts empty |
| Loader.PluginRegistry.Use | src/plugins.js:13-16 | the new list is the insertion of `{module, config or {}, priority or 0}`, one longer, with that descriptor added to its multiset, and still sorted |
| Loader.PluginRegistry.LoadLocalFile | src/plugins.js:52-57 | one directory entry is handled as its discovery step specifies |
| Loader.PluginRegistry.LoadLocal | src/plugins.js:50-59 | the registry and the error escaping the loop are as local discovery specifies |
| Loader.PluginRegistry.LoadNamedEntry | src/plugins.js:63-68 | one entry is registered or reported |
| Loader.PluginRegistry.LoadNamed | src/plugins.js:62-69 | the registry gains the named phase's descriptors and the reported errors are the phase's |
| Loader.RunSoFarStep | src/plugins.js:72-82 | activating the next plugin extends the calls made and errors reported so far exactly as the guarded run specifies |
| Loader.PluginRegistry.ActivateAll | src/plugins.js:72-82 | the program receives the guarded activation run's calls and the errors reported are the run's |
| Loader.PluginRegistry.LoadPlugins | src/plugins.js:44-84 | result, registry, program log and diagnostics are those of `LoadSpec` |
| Exports.Set | src/index.js:137 | assignment sets the key, appends a new key, and leaves an existing key in its place |
| Exports.SetKeepsWellFormed | src/index.js:137 | assignment keeps the keys distinct and in step with the values |
| Exports.PublishKeepsWellFormed | src/index.js:135-151 | publication keeps the table well formed |
| Exports.AssignNamedKeepsWellFormed | src/index.js:167-173 | the final assignment keeps the table well formed |
| Exports.PublishedFn | src/index.js:135-136 | a module publishes key `k` iff `k` is not `apply` and some own property `k` holds a function |
| Exports.Publish | src/index.js:135-151 | publication only appends keys: the previous key order is a prefix of the new one |
| Exports.PublishedKeys | src/index.js:135-151 | after publication a key is present iff it was before or the module publishes it; published keys hold a wrapper of the module's callable and config, and others are unchanged |
| Exports.LaterPublicationWins | src/index.js:137 | when two modules publish the same key, the later one's wrapper holds it |
| Exports.PublicationTouchesOnlyItsKeys | src/index.js:135-137 | a key the module does not publish keeps its presence and value |
| Exports.RuntimeUseOverridesBuiltin | src/index.js:137 | a `use` after the built-ins are assigned replaces a built-in of the same name |
| Exports.AssignNamed | src/index.js:167-173 | assigning named built-ins only appends keys |
| Exports.AssignedNames | src/index.js:167-173 | exactly the assigned names hold their built-ins, and every other key is unchanged |
| Exports.AssignBuiltins | src/index.js:167-173 | the final assignment only appends keys |
| Exports.AssignBuiltinsKeepsWellFormed | src/index.js:167-173 | the final assignment keeps the table well formed |
| Exports.AssignedBuiltins | src/index.js:167-173 | after the assignment `config`, `runTest`, `program`, `runCLI` and `use` hold the built-ins, and every other key is unchanged |
| Exports.BuiltinNamesAreTheBuiltins | src/index.js:167-173 | the assigned names are exactly the five built-in names |
| Exports.OrEmptyIfUndefinedCopiesTheSame | src/index.js:24-26 | defaulting an undefined `options` to `{}` copies the same properties |
| Exports.ConfigOptions | src/index.js:24-34 | the merged `config` options hold every default and every caller key; a caller key wins |
| Exports.RunTestOptions | src/index.js:50-58 | the merged `runTest` options hold every default and every caller key; a caller key wins |
| Exports.ConfigOptionsField | src/index.js:34 | each merged field is the caller's value if supplied, else the default |
| Exports.ConfigFillsDefaults | src/index.js:23-44 | `config(proxy, options)` passes the proxy and, for `sla`, `oas`, `authLocation`, `authName` and `proxyPort`, the caller's value or its default; `outFile` and `customTemplate` come only from the caller |
| Exports.RunTestCmd | src/index.js:49-62 | `runTest` passes `sla`, `oas` and `specs` from the caller, each defaulting to its path |
| Exports.WrapperOptions | src/index.js:137-148 | a wrapper's options: caller options beat the registration config, which beats the defaults; undefined options act as `{}` |
| Exports.Invoke | src/index.js:137-149 | calling a wrapper calls its plugin with the three-way merge of its first argument; calling `config` generates with its two arguments |
| Api.UseConfig | src/index.js:123-125 | an undefined config becomes `{}`; any other config is kept |
| Api.UseSpec | src/index.js:122-152 | `use` logs its activation call whether or not it throws; a throw leaves the exports untouched, otherwise they become the publication with the defaulted config |
| Api.Republish | src/index.js:155-157 | re-registration only appends to the program's call log |
| Api.UseWhenQuiet | src/index.js:122-152 | a `use` that does not throw appends its activation call, if any, and then publishes the module with its config |
| Api.UseThrowsIffActivationThrows | src/index.js:128-132 | under a history-independent oracle, `use` throws exactly when its activation call throws |
| Api.AllQuietAppend | src/index.js:155-157 | no call of `a + b` throws iff none of `a` and none of `b` does |
| Api.NoActivationFailureAppend | src/plugins.js:80 | `a + b` reports no activation error iff neither `a` nor `b` does |
| Api.UseInvocationsAreInvocations | src/index.js:156 | with defined configs, re-registration makes the same activation calls as `loadPlugins` |
| Api.FoundConfigsDefined | src/plugins.js:56 | every descriptor discovery yields has a defined config |
| Api.PublishAllKeys | src/index.js:155-157 | after publishing a list of plugins each key holds the last publisher's wrapper, or its previous value |
| Api.PublishAllCons | src/index.js:155-157 | publishing one plugin and then the rest is publishing the whole list in order |
| Api.RepublishStep | src/index.js:155-157 | a first `use` that does not throw hands over to the rest of the registry |
| Api.RepublishCallsWhenQuiet | src/index.js:155-157 | when no `use` throws, every plugin of the registry is activated again, in registry order |
| Api.RepublishTableWhenQuiet | src/index.js:155-157 | when no `use` throws, every plugin of the registry is published, in registry order |
| Api.RepublishThrowsIffSomeActivationThrows | src/index.js:155-157 | under a history-independent oracle, re-registration completes exactly when no activation call throws |
| Api.ActivationRunReportsThrows | src/plugins.js:79-81 | under a history-independent oracle, guarded activation reports no error exactly when no call throws |
| Api.NamedReportsNoActivationErrors | src/plugins.js:66-68 | named loading reports load errors only |
| Api.LoadedOnce | src/index.js:18 | after `loadPlugins` on a fresh process each plugin has been activated once and every config is defined |
| Api.StartupOk | src/index.js:18 | a successful startup has a successful `loadPlugins`, a re-registration without errors, and the built-ins assigned last |
| Api.LoadDiagnostics | src/plugins.js:44-84 | the diagnostics are the file error, then load errors, then activation errors |
| Api.StartupActivatesTwice | src/index.js:155-157 | a successful startup activates every plugin twice in registry order; its exports are the publications in registry order followed by the built-ins |
| Api.BuiltinsWinAtStartup | src/index.js:167-173 | after startup a key is present iff it is a built-in name or some plugin publishes it; built-in names hold the built-ins, others the last publisher's wrapper |
| Api.ThrowingPluginAbortsStartup | src/index.js:155-157 | under a history-independent oracle, startup succeeds iff `loadPlugins` succeeded and reported no activation error |
| Api.StartupSpec | src/index.js:17-173 | startup's registry and diagnostics are those of `loadPlugins`; on success the result is the exports; a failed `loadPlugins` aborts with empty exports |
| Api.RepublishKeepsWellFormed | src/index.js:155-157 | re-registration keeps `module.exports` well formed, whether or not a `use` throws |
| Api.StartupExportsWellFormed | src/index.js:17-173 | whatever startup ends in, the exports it leaves are well formed |
| Api.ModuleExports.constructor | src/index.js:167 | `module.exports` starts empty |
| Api.Host.constructor | src/index.js:8 | a fresh process: empty registry, no calls, empty exports |
| Api.Host.PublishModule | src/index.js:135-151 | the exports become the publication of the module's keys |
| Api.Host.Use | src/index.js:122-152 | the thrown error, program log and exports are those of `UseSpec` |
| Api.Host.RepublishAll | src/index.js:155-157 | the thrown error, program log and exports are those of `Republish` over the registry |
| Api.Host.AssignBuiltinsToExports | src/index.js:167-173 | the exports become `AssignBuiltins` of the previous exports |
| Api.Host.Startup | src/index.js:17-173 | the result, exports, registry, program log and diagnostics of loading src/index.js are those of `StartupSpec` |
| Surface.Dedupe | index.js:26 | `Array.from(new Set(keys))` has no repeats and the same members |
| Surface.Without | index.js:25-26 | exactly the elements of `b` not in `a` |
| Surface.DedupeDistinct | index.js:26 | a list without repeats is unchanged by deduplication |
| Surface.DedupeConcat | index.js:25-26 | deduplicating `a + b` keeps `a` whole, then the elements of `b` that `a` lacks, in order |
| Surface.FunctionTargetWellFormed | index.js:12-14 | the anonymous function's key lists agree with its own properties |
| Surface.Surface.constructor | index.js:12 | the surface wraps the anonymous function, with its own `length`, `name`, `arguments`, `caller` and `prototype`, and the live exports |
| Surface.Surface.Get | index.js:15-20 | `get` returns the target's own property if there is one, and otherwise the exports' property or an inherited `Object.prototype` member |
| Surface.Surface.Has | index.js:21-23 | `has` is true iff the key is in the target (own or inherited) or in the exports (own or inherited); equivalently, iff `get` finds it or the target inherits it |
| Surface.Surface.OwnKeys | index.js:24-27 | `ownKeys` as written has no repeats and lists exactly the target's enumerable keys and the exports' keys |
| Surface.Surface.OwnKeysCorrected | index.js:24-27 | the corrected `ownKeys` has no repeats and lists exactly all of the target's own keys and the exports' keys |
| Surface.Surface.GetOwnPropertyDescriptor | index.js:28-32 | a descriptor exists iff the key is own to the target or to the exports; the target's wins, and an export's is enumerable |
| Surface.Surface.Call | index.js:12-14 | calling the surface throws iff there is no `config` export; while `config` is the built-in, the call is `config(proxy, options)` on the first two arguments |
| Surface.OwnKeysTargetThenExports | index.js:24-27 | `ownKeys` is the target's keys followed by the exports' keys the target lacks |
| Surface.OwnKeysBreaksProxyInvariant | index.js:24-27 | around the function target the trap as written meets the Proxy invariant iff the exports hold `arguments`, `caller` and `prototype` |
| Surface.OwnKeysCorrectedMeetsProxyInvariant | index.js:24-27 | the corrected trap always lists every non-configurable own key of the target |
| Surface.OwnKeysCorrectedTargetThenExports | index.js:24-27 | the corrected trap lists the target's own keys, then the exports' keys the target lacks, in order |
| Surface.OwnKeysAreExportKeys | index.js:24-27 | around the function target, `ownKeys` is exactly `Object.keys(module.exports)` |
| Surface.ListedKeysHaveDescriptors | index.js:24-32 | every key the corrected trap lists has a descriptor, enumerable unless it is a non-enumerable own key of the target |
| Surface.DescriptorAgreesWithGet | index.js:15-32 | a key with a descriptor reads as that descriptor's value |
| Surface.GetImpliesHas | index.js:15-23 | every key `get` finds is reported by `has` |
| Surface.InheritedFunctionMethodsAreNotReturned | index.js:15-23 | `has` reports the inherited `apply`, `bind` and `call`, which `get` does not return unless exported |
| Surface.TargetShadowsExports | index.js:15-20 | `length`, `name`, `arguments`, `caller` and `prototype` always read as the target's own, non-enumerable properties |
| Surface.CallIsConfig | index.js:12-14 | while `config` is the built-in, calling the surface is calling `config(proxy, options)` |
| Surface.UseThroughSurface | index.js:10-25 | after a runtime `use` every key the plugin publishes is reported by `has`, `get` and the corrected `ownKeys` on a surface handed out before |

## Left out

- Commander command definitions, option parsing and `runCLI` (src/index.js:12-14, 65-115, 159-165): library plumbing. The program is only the log of activation calls it receives.
- `generate.generateConfigHandle`, `utils.validateParamsCLI`, `runTest.runTest` and `generateSLAs`: foreign code that is not shown.
  - Validation is a parameter.
  - Generation and test runs are returned as requests (`ConfigRequest`, `RunTestRequest`, `PluginCall`) rather than performed.
- The file system, `JSON.parse` and `require` are oracles in `Env`. The module cache, `path.join` and the working directory are not modelled.
- `console.error` text is reduced to the kind of error and its message. The exact formatting of the lines is not modelled.
- Loader.LoadSpec: the `plugins` field is either absent/falsy or an array of entries with string names. An array holding `null`, a non-array truthy value, and a document other than `null` or an object are not modelled.
- Values.Value: numbers are integers, and the priority comparator `a.priority - b.priority` is integer subtraction. `NaN`, non-numeric priorities and floats are not modelled.
- Values.AssignAll: a string source copies nothing, whereas `Object.assign` copies its characters under index keys. Getters, symbols and non-enumerable properties are not modelled.
- Exports.Set: new keys are appended in insertion order. JavaScript lists integer-like keys first, and `__proto__` is special; neither is modelled.
- Exports.Invoke: a wrapper reads `pluginModule[key]` when called. Modules are immutable values here, so a plugin that mutates its own module after publication is not modelled. `ctx` is not passed on, because it is the same fixed object for every plugin.
- Api.ThrowingPluginAbortsStartup: proved only for activation oracles that ignore the history of earlier calls. With a history-dependent oracle, the second activation of a plugin may behave differently from the first.
- Surface.Surface: strings are the only keys, so symbol keys are not modelled. Of the JavaScript Proxy invariants only the one on the `ownKeys` result is modelled (`OwnKeysInvariant`); the engine's checks of reported descriptors against the target are not.
- Surface.Surface.OwnKeys: it models the trap as written. Its result is what the trap returns; the engine rejects that result, as `OwnKeysBreaksProxyInvariant` shows. The lemmas `OwnKeysTargetThenExports` and `OwnKeysAreExportKeys` describe that rejected result.
- Surface.Surface.Call: `this` is `null` when forwarding. No export reads `this`, so it is not modelled.
- The exported `use` at runtime does not register the plugin in the registry and accepts no priority, as in src/index.js:122-152. A priority is only reachable through the `use` of src/plugins.js.
- Loader.ActivationRun: logs the corrected activation call (`PluginModules.Activation`, see Findings). For a callable module without an own `apply`, src/plugins.js:74-77 instead calls the module with `this` = program and no arguments. `PluginModules.AsWrittenDiffersOnlyForBareFunctions` shows that this is the only module for which the two differ.
- Loader.Invocations: lists the corrected activation calls, as `ActivationRun` logs them.
- Loader.LoadSpec: its call log holds the corrected activation calls, as `ActivationRun` logs them.
- Loader.PluginRegistry.ActivateAll: logs the corrected activation call, like `ActivationRun`; for a callable module without an own `apply` the program receives a different call from the one it gets as written.
- Loader.PluginRegistry.LoadPlugins: its activation phase logs the corrected call, as `ActivateAll` does.
- Api.UseSpec: logs the corrected call of `use` (src/index.js:128-131), not the call with no arguments that a callable module without an own `apply` gets as written.
- Api.UseCall: is the corrected call, as in `UseSpec`.
- Api.Host.Use: logs the corrected call, as `UseSpec` does.
- Api.Republish: each `use` logs the corrected call, as `UseSpec` does.
- Api.Host.RepublishAll: each `use` logs the corrected call, as `UseSpec` does.
- Api.StartupSpec: both activation passes log the corrected call.
- Api.Host.Startup: both activation passes log the corrected call, as `StartupSpec` does.
- PluginModules.PluginModule: a module is an object or a function with own string-keyed properties. Three kinds of value `require` can return are not modelled:
  - `null` or `undefined` exports, for which reading `pluginModule.apply` throws a TypeError (caught and reported by `loadPlugins`, not caught by `use`, so startup aborts);
  - primitive exports;
  - an `apply` inherited from a prototype, as on a class instance, which the source calls.
- Concurrency: everything is single-threaded and synchronous, as in the source.

## Findings

| source | as written | input that shows it | evidently intended | confidence | as-written member | corrected member |
|---|---|---|---|---|---|---|
| src/plugins.js:74-78 | `typeof pluginModule.apply === "function"` looks `apply` up through the prototype chain. For a callable module it finds `Function.prototype.apply`, so `pluginModule.apply(program, ctx, config)` calls the module with `this` = program and the array-like `ctx` as its argument list; `ctx` has no `length`, so the module gets no arguments. The same code is at src/index.js:128-132 | a plugin exported as a bare function `module.exports = function (program, ctx, config) { ... }` with no own `apply` | a callable module is called as `pluginModule(program, ctx, config)` (the `else if` branch) | high, not executed | PluginModules.ActivationAsWritten (shown by PluginModules.BareFunctionPluginGetsNoArguments) | PluginModules.Activation |
| index.js:24-27 | The `ownKeys` trap returns `Object.keys(target)` followed by the exports' keys. `Object.keys` lists only enumerable keys, and the anonymous function's `arguments`, `caller` and `prototype` are non-enumerable and non-configurable. The [[OwnPropertyKeys]] internal method of Proxy objects in the ECMAScript specification requires the trap result to list every non-configurable own key of the target, so it throws a TypeError | `Object.keys(require("sla-wizard"))` with any exports that do not include all of `arguments`, `caller` and `prototype` | list the target's own keys with `Reflect.ownKeys(target)`, then the exports' keys, so that `Object.keys` of the export shows the published functions | high, not executed | Surface.Surface.OwnKeys (shown by Surface.OwnKeysBreaksProxyInvariant) | Surface.Surface.OwnKeysCorrected (with Surface.OwnKeysCorrectedMeetsProxyInvariant) |
