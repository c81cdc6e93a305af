/**
 * The programmatic side of src/index.js as values: the `module.exports` table,
 * publication of plugin callables, the built-in `config` and `runTest` option
 * merges, and what calling an export amounts to.
 */
module Exports {

  import opened Wrappers
  import opened Values
  import opened PluginModules

  /** The functions and objects src/index.js itself exports. */
  datatype Builtin = ConfigFn | RunTestFn | ProgramObj | RunCliFn | UseFn

  /** A value held by `module.exports`: a built-in, or the wrapper `use` publishes for a plugin callable. */
  datatype Export = BuiltinExport(builtin: Builtin) | Wrapper(fn: FnId, config: Value)

  /** An object's own properties: keys in `Object.keys` order and their values. */
  datatype Table = Table(keys: seq<string>, vals: map<string, Export>)

  const EmptyTable := Table([], map[])

  predicate Distinct(s: seq<string>) {
    forall i, j :: 0 <= i < j < |s| ==> s[i] != s[j]
  }

  ghost predicate WellFormed(t: Table) {
    Distinct(t.keys) && forall k :: k in t.vals <==> k in t.keys
  }

  /** `obj[k] = v`: a new key goes last, an existing key keeps its place. */
  function Set(t: Table, k: string, v: Export): (r: Table)
    ensures r.vals == t.vals[k := v]
    ensures |t.keys| <= |r.keys| && r.keys[..|t.keys|] == t.keys
  {
    if k in t.vals then Table(t.keys, t.vals[k := v]) else Table(t.keys + [k], t.vals[k := v])
  }

  /** Assignment keeps the keys distinct and in step with the values. */
  lemma SetKeepsWellFormed(t: Table, k: string, v: Export)
    requires WellFormed(t)
    ensures WellFormed(Set(t, k, v))
  {
  }

  /** The callable a module publishes under `k`: its last own function-valued property `k`, never `apply`. */
  function PublishedFn(props: seq<(string, PropValue)>, k: string): (r: Option<FnId>)
    ensures r.Some? <==> k != "apply" && exists i :: 0 <= i < |props| && props[i].0 == k && props[i].1.Fn?
  {
    if props == [] then None
    else if props[|props| - 1].0 == k && k != "apply" && props[|props| - 1].1.Fn? then Some(props[|props| - 1].1.id)
    else
      var r := PublishedFn(props[..|props| - 1], k);
      assert forall i :: 0 <= i < |props| - 1 ==> props[..|props| - 1][i] == props[i];
      r
  }

  /** Step 2 of `use`: every own key other than `apply` whose value is a function gets a wrapper. */
  function Publish(t: Table, props: seq<(string, PropValue)>, config: Value): (r: Table)
    ensures |t.keys| <= |r.keys| && r.keys[..|t.keys|] == t.keys
  {
    if props == [] then t
    else
      var prev := Publish(t, props[..|props| - 1], config);
      var (key, value) := props[|props| - 1];
      if key != "apply" && value.Fn? then
        var r := Set(prev, key, Wrapper(value.id, config));
        PrefixTransitive(t.keys, prev.keys, r.keys);
        r
      else prev
  }

  lemma {:induction false} PublishKeepsWellFormed(t: Table, props: seq<(string, PropValue)>, config: Value)
    requires WellFormed(t)
    ensures WellFormed(Publish(t, props, config))
  {
    if props != [] {
      PublishKeepsWellFormed(t, props[..|props| - 1], config);
      var (key, value) := props[|props| - 1];
      if key != "apply" && value.Fn? {
        SetKeepsWellFormed(Publish(t, props[..|props| - 1], config), key, Wrapper(value.id, config));
      }
    }
  }

  /**
   * Publication adds or replaces exactly the keys the module publishes, each with
   * a wrapper of its callable and the registration config; other keys keep their values.
   */
  lemma {:induction false} PublishedKeys(t: Table, props: seq<(string, PropValue)>, config: Value, k: string)
    ensures k in Publish(t, props, config).vals <==> k in t.vals || PublishedFn(props, k).Some?
    ensures k in Publish(t, props, config).vals ==>
      Publish(t, props, config).vals[k] == if PublishedFn(props, k).Some? then Wrapper(PublishedFn(props, k).value, config) else t.vals[k]
  {
    if props != [] {
      PublishedKeys(t, props[..|props| - 1], config, k);
    }
  }

  lemma PrefixTransitive(a: seq<string>, b: seq<string>, c: seq<string>)
    requires |a| <= |b| && b[..|a|] == a
    requires |b| <= |c| && c[..|b|] == b
    ensures |a| <= |c| && c[..|a|] == a
  {
    assert forall i :: 0 <= i < |a| ==> c[i] == b[i];
  }

  /** The names `Object.assign(module.exports, {...})` gives the built-ins. */
  function BuiltinNamed(k: string): Option<Builtin> {
    if k == "config" then Some(ConfigFn)
    else if k == "runTest" then Some(RunTestFn)
    else if k == "program" then Some(ProgramObj)
    else if k == "runCLI" then Some(RunCliFn)
    else if k == "use" then Some(UseFn)
    else None
  }

  /** The keys of the final `Object.assign(module.exports, {...})`, in order. */
  const BuiltinNames: seq<string> := ["config", "runTest", "program", "runCLI", "use"]

  lemma BuiltinNamesAreTheBuiltins(k: string)
    ensures k in BuiltinNames <==> BuiltinNamed(k).Some?
  {
  }

  /** Assigning the built-in named `names[i]` to each of `names` in turn. */
  function AssignNamed(t: Table, names: seq<string>): (r: Table)
    requires forall i :: 0 <= i < |names| ==> BuiltinNamed(names[i]).Some?
    ensures |t.keys| <= |r.keys| && r.keys[..|t.keys|] == t.keys
  {
    if names == [] then t
    else
      var prev := AssignNamed(t, names[..|names| - 1]);
      var last := names[|names| - 1];
      var r := Set(prev, last, BuiltinExport(BuiltinNamed(last).value));
      PrefixTransitive(t.keys, prev.keys, r.keys);
      r
  }

  lemma {:induction false} AssignedNames(t: Table, names: seq<string>, k: string)
    requires forall i :: 0 <= i < |names| ==> BuiltinNamed(names[i]).Some?
    ensures k in AssignNamed(t, names).vals <==> k in t.vals || k in names
    ensures k in AssignNamed(t, names).vals ==>
      AssignNamed(t, names).vals[k] == if k in names then BuiltinExport(BuiltinNamed(k).value) else t.vals[k]
  {
    if names != [] {
      AssignedNames(t, names[..|names| - 1], k);
      assert k in names <==> k in names[..|names| - 1] || k == names[|names| - 1];
    }
  }

  lemma {:induction false} AssignNamedKeepsWellFormed(t: Table, names: seq<string>)
    requires forall i :: 0 <= i < |names| ==> BuiltinNamed(names[i]).Some?
    requires WellFormed(t)
    ensures WellFormed(AssignNamed(t, names))
  {
    if names != [] {
      AssignNamedKeepsWellFormed(t, names[..|names| - 1]);
      var last := names[|names| - 1];
      SetKeepsWellFormed(AssignNamed(t, names[..|names| - 1]), last, BuiltinExport(BuiltinNamed(last).value));
    }
  }

  /** The final `Object.assign(module.exports, {config, runTest, program, runCLI, use})`. */
  function AssignBuiltins(t: Table): (r: Table)
    ensures |t.keys| <= |r.keys| && r.keys[..|t.keys|] == t.keys
  {
    AssignNamed(t, BuiltinNames)
  }

  lemma AssignBuiltinsKeepsWellFormed(t: Table)
    requires WellFormed(t)
    ensures WellFormed(AssignBuiltins(t))
  {
    AssignNamedKeepsWellFormed(t, BuiltinNames);
  }

  /** After the assignment the five built-in names hold the built-ins; every other key is unchanged. */
  lemma AssignedBuiltins(t: Table, k: string)
    ensures k in AssignBuiltins(t).vals <==> k in t.vals || BuiltinNamed(k).Some?
    ensures k in AssignBuiltins(t).vals ==>
      AssignBuiltins(t).vals[k] == if BuiltinNamed(k).Some? then BuiltinExport(BuiltinNamed(k).value) else t.vals[k]
  {
    AssignedNames(t, BuiltinNames, k);
    BuiltinNamesAreTheBuiltins(k);
  }

  /** The defaults of `config` and of every published wrapper. */
  const ConfigDefaults: Options := map[
    "sla" := Str("./specs/sla.yaml"),
    "oas" := Str("./specs/oas.yaml"),
    "authLocation" := Str("header"),
    "authName" := Str("apikey"),
    "proxyPort" := Num(80)]

  /** The defaults of `runTest`. */
  const RunTestDefaults: Options := map[
    "sla" := Str("./specs/sla.yaml"),
    "oas" := Str("./specs/oas.yaml"),
    "specs" := Str("./specs/testSpecs.yaml")]

  /** `if (options === undefined) options = {}` */
  function OrEmptyIfUndefined(v: Value): Value {
    if v == Undefined then EmptyObject else v
  }

  lemma OrEmptyIfUndefinedCopiesTheSame(v: Value)
    ensures OwnEnumerable(OrEmptyIfUndefined(v)) == OwnEnumerable(v)
  {
  }

  /** `Object.assign` from two sources: the second wins. */
  lemma LastWithOfTwo(a: Value, b: Value, k: string)
    ensures LastWith([a, b], k) ==
      if k in OwnEnumerable(b) then Some(OwnEnumerable(b)[k])
      else if k in OwnEnumerable(a) then Some(OwnEnumerable(a)[k])
      else None
  {
    assert [a, b][..1] == [a];
    assert [a][..0] == [];
    assert LastWith([a], k) == if k in OwnEnumerable(a) then Some(OwnEnumerable(a)[k]) else LastWith([], k);
  }

  /** `Object.assign` from three sources: the last one holding the key wins. */
  lemma LastWithOfThree(a: Value, b: Value, c: Value, k: string)
    ensures LastWith([a, b, c], k) ==
      if k in OwnEnumerable(c) then Some(OwnEnumerable(c)[k])
      else if k in OwnEnumerable(b) then Some(OwnEnumerable(b)[k])
      else if k in OwnEnumerable(a) then Some(OwnEnumerable(a)[k])
      else None
  {
    assert [a, b, c][..2] == [a, b];
    LastWithOfTwo(a, b, k);
  }

  /** `Object.assign({}, defaults, options)` for `config`: every default is present, a caller's key wins. */
  function ConfigOptions(options: Value): (r: Options)
    ensures forall k :: k in r <==> k in ConfigDefaults || k in OwnEnumerable(options)
    ensures forall k :: k in OwnEnumerable(options) ==> r[k] == OwnEnumerable(options)[k]
    ensures forall k :: k in ConfigDefaults && k !in OwnEnumerable(options) ==> r[k] == ConfigDefaults[k]
  {
    OrEmptyIfUndefinedCopiesTheSame(options);
    forall k ensures LastWith([Obj(ConfigDefaults), OrEmptyIfUndefined(options)], k) ==
      if k in OwnEnumerable(options) then Some(OwnEnumerable(options)[k])
      else if k in ConfigDefaults then Some(ConfigDefaults[k]) else None
    {
      LastWithOfTwo(Obj(ConfigDefaults), OrEmptyIfUndefined(options), k);
    }
    AssignAll([Obj(ConfigDefaults), OrEmptyIfUndefined(options)])
  }

  /** The same merge for `runTest`, with its own defaults. */
  function RunTestOptions(options: Value): (r: Options)
    ensures forall k :: k in r <==> k in RunTestDefaults || k in OwnEnumerable(options)
    ensures forall k :: k in OwnEnumerable(options) ==> r[k] == OwnEnumerable(options)[k]
    ensures forall k :: k in RunTestDefaults && k !in OwnEnumerable(options) ==> r[k] == RunTestDefaults[k]
  {
    OrEmptyIfUndefinedCopiesTheSame(options);
    forall k ensures LastWith([Obj(RunTestDefaults), OrEmptyIfUndefined(options)], k) ==
      if k in OwnEnumerable(options) then Some(OwnEnumerable(options)[k])
      else if k in RunTestDefaults then Some(RunTestDefaults[k]) else None
    {
      LastWithOfTwo(Obj(RunTestDefaults), OrEmptyIfUndefined(options), k);
    }
    AssignAll([Obj(RunTestDefaults), OrEmptyIfUndefined(options)])
  }

  /**
   * `Object.assign({}, defaults, config, options)` in a published wrapper: caller
   * options beat the registration config, which beats the defaults.
   */
  function WrapperOptions(config: Value, options: Value): (r: Options)
    ensures forall k :: k in r <==> k in ConfigDefaults || k in OwnEnumerable(config) || k in OwnEnumerable(options)
    ensures forall k :: k in OwnEnumerable(options) ==> r[k] == OwnEnumerable(options)[k]
    ensures forall k :: k in OwnEnumerable(config) && k !in OwnEnumerable(options) ==> r[k] == OwnEnumerable(config)[k]
    ensures forall k :: k in ConfigDefaults && k !in OwnEnumerable(config) && k !in OwnEnumerable(options) ==> r[k] == ConfigDefaults[k]
  {
    OrEmptyIfUndefinedCopiesTheSame(options);
    forall k ensures LastWith([Obj(ConfigDefaults), config, OrEmptyIfUndefined(options)], k) ==
      if k in OwnEnumerable(options) then Some(OwnEnumerable(options)[k])
      else if k in OwnEnumerable(config) then Some(OwnEnumerable(config)[k])
      else if k in ConfigDefaults then Some(ConfigDefaults[k]) else None
    {
      LastWithOfThree(Obj(ConfigDefaults), config, OrEmptyIfUndefined(options), k);
    }
    AssignAll([Obj(ConfigDefaults), config, OrEmptyIfUndefined(options)])
  }

  /** The arguments `config` hands to `generate.generateConfigHandle`. */
  datatype ConfigRequest = ConfigRequest(
    oas: Value, proxy: Value, sla: Value, outFile: Value, customTemplate: Value,
    authLocation: Value, authName: Value, proxyPort: Value)

  /** The arguments `runTest` hands to `runTest.runTest`. */
  datatype RunTestRequest = RunTestRequest(oas: Value, sla: Value, specs: Value)

  /** `utils.validateParamsCLI(proxy, options)`, which is not part of this model. */
  type Validator = (Value, Options) -> Options

  /** `config(proxy, options)`: merge with the defaults, validate, generate. */
  function Config(proxy: Value, options: Value, validate: Validator): ConfigRequest {
    var o := validate(proxy, ConfigOptions(options));
    ConfigRequest(Field(o, "oas"), proxy, Field(o, "sla"), Field(o, "outFile"), Field(o, "customTemplate"),
      Field(o, "authLocation"), Field(o, "authName"), Field(o, "proxyPort"))
  }

  /** `runTestCmd(options)`: `sla`, `oas` and `specs` come from the caller unless omitted. */
  function RunTestCmd(options: Value): (r: RunTestRequest)
    ensures r.sla == Supplied(options, "sla", Str("./specs/sla.yaml"))
    ensures r.oas == Supplied(options, "oas", Str("./specs/oas.yaml"))
    ensures r.specs == Supplied(options, "specs", Str("./specs/testSpecs.yaml"))
  {
    var o := RunTestOptions(options);
    RunTestOptionsField(options, "sla");
    RunTestOptionsField(options, "oas");
    RunTestOptionsField(options, "specs");
    RunTestDefaultFields();
    RunTestRequest(Field(o, "oas"), Field(o, "sla"), Field(o, "specs"))
  }

  lemma RunTestOptionsField(options: Value, k: string)
    ensures Field(RunTestOptions(options), k) == Supplied(options, k, Field(RunTestDefaults, k))
  {
  }

  lemma RunTestDefaultFields()
    ensures Field(RunTestDefaults, "sla") == Str("./specs/sla.yaml")
    ensures Field(RunTestDefaults, "oas") == Str("./specs/oas.yaml")
    ensures Field(RunTestDefaults, "specs") == Str("./specs/testSpecs.yaml")
  {
  }

  /** The caller's option `k`, or `d` when the caller gave none. */
  function Supplied(options: Value, k: string, d: Value): Value {
    if k in OwnEnumerable(options) then OwnEnumerable(options)[k] else d
  }

  lemma ConfigOptionsField(options: Value, k: string)
    ensures Field(ConfigOptions(options), k) == Supplied(options, k, Field(ConfigDefaults, k))
  {
  }

  /** A validator that accepts the options as they are. */
  function NoValidation(proxy: Value, options: Options): Options {
    options
  }

  /** With a validator that changes nothing, `config` carries each caller option or its default. */
  lemma ConfigFillsDefaults(proxy: Value, options: Value)
    ensures var r := Config(proxy, options, NoValidation);
      && r.proxy == proxy
      && r.sla == Supplied(options, "sla", Str("./specs/sla.yaml"))
      && r.oas == Supplied(options, "oas", Str("./specs/oas.yaml"))
      && r.authLocation == Supplied(options, "authLocation", Str("header"))
      && r.authName == Supplied(options, "authName", Str("apikey"))
      && r.proxyPort == Supplied(options, "proxyPort", Num(80))
      && r.outFile == Field(OwnEnumerable(options), "outFile")
      && r.customTemplate == Field(OwnEnumerable(options), "customTemplate")
  {
    var o := ConfigOptions(options);
    assert NoValidation(proxy, o) == o;
    assert Config(proxy, options, NoValidation) == ConfigRequest(Field(o, "oas"), proxy, Field(o, "sla"),
      Field(o, "outFile"), Field(o, "customTemplate"), Field(o, "authLocation"), Field(o, "authName"), Field(o, "proxyPort"));
    ConfigOptionsField(options, "sla");
    ConfigOptionsField(options, "oas");
    ConfigOptionsField(options, "authLocation");
    ConfigOptionsField(options, "authName");
    ConfigOptionsField(options, "proxyPort");
    ConfigOptionsField(options, "outFile");
    ConfigOptionsField(options, "customTemplate");
    DefaultFields();
  }

  lemma DefaultFields()
    ensures Field(ConfigDefaults, "sla") == Str("./specs/sla.yaml")
    ensures Field(ConfigDefaults, "oas") == Str("./specs/oas.yaml")
    ensures Field(ConfigDefaults, "authLocation") == Str("header")
    ensures Field(ConfigDefaults, "authName") == Str("apikey")
    ensures Field(ConfigDefaults, "proxyPort") == Num(80)
    ensures Field(ConfigDefaults, "outFile") == Undefined
    ensures Field(ConfigDefaults, "customTemplate") == Undefined
  {
  }

  /** What calling an export with `args` amounts to. */
  datatype CallOutcome =
    | GenerateConfig(request: ConfigRequest)
    | RunTests(test: RunTestRequest)
    | PluginCall(fn: FnId, options: Options)
    | ParseCommandLine
    | RegisterPlugin
    | NotCallable

  /** The `i`-th argument, `undefined` when missing. */
  function Arg(args: seq<Value>, i: nat): Value {
    if i < |args| then args[i] else Undefined
  }

  /** Calling an exported value; a wrapper calls the plugin with the merged options and `ctx`. */
  function Invoke(e: Export, args: seq<Value>, validate: Validator): (r: CallOutcome)
    ensures e.Wrapper? ==> r == PluginCall(e.fn, WrapperOptions(e.config, Arg(args, 0)))
    ensures e == BuiltinExport(ConfigFn) ==> r == GenerateConfig(Config(Arg(args, 0), Arg(args, 1), validate))
  {
    match e
    case Wrapper(fn, config) => PluginCall(fn, WrapperOptions(config, Arg(args, 0)))
    case BuiltinExport(ConfigFn) => GenerateConfig(Config(Arg(args, 0), Arg(args, 1), validate))
    case BuiltinExport(RunTestFn) => RunTests(RunTestCmd(Arg(args, 0)))
    case BuiltinExport(ProgramObj) => NotCallable
    case BuiltinExport(RunCliFn) => ParseCommandLine
    case BuiltinExport(UseFn) => RegisterPlugin
  }

  /** If two modules publish the same key, the later publication wins and no other key changes. */
  lemma LaterPublicationWins(t: Table, first: PluginModule, c1: Value, second: PluginModule, c2: Value, k: string)
    requires PublishedFn(second.props, k).Some?
    ensures var r := Publish(Publish(t, first.props, c1), second.props, c2);
      k in r.vals && r.vals[k] == Wrapper(PublishedFn(second.props, k).value, c2)
  {
    PublishedKeys(Publish(t, first.props, c1), second.props, c2, k);
  }

  /** A module's publication changes no key it does not publish. */
  lemma PublicationTouchesOnlyItsKeys(t: Table, m: PluginModule, config: Value, k: string)
    requires PublishedFn(m.props, k).None?
    ensures k in Publish(t, m.props, config).vals <==> k in t.vals
    ensures k in t.vals ==> Publish(t, m.props, config).vals[k] == t.vals[k]
  {
    PublishedKeys(t, m.props, config, k);
  }

  /** A runtime `use` after startup replaces a built-in of the same name. */
  lemma RuntimeUseOverridesBuiltin(t: Table, m: PluginModule, config: Value, k: string)
    requires BuiltinNamed(k).Some? && PublishedFn(m.props, k).Some?
    ensures k in Publish(AssignBuiltins(t), m.props, config).vals
    ensures Publish(AssignBuiltins(t), m.props, config).vals[k] == Wrapper(PublishedFn(m.props, k).value, config)
  {
    PublishedKeys(AssignBuiltins(t), m.props, config, k);
  }
}
