/**
 * Loading src/index.js: `loadPlugins`, the re-registration of every loaded plugin
 * through the exported `use`, and the final assignment of the built-ins to
 * `module.exports`. The exports object is shared, mutable state.
 */
module Api {

  import opened Wrappers
  import opened Values
  import opened PluginModules
  import opened Registry
  import opened Loader
  import opened Exports
  import opened Sequences

  /** `if (config === undefined) config = {}` at the start of the exported `use`. */
  function UseConfig(config: Value): (r: Value)
    ensures r != Undefined
    ensures config == Undefined ==> r == EmptyObject
    ensures config != Undefined ==> r == config
  {
    if config == Undefined then EmptyObject else config
  }

  /** What one exported `use` call throws, leaves in the program's call log and leaves in the exports. */
  datatype UseOutcome = UseOutcome(thrown: Option<string>, calls: seq<Invocation>, table: Table)

  /**
   * `use(pluginModule, config)` of src/index.js: activation with no try/catch, so
   * an error thrown by the plugin leaves the exports untouched; then publication.
   */
  function UseSpec(activate: ActivationOracle, history: seq<Invocation>, t: Table, m: PluginModule, config: Value): (r: UseOutcome)
    ensures r.calls == history + UseCall(m, config)
    ensures r.thrown.Some? ==> r.table == t
    ensures r.thrown.None? ==> r.table == Publish(t, m.props, UseConfig(config))
  {
    var cfg := UseConfig(config);
    match Activation(m, cfg)
    case None => UseOutcome(None, history, Publish(t, m.props, cfg))
    case Some(inv) =>
      match activate(history, inv)
      case Some(e) => UseOutcome(Some(e), history + [inv], t)
      case None => UseOutcome(None, history + [inv], Publish(t, m.props, cfg))
  }

  /** `registeredPlugins.forEach(p => use(p.pluginModule, p.config))`: stops at the first error. */
  function Republish(activate: ActivationOracle, history: seq<Invocation>, t: Table, regs: seq<Descriptor>): (r: UseOutcome)
    ensures |history| <= |r.calls| && r.calls[..|history|] == history
    decreases |regs|
  {
    if regs == [] then UseOutcome(None, history, t)
    else
      var o := UseSpec(activate, history, t, regs[0].pluginModule, regs[0].config);
      if o.thrown.Some? then o else Republish(activate, o.calls, o.table, regs[1..])
  }

  /** The publications of `regs` in order, as if none of them threw. */
  function PublishAll(t: Table, regs: seq<Descriptor>): Table
    decreases |regs|
  {
    if regs == [] then t
    else
      var d := regs[|regs| - 1];
      Publish(PublishAll(t, regs[..|regs| - 1]), d.pluginModule.props, UseConfig(d.config))
  }

  /** The wrapper held under `k` after publishing `regs`: the last plugin publishing `k` wins. */
  function LastPublisher(regs: seq<Descriptor>, k: string): (r: Option<Export>)
    ensures r.Some? ==> r.value.Wrapper?
    decreases |regs|
  {
    if regs == [] then None
    else
      var d := regs[|regs| - 1];
      match PublishedFn(d.pluginModule.props, k)
      case Some(f) => Some(Wrapper(f, UseConfig(d.config)))
      case None => LastPublisher(regs[..|regs| - 1], k)
  }

  /** Publishing several plugins: the last one publishing a key wins it; keys nobody publishes keep their values. */
  lemma {:induction false} PublishAllKeys(t: Table, regs: seq<Descriptor>, k: string)
    ensures k in PublishAll(t, regs).vals <==> k in t.vals || LastPublisher(regs, k).Some?
    ensures k in PublishAll(t, regs).vals ==>
      PublishAll(t, regs).vals[k] == if LastPublisher(regs, k).Some? then LastPublisher(regs, k).value else t.vals[k]
    decreases |regs|
  {
    if regs != [] {
      var d := regs[|regs| - 1];
      PublishAllKeys(t, regs[..|regs| - 1], k);
      PublishedKeys(PublishAll(t, regs[..|regs| - 1]), d.pluginModule.props, UseConfig(d.config), k);
    }
  }

  /** The result of loading src/index.js: the exports, or the error that aborted the load. */
  datatype StartupOutcome = StartupOutcome(
    result: Result<Table, string>,
    exports: Table,
    plugins: seq<Descriptor>,
    calls: seq<Invocation>,
    diags: seq<Diagnostic>)

  /** Loading src/index.js into a fresh process: `loadPlugins`, re-registration, built-ins. */
  function StartupSpec(env: Env): (r: StartupOutcome)
    ensures r.plugins == LoadSpec(env, [], []).plugins && r.diags == LoadSpec(env, [], []).diags
    ensures r.result.Ok? ==> r.result.value == r.exports
    ensures LoadSpec(env, [], []).result.Err? ==> r.result.Err? && r.exports == EmptyTable
  {
    var load := LoadSpec(env, [], []);
    if load.result.Err? then StartupOutcome(Err(load.result.error), EmptyTable, load.plugins, load.calls, load.diags)
    else
      var rep := Republish(env.activate, load.calls, EmptyTable, load.plugins);
      if rep.thrown.Some? then StartupOutcome(Err(rep.thrown.value), rep.table, load.plugins, rep.calls, load.diags)
      else
        var exports := AssignBuiltins(rep.table);
        StartupOutcome(Ok(exports), exports, load.plugins, rep.calls, load.diags)
  }

  /** What a plugin throws does not depend on which activation calls came before. */
  ghost predicate HistoryIndependent(activate: ActivationOracle) {
    forall h: seq<Invocation>, inv: Invocation :: activate(h, inv) == activate([], inv)
  }

  /** The activation call one `use` makes, if any. */
  function UseCall(m: PluginModule, config: Value): seq<Invocation> {
    match Activation(m, UseConfig(config))
    case None => []
    case Some(inv) => [inv]
  }

  /** The activation calls `use` makes for `regs`, in order. */
  function UseInvocations(regs: seq<Descriptor>): seq<Invocation>
    decreases |regs|
  {
    if regs == [] then [] else UseCall(regs[0].pluginModule, regs[0].config) + UseInvocations(regs[1..])
  }

  /** No call in `invs` throws. */
  ghost predicate AllQuiet(activate: ActivationOracle, invs: seq<Invocation>) {
    forall i :: 0 <= i < |invs| ==> activate([], invs[i]).None?
  }

  lemma AllQuietAppend(activate: ActivationOracle, a: seq<Invocation>, b: seq<Invocation>)
    ensures AllQuiet(activate, a + b) <==> AllQuiet(activate, a) && AllQuiet(activate, b)
  {
    assert forall i :: 0 <= i < |a| ==> (a + b)[i] == a[i];
    assert forall i :: 0 <= i < |b| ==> (a + b)[|a| + i] == b[i];
  }

  /** No diagnostic in `diags` reports an activation error. */
  predicate NoActivationFailure(diags: seq<Diagnostic>) {
    forall i :: 0 <= i < |diags| ==> !diags[i].ActivationFailed?
  }

  lemma NoActivationFailureAppend(a: seq<Diagnostic>, b: seq<Diagnostic>)
    ensures NoActivationFailure(a + b) <==> NoActivationFailure(a) && NoActivationFailure(b)
  {
    assert forall i :: 0 <= i < |a| ==> (a + b)[i] == a[i];
    assert forall i :: 0 <= i < |b| ==> (a + b)[|a| + i] == b[i];
  }

  /** One `use` call that does not throw: its activation call, then its publication. */
  lemma UseWhenQuiet(activate: ActivationOracle, history: seq<Invocation>, t: Table, m: PluginModule, config: Value)
    requires UseSpec(activate, history, t, m, config).thrown.None?
    ensures UseSpec(activate, history, t, m, config).calls == history + UseCall(m, config)
    ensures UseSpec(activate, history, t, m, config).table == Publish(t, m.props, UseConfig(config))
  {
  }

  /** Under a history-independent oracle, one `use` call throws exactly when its activation call does. */
  lemma UseThrowsIffActivationThrows(activate: ActivationOracle, history: seq<Invocation>, t: Table, m: PluginModule, config: Value)
    requires HistoryIndependent(activate)
    ensures UseSpec(activate, history, t, m, config).thrown.None? <==> AllQuiet(activate, UseCall(m, config))
  {
    match Activation(m, UseConfig(config))
    case None =>
    case Some(inv) =>
      assert activate(history, inv) == activate([], inv);
      assert UseCall(m, config) == [inv];
      assert UseSpec(activate, history, t, m, config).thrown == activate(history, inv);
      assert AllQuiet(activate, [inv]) <==> activate([], inv).None? by {
        assert [inv][0] == inv;
      }
  }

  predicate ConfigsDefined(regs: seq<Descriptor>) {
    forall i :: 0 <= i < |regs| ==> regs[i].config != Undefined
  }

  lemma {:induction false} UseInvocationsAreInvocations(regs: seq<Descriptor>)
    requires ConfigsDefined(regs)
    ensures UseInvocations(regs) == Invocations(regs)
    decreases |regs|
  {
    if regs != [] {
      UseInvocationsAreInvocations(regs[1..]);
    }
  }

  /** Every descriptor `loadPlugins` registers carries a truthy config. */
  lemma {:induction false} FoundConfigsDefined(env: Env, entries: seq<PluginEntry>, files: seq<string>)
    ensures ConfigsDefined(LocalPhase(env, entries, files).found)
    ensures ConfigsDefined(NamedPhase(env, entries).found)
    decreases |files| + |entries|
  {
    if files != [] {
      FoundConfigsDefined(env, entries, files[1..]);
    }
    if entries != [] {
      FoundConfigsDefined(env, entries[1..], files);
    }
  }

  /** Publishing one more plugin in front of `rest`, then `rest`, is publishing both in order. */
  lemma {:induction false} PublishAllCons(t: Table, d: Descriptor, rest: seq<Descriptor>)
    ensures PublishAll(Publish(t, d.pluginModule.props, UseConfig(d.config)), rest) == PublishAll(t, [d] + rest)
    decreases |rest|
  {
    if rest == [] {
      assert ([d] + rest)[..0] == [];
    } else {
      var last := rest[|rest| - 1];
      PublishAllCons(t, d, rest[..|rest| - 1]);
      assert ([d] + rest)[..|[d] + rest| - 1] == [d] + rest[..|rest| - 1];
    }
  }

  /** A first `use` that does not throw hands over to the rest of the registry. */
  lemma RepublishStep(activate: ActivationOracle, history: seq<Invocation>, t: Table, regs: seq<Descriptor>)
    requires regs != [] && Republish(activate, history, t, regs).thrown.None?
    ensures var o := UseSpec(activate, history, t, regs[0].pluginModule, regs[0].config);
      o.thrown.None? && Republish(activate, history, t, regs) == Republish(activate, o.calls, o.table, regs[1..])
  {
  }

  /** When no re-registration throws, `use` activates every plugin once more, in registry order. */
  lemma {:induction false} RepublishCallsWhenQuiet(activate: ActivationOracle, history: seq<Invocation>, t: Table, regs: seq<Descriptor>)
    requires Republish(activate, history, t, regs).thrown.None?
    ensures Republish(activate, history, t, regs).calls == history + UseInvocations(regs)
    decreases |regs|
  {
    if regs != [] {
      var d, rest := regs[0], regs[1..];
      var o := UseSpec(activate, history, t, d.pluginModule, d.config);
      RepublishStep(activate, history, t, regs);
      UseWhenQuiet(activate, history, t, d.pluginModule, d.config);
      RepublishCallsWhenQuiet(activate, o.calls, o.table, rest);
      AppendAssoc(history, UseCall(d.pluginModule, d.config), UseInvocations(rest));
    }
  }

  /** When no re-registration throws, every plugin is published, in registry order. */
  lemma {:induction false} RepublishTableWhenQuiet(activate: ActivationOracle, history: seq<Invocation>, t: Table, regs: seq<Descriptor>)
    requires Republish(activate, history, t, regs).thrown.None?
    ensures Republish(activate, history, t, regs).table == PublishAll(t, regs)
    decreases |regs|
  {
    if regs != [] {
      var d, rest := regs[0], regs[1..];
      var o := UseSpec(activate, history, t, d.pluginModule, d.config);
      RepublishStep(activate, history, t, regs);
      UseWhenQuiet(activate, history, t, d.pluginModule, d.config);
      RepublishTableWhenQuiet(activate, o.calls, o.table, rest);
      PublishAllCons(t, d, rest);
      assert [d] + rest == regs;
    }
  }

  /**
   * Under a history-independent oracle, re-registration completes exactly when
   * no activation call of `regs` throws.
   */
  lemma {:induction false} RepublishThrowsIffSomeActivationThrows(activate: ActivationOracle, history: seq<Invocation>, t: Table, regs: seq<Descriptor>)
    requires HistoryIndependent(activate)
    ensures Republish(activate, history, t, regs).thrown.None? <==> AllQuiet(activate, UseInvocations(regs))
    decreases |regs|
  {
    if regs != [] {
      var d := regs[0];
      var o := UseSpec(activate, history, t, d.pluginModule, d.config);
      RepublishThrowsIffSomeActivationThrows(activate, o.calls, o.table, regs[1..]);
      UseThrowsIffActivationThrows(activate, history, t, d.pluginModule, d.config);
      AllQuietAppend(activate, UseCall(d.pluginModule, d.config), UseInvocations(regs[1..]));
    }
  }

  /** Under a history-independent oracle, guarded activation reports an error exactly when some call throws. */
  lemma {:induction false} ActivationRunReportsThrows(activate: ActivationOracle, history: seq<Invocation>, regs: seq<Descriptor>)
    requires HistoryIndependent(activate)
    ensures NoActivationFailure(ActivationRun(activate, history, regs).diags) <==> AllQuiet(activate, Invocations(regs))
    decreases |regs|
  {
    if regs != [] {
      var inv := Activation(regs[0].pluginModule, regs[0].config);
      if inv.Some? {
        ActivationRunReportsThrows(activate, history + [inv.value], regs[1..]);
        assert activate(history, inv.value) == activate([], inv.value);
        var rest := ActivationRun(activate, history + [inv.value], regs[1..]);
        var log := ErrorLog(activate(history, inv.value));
        assert ActivationRun(activate, history, regs).diags == log + rest.diags;
        NoActivationFailureAppend(log, rest.diags);
        assert NoActivationFailure(log) <==> activate([], inv.value).None? by {
          if activate(history, inv.value).Some? {
            assert log[0].ActivationFailed?;
          }
        }
        assert Invocations(regs) == [inv.value] + Invocations(regs[1..]);
        AllQuietAppend(activate, [inv.value], Invocations(regs[1..]));
        assert AllQuiet(activate, [inv.value]) <==> activate([], inv.value).None? by {
          assert [inv.value][0] == inv.value;
        }
      } else {
        ActivationRunReportsThrows(activate, history, regs[1..]);
      }
    }
  }

  /**
   * A successful `loadPlugins` from an empty registry and a fresh program has
   * activated its registry once, and every registered config is defined.
   */
  lemma LoadedOnce(env: Env)
    requires LoadSpec(env, [], []).result.Ok?
    ensures LoadSpec(env, [], []).calls == Invocations(LoadSpec(env, [], []).plugins)
    ensures ConfigsDefined(LoadSpec(env, [], []).plugins)
  {
    var entries := Entries(LoadConfigFile(env.configFile, env.parse).0.plugins);
    var files := Listing(env.pluginsDir);
    LoadKeepsDiscoveryOrder(env, []);
    FoundConfigsDefined(env, entries, files);
    var p := LoadSpec(env, [], []).plugins;
    assert [] + Invocations(p) == Invocations(p);
  }

  /** The shape of a successful startup. */
  lemma StartupOk(env: Env)
    requires StartupSpec(env).result.Ok?
    ensures var load := LoadSpec(env, [], []);
      var rep := Republish(env.activate, load.calls, EmptyTable, load.plugins);
      && load.result.Ok? && rep.thrown.None?
      && StartupSpec(env) == StartupOutcome(Ok(AssignBuiltins(rep.table)), AssignBuiltins(rep.table), load.plugins, rep.calls, load.diags)
  {
  }

  /**
   * A successful startup activates every loaded plugin twice, once guarded in
   * `loadPlugins` and once unguarded in `use`, and its exports are the plugins'
   * publications in registry order with the built-ins assigned last.
   */
  lemma StartupActivatesTwice(env: Env)
    requires StartupSpec(env).result.Ok?
    ensures var s := StartupSpec(env);
      && s.calls == Invocations(s.plugins) + Invocations(s.plugins)
      && s.result.value == AssignBuiltins(PublishAll(EmptyTable, s.plugins))
  {
    var load := LoadSpec(env, [], []);
    StartupOk(env);
    LoadedOnce(env);
    RepublishCallsWhenQuiet(env.activate, load.calls, EmptyTable, load.plugins);
    RepublishTableWhenQuiet(env.activate, load.calls, EmptyTable, load.plugins);
    UseInvocationsAreInvocations(load.plugins);
  }

  /**
   * After startup every exports key holds a built-in if it is named like one,
   * and otherwise the wrapper of the last plugin publishing it.
   */
  lemma BuiltinsWinAtStartup(env: Env, k: string)
    requires StartupSpec(env).result.Ok?
    ensures var s := StartupSpec(env);
      && (k in s.result.value.vals <==> BuiltinNamed(k).Some? || LastPublisher(s.plugins, k).Some?)
      && (BuiltinNamed(k).Some? ==> s.result.value.vals[k] == BuiltinExport(BuiltinNamed(k).value))
      && (BuiltinNamed(k).None? && LastPublisher(s.plugins, k).Some? ==> s.result.value.vals[k] == LastPublisher(s.plugins, k).value)
  {
    StartupActivatesTwice(env);
    var s := StartupSpec(env);
    PublishAllKeys(EmptyTable, s.plugins, k);
    AssignedBuiltins(PublishAll(EmptyTable, s.plugins), k);
  }

  /** The diagnostics of a successful `loadPlugins`: file, load and activation errors, in that order. */
  lemma LoadDiagnostics(env: Env)
    requires LoadSpec(env, [], []).result.Ok?
    ensures var file := LoadConfigFile(env.configFile, env.parse);
      var named := NamedPhase(env, Entries(file.0.plugins));
      var load := LoadSpec(env, [], []);
      load.diags == file.1 + named.diags + ActivationRun(env.activate, [], load.plugins).diags
  {
  }

  /**
   * Under a history-independent oracle, a plugin whose activation error is caught
   * and reported by `loadPlugins` aborts the load of src/index.js when `use`
   * activates it again: startup succeeds exactly when `loadPlugins` succeeded and
   * reported no activation error.
   */
  lemma ThrowingPluginAbortsStartup(env: Env)
    requires HistoryIndependent(env.activate)
    ensures var load := LoadSpec(env, [], []);
      StartupSpec(env).result.Ok? <==> load.result.Ok? && NoActivationFailure(load.diags)
  {
    var load := LoadSpec(env, [], []);
    if load.result.Ok? {
      var file := LoadConfigFile(env.configFile, env.parse);
      var named := NamedPhase(env, Entries(file.0.plugins));
      var run := ActivationRun(env.activate, [], load.plugins);
      LoadDiagnostics(env);
      LoadedOnce(env);
      UseInvocationsAreInvocations(load.plugins);
      RepublishThrowsIffSomeActivationThrows(env.activate, load.calls, EmptyTable, load.plugins);
      ActivationRunReportsThrows(env.activate, [], load.plugins);
      NamedReportsNoActivationErrors(env, Entries(file.0.plugins));
      NoActivationFailureAppend(file.1 + named.diags, run.diags);
      NoActivationFailureAppend(file.1, named.diags);
    }
  }

  lemma {:induction false} NamedReportsNoActivationErrors(env: Env, entries: seq<PluginEntry>)
    ensures NoActivationFailure(NamedPhase(env, entries).diags)
    decreases |entries|
  {
    if entries != [] {
      NamedReportsNoActivationErrors(env, entries[1..]);
      var rest := NamedPhase(env, entries[1..]);
      if env.requireNamed(entries[0].name).Err? {
        NoActivationFailureAppend([PluginLoadFailed(entries[0].name, env.requireNamed(entries[0].name).error)], rest.diags);
      }
    }
  }

  /** Re-registration keeps `module.exports` well formed, whether or not a `use` throws. */
  lemma {:induction false} RepublishKeepsWellFormed(activate: ActivationOracle, history: seq<Invocation>, t: Table, regs: seq<Descriptor>)
    requires WellFormed(t)
    ensures WellFormed(Republish(activate, history, t, regs).table)
    decreases |regs|
  {
    if regs != [] {
      var d := regs[0];
      var o := UseSpec(activate, history, t, d.pluginModule, d.config);
      PublishKeepsWellFormed(t, d.pluginModule.props, UseConfig(d.config));
      if o.thrown.None? {
        RepublishKeepsWellFormed(activate, o.calls, o.table, regs[1..]);
      }
    }
  }

  /** Whatever startup ends in, the `module.exports` it leaves is well formed. */
  lemma StartupExportsWellFormed(env: Env)
    ensures WellFormed(StartupSpec(env).exports)
  {
    var load := LoadSpec(env, [], []);
    assert WellFormed(EmptyTable);
    if load.result.Ok? {
      var rep := Republish(env.activate, load.calls, EmptyTable, load.plugins);
      RepublishKeepsWellFormed(env.activate, load.calls, EmptyTable, load.plugins);
      if rep.thrown.None? {
        AssignBuiltinsKeepsWellFormed(rep.table);
      }
    }
  }

  /** The `module.exports` object of src/index.js. */
  class ModuleExports {
    var table: Table

    constructor ()
      ensures table == EmptyTable
    {
      table := EmptyTable;
    }
  }

  /** The module-level state of src/index.js: the plugin registry, `program` and `module.exports`. */
  class Host {
    const registry: PluginRegistry
    const program: Program
    const exports: ModuleExports

    constructor ()
      ensures registry.plugins == [] && registry.Valid()
      ensures program.calls == [] && exports.table == EmptyTable
      ensures fresh(registry) && fresh(program) && fresh(exports)
    {
      registry := new PluginRegistry();
      program := new Program();
      exports := new ModuleExports();
    }

    /** Step 2 of `use`: a wrapper for each own function-valued key other than `apply`. */
    method PublishModule(m: PluginModule, config: Value)
      modifies exports
      ensures exports.table == Publish(old(exports.table), m.props, config)
    {
      ghost var t0 := exports.table;
      var i := 0;
      while i < |m.props|
        invariant 0 <= i <= |m.props|
        invariant exports.table == Publish(t0, m.props[..i], config)
      {
        assert m.props[..i + 1][..i] == m.props[..i];
        var (key, value) := m.props[i];
        if key != "apply" && value.Fn? {
          exports.table := Set(exports.table, key, Wrapper(value.id, config));
        }
        i := i + 1;
      }
      assert m.props[..i] == m.props;
    }

    /** The exported `use(pluginModule, config)`; the result is the error it lets escape, if any. */
    method Use(m: PluginModule, config: Value, activate: ActivationOracle) returns (thrown: Option<string>)
      modifies program, exports
      ensures var o := UseSpec(activate, old(program.calls), old(exports.table), m, config);
        thrown == o.thrown && program.calls == o.calls && exports.table == o.table
    {
      var cfg := if config == Undefined then EmptyObject else config;
      var inv := Activation(m, cfg);
      if inv.Some? {
        thrown := Activate(program, activate, inv.value);
        if thrown.Some? {
          return;
        }
      } else {
        thrown := None;
      }
      PublishModule(m, cfg);
    }

    /** Lines 155-157 of src/index.js: every registered plugin through `use`, in registry order. */
    method RepublishAll(activate: ActivationOracle) returns (thrown: Option<string>)
      modifies program, exports
      ensures var o := Republish(activate, old(program.calls), old(exports.table), registry.plugins);
        thrown == o.thrown && program.calls == o.calls && exports.table == o.table
    {
      ghost var goal := Republish(activate, program.calls, exports.table, registry.plugins);
      var regs := registry.plugins;
      var k := 0;
      while k < |regs|
        invariant 0 <= k <= |regs|
        invariant Republish(activate, program.calls, exports.table, regs[k..]) == goal
      {
        assert regs[k..][0] == regs[k] && regs[k..][1..] == regs[k + 1..];
        thrown := Use(regs[k].pluginModule, regs[k].config, activate);
        if thrown.Some? {
          return;
        }
        k := k + 1;
      }
      thrown := None;
    }

    /** The final `Object.assign(module.exports, {config, runTest, program, runCLI, use})`. */
    method AssignBuiltinsToExports()
      modifies exports
      ensures exports.table == AssignBuiltins(old(exports.table))
    {
      ghost var t0 := exports.table;
      var i := 0;
      while i < |BuiltinNames|
        invariant 0 <= i <= |BuiltinNames|
        invariant exports.table == AssignNamed(t0, BuiltinNames[..i])
      {
        assert BuiltinNames[..i + 1][..i] == BuiltinNames[..i];
        var name := BuiltinNames[i];
        exports.table := Set(exports.table, name, BuiltinExport(BuiltinNamed(name).value));
        i := i + 1;
      }
      assert BuiltinNames[..i] == BuiltinNames;
    }

    /** Loading src/index.js from a fresh state; `r` is the exports, or the error that aborts the load. */
    method Startup(env: Env) returns (r: Result<Table, string>, diags: seq<Diagnostic>)
      requires registry.Valid() && registry.plugins == [] && program.calls == [] && exports.table == EmptyTable
      modifies registry, program, exports
      ensures var s := StartupSpec(env);
        && r == s.result && exports.table == s.exports
        && registry.plugins == s.plugins && program.calls == s.calls && diags == s.diags
    {
      var loaded;
      loaded, diags := registry.LoadPlugins(program, env);
      if loaded.Err? {
        return Err(loaded.error), diags;
      }
      var thrown := RepublishAll(env.activate);
      if thrown.Some? {
        return Err(thrown.value), diags;
      }
      AssignBuiltinsToExports();
      r := Ok(exports.table);
    }
  }
}
