/**
 * src/plugins.js: the registry, the descriptor file loader and plugin discovery
 * and activation. The file system, `JSON.parse`, `require` and the plugins' own
 * code are oracles gathered in an `Env`.
 */
module Loader {

  import opened Wrappers
  import opened Values
  import opened PluginModules
  import opened Registry
  import opened Sequences

  /** The descriptor file `sla-wizard.config.json` in the working directory. */
  datatype FileState = Missing | Present(text: string)

  /** One element of the descriptor file's `plugins` array. */
  datatype PluginEntry = PluginEntry(name: string, config: Value)

  /** The `plugins` field: falsy or absent, or an array of entries. */
  datatype PluginsField = NoPlugins | PluginList(entries: seq<PluginEntry>)

  /** A parsed descriptor file, reduced to what the loader reads of it: JSON `null`,
      or any other JSON value together with its `plugins` field. */
  datatype ConfigDocument = NullDocument | Document(plugins: PluginsField)

  /** `{}` */
  const EmptyDocument := Document(NoPlugins)

  /** A line written to standard error. */
  datatype Diagnostic =
    | ConfigFileUnreadable(message: string)
    | PluginLoadFailed(name: string, message: string)
    | ActivationFailed(message: string)

  /** The error thrown by `configFile.plugins` when the file holds JSON `null`. */
  const NullPluginsRead := "TypeError: Cannot read properties of null (reading 'plugins')"

  /**
   * Everything the loader observes: the descriptor file, `JSON.parse`, the listing
   * of the `plugins` directory (absent when the directory does not exist),
   * `require` of a local file and of a package name, and what plugin code throws.
   */
  datatype Env = Env(
    configFile: FileState,
    parse: string -> Result<ConfigDocument, string>,
    pluginsDir: Option<seq<string>>,
    requireLocal: string -> Result<PluginModule, string>,
    requireNamed: string -> Result<PluginModule, string>,
    activate: ActivationOracle)

  /** `loadConfigFile()`: never throws; an absent or unparseable file reads as `{}`. */
  function LoadConfigFile(file: FileState, parse: string -> Result<ConfigDocument, string>): (r: (ConfigDocument, seq<Diagnostic>))
    ensures r.1 != [] <==> file.Present? && parse(file.text).Err?
    ensures r.1 != [] ==> r.1 == [ConfigFileUnreadable(parse(file.text).error)]
    ensures r.0 == if file.Present? && parse(file.text).Ok? then parse(file.text).value else EmptyDocument
  {
    match file
    case Missing => (EmptyDocument, [])
    case Present(text) =>
      match parse(text)
      case Ok(doc) => (doc, [])
      case Err(msg) => (EmptyDocument, [ConfigFileUnreadable(msg)])
  }

  /** `configFile.plugins || []` */
  function Entries(plugins: PluginsField): seq<PluginEntry> {
    match plugins
    case NoPlugins => []
    case PluginList(entries) => entries
  }

  /** The directory listing, empty when the directory is absent. */
  function Listing(dir: Option<seq<string>>): seq<string> {
    match dir
    case None => []
    case Some(files) => files
  }

  predicate EndsWith(s: string, suffix: string) {
    |suffix| <= |s| && s[|s| - |suffix|..] == suffix
  }

  predicate OccursAt(s: string, pat: string, j: nat) {
    j + |pat| <= |s| && s[j..j + |pat|] == pat
  }

  /** The index of the first occurrence of `pat` in `s`. */
  function IndexOf(s: string, pat: string): (r: Option<nat>)
    ensures r.Some? ==> r.value + |pat| <= |s|
    decreases |s|
  {
    if |s| < |pat| then None
    else if s[..|pat|] == pat then Some(0)
    else
      match IndexOf(s[1..], pat)
      case None => None
      case Some(i) => Some(i + 1)
  }

  lemma {:induction false} IndexOfIsFirstOccurrence(s: string, pat: string)
    ensures IndexOf(s, pat).Some? ==> OccursAt(s, pat, IndexOf(s, pat).value)
    ensures forall j: nat :: OccursAt(s, pat, j) ==> IndexOf(s, pat).Some? && IndexOf(s, pat).value <= j
    decreases |s|
  {
    if |s| < |pat| {
    } else if s[..|pat|] == pat {
    } else {
      IndexOfIsFirstOccurrence(s[1..], pat);
      forall j: nat | OccursAt(s, pat, j)
        ensures IndexOf(s, pat).Some? && IndexOf(s, pat).value <= j
      {
        assert j != 0;
        assert s[1..][j - 1..j - 1 + |pat|] == s[j..j + |pat|];
        assert OccursAt(s[1..], pat, j - 1);
      }
      if IndexOf(s, pat).Some? {
        var i := IndexOf(s[1..], pat).value;
        assert s[1..][i..i + |pat|] == s[i + 1..i + 1 + |pat|];
      }
    }
  }

  /** A pattern `IndexOf` does not find occurs nowhere. */
  lemma NotFoundAnywhere(s: string, pat: string, j: nat)
    requires IndexOf(s, pat).None?
    ensures !OccursAt(s, pat, j)
  {
    IndexOfIsFirstOccurrence(s, pat);
  }

  /** `file.replace(".js", "")`: removes the first occurrence of ".js". */
  function StripJs(file: string): (r: string)
    ensures IndexOf(file, ".js").None? ==> r == file
    ensures IndexOf(file, ".js").Some? ==> |r| == |file| - 3
  {
    match IndexOf(file, ".js")
    case None => file
    case Some(i) => file[..i] + file[i + 3..]
  }

  /** ".js" cannot start inside `base` when it does not occur in `base`. */
  lemma NoEarlierOccurrence(base: string, i: nat)
    requires IndexOf(base, ".js").None?
    requires i < |base|
    ensures !OccursAt(base + ".js", ".js", i)
  {
    if i + 3 <= |base| {
      NotFoundAnywhere(base, ".js", i);
      assert (base + ".js")[i..i + 3] == base[i..i + 3];
    } else {
      NoOccurrenceAcrossTheEnd(base, i);
    }
  }

  /** A ".js" starting in the last two characters of `base` would need `s[|base|]`, a dot, at offset 1 or 2. */
  lemma NoOccurrenceAcrossTheEnd(base: string, i: nat)
    requires i < |base| < i + 3
    ensures !OccursAt(base + ".js", ".js", i)
  {
    var s := base + ".js";
    var d := |base| - i;
    assert s[|base|] == '.';
    assert d == 1 || d == 2;
    assert s[i..i + 3][d] == s[|base|];
    assert ".js"[d] != '.';
  }

  /** A file named after a plugin, `<name>.js`, is matched against `name`. */
  lemma StripJsOfBaseName(base: string)
    requires IndexOf(base, ".js").None?
    ensures StripJs(base + ".js") == base
  {
    var s := base + ".js";
    IndexOfIsFirstOccurrence(s, ".js");
    assert OccursAt(s, ".js", |base|) by {
      assert s[|base|..|base| + 3] == ".js";
    }
    var i := IndexOf(s, ".js").value;
    if i < |base| {
      NoEarlierOccurrence(base, i);
    }
    assert i == |base|;
    assert s[..i] == base;
    assert s[i + 3..] == [];
  }

  /** `pluginsConfig.find(p => p.name === name)`, as an index. */
  function FindEntry(entries: seq<PluginEntry>, name: string): (r: Option<nat>)
    ensures r.Some? ==> r.value < |entries| && entries[r.value].name == name
    ensures forall j :: 0 <= j < |entries| && (r.None? || j < r.value) ==> entries[j].name != name
    decreases |entries|
  {
    if entries == [] then None
    else if entries[0].name == name then Some(0)
    else
      match FindEntry(entries[1..], name)
      case None => None
      case Some(i) => Some(i + 1)
  }

  /** `conf?.config || {}` for a local file: the config of the first entry named like the file. */
  function LocalConfig(entries: seq<PluginEntry>, file: string): (r: Value)
    ensures Truthy(r)
    ensures FindEntry(entries, StripJs(file)).None? ==> r == EmptyObject
    ensures FindEntry(entries, StripJs(file)).Some? ==> r == OrEmpty(entries[FindEntry(entries, StripJs(file)).value].config)
  {
    match FindEntry(entries, StripJs(file))
    case None => EmptyObject
    case Some(i) => OrEmpty(entries[i].config)
  }

  /** The local files that become plugins, in listing order. */
  function JsFiles(files: seq<string>): (r: seq<string>)
    ensures forall f :: f in r <==> f in files && EndsWith(f, ".js")
    decreases |files|
  {
    if files == [] then []
    else if EndsWith(files[0], ".js") then [files[0]] + JsFiles(files[1..])
    else
      assert forall f :: f in files <==> f == files[0] || f in files[1..];
      JsFiles(files[1..])
  }

  /** Descriptors found so far, and the error that stopped discovery, if any. */
  datatype LocalOutcome = LocalOutcome(found: seq<Descriptor>, crash: Option<string>)

  /** Step 1 of `loadPlugins`: local `*.js` files. A failing `require` is not caught. */
  function LocalPhase(env: Env, entries: seq<PluginEntry>, files: seq<string>): LocalOutcome
    decreases |files|
  {
    if files == [] then LocalOutcome([], None)
    else if !EndsWith(files[0], ".js") then LocalPhase(env, entries, files[1..])
    else
      match env.requireLocal(files[0])
      case Err(msg) => LocalOutcome([], Some(msg))
      case Ok(m) =>
        var rest := LocalPhase(env, entries, files[1..]);
        LocalOutcome([Descriptor(m, LocalConfig(entries, files[0]), 0)] + rest.found, rest.crash)
  }

  /** Descriptors found and load errors reported. */
  datatype NamedOutcome = NamedOutcome(found: seq<Descriptor>, diags: seq<Diagnostic>)

  /** Step 2 of `loadPlugins`: every entry as a package name; a failure is logged and skipped. */
  function NamedPhase(env: Env, entries: seq<PluginEntry>): NamedOutcome
    decreases |entries|
  {
    if entries == [] then NamedOutcome([], [])
    else
      var rest := NamedPhase(env, entries[1..]);
      match env.requireNamed(entries[0].name)
      case Ok(m) => NamedOutcome([Descriptor(m, OrEmpty(entries[0].config), 0)] + rest.found, rest.diags)
      case Err(msg) => NamedOutcome(rest.found, [PluginLoadFailed(entries[0].name, msg)] + rest.diags)
  }

  /** The activation calls made and errors reported. */
  datatype RunOutcome = RunOutcome(calls: seq<Invocation>, diags: seq<Diagnostic>)

  function ErrorLog(thrown: Option<string>): seq<Diagnostic> {
    match thrown
    case None => []
    case Some(msg) => [ActivationFailed(msg)]
  }

  /** Step 3 of `loadPlugins`: each plugin in list order, an error caught per plugin. */
  function ActivationRun(activate: ActivationOracle, history: seq<Invocation>, regs: seq<Descriptor>): (r: RunOutcome)
    ensures |r.diags| <= |r.calls| <= |regs|
    decreases |regs|
  {
    if regs == [] then RunOutcome([], [])
    else
      match Activation(regs[0].pluginModule, regs[0].config)
      case None => ActivationRun(activate, history, regs[1..])
      case Some(inv) =>
        var rest := ActivationRun(activate, history + [inv], regs[1..]);
        RunOutcome([inv] + rest.calls, ErrorLog(activate(history, inv)) + rest.diags)
  }

  /**
   * After the first `k` descriptors of `regs`, activation has made the calls
   * `done` and reported `errors`, and the rest of the run accounts for the remainder.
   */
  ghost predicate RunSoFar(activate: ActivationOracle, history0: seq<Invocation>, regs: seq<Descriptor>, k: nat,
                           done: seq<Invocation>, errors: seq<Diagnostic>)
  {
    && k <= |regs|
    && var rest := ActivationRun(activate, history0 + done, regs[k..]);
       ActivationRun(activate, history0, regs) == RunOutcome(done + rest.calls, errors + rest.diags)
  }

  lemma RunSoFarStep(activate: ActivationOracle, history0: seq<Invocation>, regs: seq<Descriptor>, k: nat,
                     done: seq<Invocation>, errors: seq<Diagnostic>)
    requires k < |regs|
    requires RunSoFar(activate, history0, regs, k, done, errors)
    ensures var inv := Activation(regs[k].pluginModule, regs[k].config);
      if inv.None? then RunSoFar(activate, history0, regs, k + 1, done, errors)
      else RunSoFar(activate, history0, regs, k + 1, done + [inv.value],
                    errors + ErrorLog(activate(history0 + done, inv.value)))
  {
    assert regs[k..][0] == regs[k] && regs[k..][1..] == regs[k + 1..];
    var inv := Activation(regs[k].pluginModule, regs[k].config);
    if inv.Some? {
      RunSoFarCall(activate, history0, regs, k, done, errors, inv.value);
    }
  }

  lemma RunSoFarCall(activate: ActivationOracle, history0: seq<Invocation>, regs: seq<Descriptor>, k: nat,
                     done: seq<Invocation>, errors: seq<Diagnostic>, inv: Invocation)
    requires k < |regs|
    requires RunSoFar(activate, history0, regs, k, done, errors)
    requires ActivationRun(activate, history0 + done, regs[k..]) ==
      var rest := ActivationRun(activate, history0 + done + [inv], regs[k + 1..]);
      RunOutcome([inv] + rest.calls, ErrorLog(activate(history0 + done, inv)) + rest.diags)
    ensures RunSoFar(activate, history0, regs, k + 1, done + [inv], errors + ErrorLog(activate(history0 + done, inv)))
  {
    var h := history0 + done + [inv];
    assert history0 + (done + [inv]) == h;
    var rest := ActivationRun(activate, h, regs[k + 1..]);
    var log := ErrorLog(activate(history0 + done, inv));
    var whole := ActivationRun(activate, history0, regs);
    assert whole.calls == done + ([inv] + rest.calls);
    assert whole.diags == errors + (log + rest.diags);
    AppendAssoc(done, [inv], rest.calls);
    AppendAssoc(errors, log, rest.diags);
  }

  /** The activation call each descriptor gets, in order; modules that cannot be activated get none. */
  function Invocations(regs: seq<Descriptor>): seq<Invocation>
    decreases |regs|
  {
    if regs == [] then []
    else
      match Activation(regs[0].pluginModule, regs[0].config)
      case None => Invocations(regs[1..])
      case Some(inv) => [inv] + Invocations(regs[1..])
  }

  /** The result of `loadPlugins` (or the error it throws) and the state it leaves. */
  datatype LoadOutcome = LoadOutcome(
    result: Result<seq<Descriptor>, string>,
    plugins: seq<Descriptor>,
    calls: seq<Invocation>,
    diags: seq<Diagnostic>)

  /** `loadPlugins(program, ctx)` on a registry holding `plugins0` and a program that has received `history0`. */
  function LoadSpec(env: Env, plugins0: seq<Descriptor>, history0: seq<Invocation>): (r: LoadOutcome)
    ensures r.result.Ok? ==> r.result.value == r.plugins
    ensures r.result.Err? ==> r.calls == history0
    ensures |history0| <= |r.calls| && r.calls[..|history0|] == history0
  {
    var file := LoadConfigFile(env.configFile, env.parse);
    if file.0.NullDocument? then LoadOutcome(Err(NullPluginsRead), plugins0, history0, file.1)
    else
      var entries := Entries(file.0.plugins);
      var local := LocalPhase(env, entries, Listing(env.pluginsDir));
      if local.crash.Some? then LoadOutcome(Err(local.crash.value), InsertAll(plugins0, local.found), history0, file.1)
      else
        var named := NamedPhase(env, entries);
        var regs := InsertAll(plugins0, local.found + named.found);
        var run := ActivationRun(env.activate, history0, regs);
        LoadOutcome(Ok(regs), regs, history0 + run.calls, file.1 + named.diags + run.diags)
  }

  /** Local discovery fails exactly when some `*.js` file fails to load. */
  lemma {:induction false} LocalPhaseFailsOnJsFiles(env: Env, entries: seq<PluginEntry>, files: seq<string>)
    ensures LocalPhase(env, entries, files).crash.None? <==> forall f :: f in JsFiles(files) ==> env.requireLocal(f).Ok?
    decreases |files|
  {
    if files != [] {
      LocalPhaseFailsOnJsFiles(env, entries, files[1..]);
      if EndsWith(files[0], ".js") {
        assert JsFiles(files) == [files[0]] + JsFiles(files[1..]);
      } else {
        assert JsFiles(files) == JsFiles(files[1..]);
      }
    }
  }

  /**
   * `found` holds one descriptor of priority 0 per file of `js`, in order, each
   * carrying the module the file loads to and the config of the first entry
   * named like the file.
   */
  predicate LoadedAs(env: Env, entries: seq<PluginEntry>, found: seq<Descriptor>, js: seq<string>) {
    && |found| == |js|
    && forall i :: 0 <= i < |found| ==>
         && env.requireLocal(js[i]).Ok?
         && found[i] == Descriptor(env.requireLocal(js[i]).value, LocalConfig(entries, js[i]), 0)
  }

  lemma LoadedAsCons(env: Env, entries: seq<PluginEntry>, found: seq<Descriptor>, js: seq<string>, f: string)
    requires LoadedAs(env, entries, found, js)
    requires env.requireLocal(f).Ok?
    ensures LoadedAs(env, entries, [Descriptor(env.requireLocal(f).value, LocalConfig(entries, f), 0)] + found, [f] + js)
  {
    var d := Descriptor(env.requireLocal(f).value, LocalConfig(entries, f), 0);
    forall i | 0 < i < |found| + 1
      ensures ([d] + found)[i] == found[i - 1] && ([f] + js)[i] == js[i - 1]
    {
    }
  }

  /**
   * Local discovery that does not fail yields one descriptor of priority 0 per
   * `*.js` file, in listing order, carrying the config of the first entry named
   * like the file.
   */
  lemma {:induction false} LocalPhaseLoadsJsFiles(env: Env, entries: seq<PluginEntry>, files: seq<string>)
    requires LocalPhase(env, entries, files).crash.None?
    ensures LoadedAs(env, entries, LocalPhase(env, entries, files).found, JsFiles(files))
    decreases |files|
  {
    if files != [] {
      LocalPhaseLoadsJsFiles(env, entries, files[1..]);
      if EndsWith(files[0], ".js") {
        var rest := LocalPhase(env, entries, files[1..]);
        assert JsFiles(files) == [files[0]] + JsFiles(files[1..]);
        LoadedAsCons(env, entries, rest.found, JsFiles(files[1..]), files[0]);
      } else {
        assert JsFiles(files) == JsFiles(files[1..]);
      }
    }
  }

  /** Every descriptor discovery yields has priority 0. */
  lemma {:induction false} DiscoveredPriorityZero(env: Env, entries: seq<PluginEntry>, files: seq<string>)
    ensures forall i :: 0 <= i < |LocalPhase(env, entries, files).found| ==> LocalPhase(env, entries, files).found[i].priority == 0
    ensures forall i :: 0 <= i < |NamedPhase(env, entries).found| ==> NamedPhase(env, entries).found[i].priority == 0
    decreases |files| + |entries|
  {
    if files != [] {
      DiscoveredPriorityZero(env, entries, files[1..]);
    }
    if entries != [] {
      DiscoveredPriorityZero(env, entries[1..], []);
    }
  }

  /** Named loading of `a + b` is loading `a` and then `b`: a failed entry does not affect later ones. */
  lemma {:induction false} NamedPhaseIsolates(env: Env, a: seq<PluginEntry>, b: seq<PluginEntry>)
    ensures NamedPhase(env, a + b).found == NamedPhase(env, a).found + NamedPhase(env, b).found
    ensures NamedPhase(env, a + b).diags == NamedPhase(env, a).diags + NamedPhase(env, b).diags
    decreases |a|
  {
    if a == [] {
      assert a + b == b;
    } else {
      assert (a + b)[0] == a[0] && (a + b)[1..] == a[1..] + b;
      NamedPhaseIsolates(env, a[1..], b);
    }
  }

  /** Local discovery of `a + b` is discovery of `a`, then of `b` unless `a` stopped with an error. */
  lemma {:induction false} LocalPhaseAppend(env: Env, entries: seq<PluginEntry>, a: seq<string>, b: seq<string>)
    ensures var oa := LocalPhase(env, entries, a);
      var ob := LocalPhase(env, entries, b);
      LocalPhase(env, entries, a + b) == if oa.crash.Some? then oa else LocalOutcome(oa.found + ob.found, ob.crash)
    decreases |a|
  {
    if a == [] {
      assert a + b == b;
    } else {
      assert (a + b)[0] == a[0] && (a + b)[1..] == a[1..] + b;
      LocalPhaseAppend(env, entries, a[1..], b);
    }
  }

  /** Every entry is attempted: it is either registered or reported, and all register when all resolve. */
  lemma {:induction false} NamedPhaseAttemptsEveryEntry(env: Env, entries: seq<PluginEntry>)
    ensures |NamedPhase(env, entries).found| + |NamedPhase(env, entries).diags| == |entries|
    ensures (forall i :: 0 <= i < |entries| ==> env.requireNamed(entries[i].name).Ok?) ==>
      && NamedPhase(env, entries).diags == []
      && |NamedPhase(env, entries).found| == |entries|
      && forall i :: 0 <= i < |entries| ==>
           NamedPhase(env, entries).found[i] == Descriptor(env.requireNamed(entries[i].name).value, OrEmpty(entries[i].config), 0)
    decreases |entries|
  {
    if entries != [] {
      NamedPhaseAttemptsEveryEntry(env, entries[1..]);
      if forall i :: 0 <= i < |entries| ==> env.requireNamed(entries[i].name).Ok? {
        assert forall i :: 0 <= i < |entries[1..]| ==> entries[1..][i] == entries[i + 1];
      }
    }
  }

  /** Every plugin is activated in list order whatever earlier activations threw. */
  lemma {:induction false} ActivationVisitsAll(activate: ActivationOracle, history: seq<Invocation>, regs: seq<Descriptor>)
    ensures ActivationRun(activate, history, regs).calls == Invocations(regs)
    ensures |ActivationRun(activate, history, regs).diags| <= |Invocations(regs)|
    decreases |regs|
  {
    if regs != [] {
      var inv := Activation(regs[0].pluginModule, regs[0].config);
      if inv.Some? {
        ActivationVisitsAll(activate, history + [inv.value], regs[1..]);
      } else {
        ActivationVisitsAll(activate, history, regs[1..]);
      }
    }
  }

  /**
   * On an empty registry `loadPlugins` returns the registry itself holding the
   * local plugins followed by the named ones, in discovery order.
   */
  lemma LoadKeepsDiscoveryOrder(env: Env, history0: seq<Invocation>)
    requires LoadSpec(env, [], history0).result.Ok?
    ensures var s := LoadSpec(env, [], history0);
      var entries := Entries(LoadConfigFile(env.configFile, env.parse).0.plugins);
      && s.result.value == s.plugins
      && s.plugins == LocalPhase(env, entries, Listing(env.pluginsDir)).found + NamedPhase(env, entries).found
      && s.calls == history0 + Invocations(s.plugins)
  {
    var entries := Entries(LoadConfigFile(env.configFile, env.parse).0.plugins);
    var files := Listing(env.pluginsDir);
    var ds := LocalPhase(env, entries, files).found + NamedPhase(env, entries).found;
    DiscoveredPriorityZero(env, entries, files);
    EqualPrioritiesKeepRegistrationOrder(ds, 0);
    ActivationVisitsAll(env.activate, history0, ds);
  }

  /**
   * The module-global `plugins` array of src/plugins.js. Its invariant: sorted by
   * priority, and no descriptor's config is `undefined`.
   */
  class PluginRegistry {
    var plugins: seq<Descriptor>

    ghost predicate Valid()
      reads this
    {
      Sorted(plugins) && forall i :: 0 <= i < |plugins| ==> plugins[i].config != Undefined
    }

    constructor ()
      ensures Valid() && plugins == []
    {
      plugins := [];
    }

    /** `use(pluginModule, config = {}, priority = 0)`: push, then stable sort by priority. */
    method Use(pluginModule: PluginModule, config: Value, priority: Option<int>)
      requires Valid()
      modifies this
      ensures Valid()
      ensures var d := Descriptor(pluginModule, if config == Undefined then EmptyObject else config, priority.GetOr(0));
        && plugins == Insert(old(plugins), d)
        && |plugins| == |old(plugins)| + 1
        && multiset(plugins) == multiset(old(plugins)) + multiset{d}
    {
      var d := Descriptor(pluginModule, if config == Undefined then EmptyObject else config, priority.GetOr(0));
      plugins := plugins + [d];
      plugins := StableSort(plugins);
      PushThenSortIsInsert(old(plugins), d);
      InsertSorted(old(plugins), d);
      assert multiset(plugins) == multiset(old(plugins)) + multiset{d};
      forall i | 0 <= i < |plugins|
        ensures plugins[i].config != Undefined
      {
        assert plugins[i] in multiset(plugins);
      }
    }

    /** One local file: registered when it is a `*.js` file that loads. */
    method LoadLocalFile(env: Env, entries: seq<PluginEntry>, file: string) returns (crash: Option<string>)
      requires Valid()
      modifies this
      ensures Valid()
      ensures var o := LocalPhase(env, entries, [file]);
        crash == o.crash && plugins == InsertAll(old(plugins), o.found)
    {
      assert [file][1..] == [];
      crash := None;
      if EndsWith(file, ".js") {
        var loaded := env.requireLocal(file);
        if loaded.Err? {
          return Some(loaded.error);
        }
        Use(loaded.value, LocalConfig(entries, file), None);
        assert [Descriptor(loaded.value, LocalConfig(entries, file), 0)][..0] == [];
      }
    }

    /** Step 1 of `loadPlugins`: registers the local `*.js` files until one fails to load. */
    method LoadLocal(env: Env, entries: seq<PluginEntry>, files: seq<string>) returns (crash: Option<string>)
      requires Valid()
      modifies this
      ensures Valid()
      ensures var o := LocalPhase(env, entries, files);
        crash == o.crash && plugins == InsertAll(old(plugins), o.found)
    {
      crash := None;
      var i := 0;
      while i < |files|
        invariant 0 <= i <= |files|
        invariant Valid()
        invariant crash.None?
        invariant var o := LocalPhase(env, entries, files[..i]);
          o.crash.None? && plugins == InsertAll(old(plugins), o.found)
      {
        ghost var before := plugins;
        crash := LoadLocalFile(env, entries, files[i]);
        assert files[..i + 1] == files[..i] + [files[i]];
        LocalPhaseAppend(env, entries, files[..i], [files[i]]);
        InsertAllAppend(old(plugins), LocalPhase(env, entries, files[..i]).found, LocalPhase(env, entries, [files[i]]).found);
        if crash.Some? {
          LocalPhaseAppend(env, entries, files[..i + 1], files[i + 1..]);
          assert files[..i + 1] + files[i + 1..] == files;
          return;
        }
        i := i + 1;
      }
      assert files[..i] == files;
    }

    /** One descriptor file entry, loaded as a package: registered, or its failure logged. */
    method LoadNamedEntry(env: Env, entry: PluginEntry) returns (errors: seq<Diagnostic>)
      requires Valid()
      modifies this
      ensures Valid()
      ensures var o := NamedPhase(env, [entry]);
        errors == o.diags && plugins == InsertAll(old(plugins), o.found)
    {
      assert [entry][1..] == [];
      var loaded := env.requireNamed(entry.name);
      if loaded.Ok? {
        Use(loaded.value, OrEmpty(entry.config), None);
        assert [Descriptor(loaded.value, OrEmpty(entry.config), 0)][..0] == [];
        errors := [];
      } else {
        errors := [PluginLoadFailed(entry.name, loaded.error)];
      }
    }

    /** Step 2 of `loadPlugins`: registers every entry that resolves as a package, logging the others. */
    method LoadNamed(env: Env, entries: seq<PluginEntry>) returns (errors: seq<Diagnostic>)
      requires Valid()
      modifies this
      ensures Valid()
      ensures var o := NamedPhase(env, entries);
        errors == o.diags && plugins == InsertAll(old(plugins), o.found)
    {
      errors := [];
      var j := 0;
      while j < |entries|
        invariant 0 <= j <= |entries|
        invariant Valid()
        invariant var o := NamedPhase(env, entries[..j]);
          errors == o.diags && plugins == InsertAll(old(plugins), o.found)
      {
        var more := LoadNamedEntry(env, entries[j]);
        assert entries[..j + 1] == entries[..j] + [entries[j]];
        NamedPhaseIsolates(env, entries[..j], [entries[j]]);
        InsertAllAppend(old(plugins), NamedPhase(env, entries[..j]).found, NamedPhase(env, [entries[j]]).found);
        errors := errors + more;
        j := j + 1;
      }
      assert entries[..j] == entries;
    }

    /** Step 3 of `loadPlugins`: activates every registered plugin in list order, catching each error. */
    method ActivateAll(program: Program, activate: ActivationOracle) returns (errors: seq<Diagnostic>)
      modifies program
      ensures var o := ActivationRun(activate, old(program.calls), plugins);
        program.calls == old(program.calls) + o.calls && errors == o.diags
    {
      ghost var history0 := program.calls;
      ghost var done: seq<Invocation> := [];
      errors := [];
      var k := 0;
      while k < |plugins|
        invariant 0 <= k <= |plugins|
        invariant program.calls == history0 + done
        invariant RunSoFar(activate, history0, plugins, k, done, errors)
      {
        var d := plugins[k];
        var inv := Activation(d.pluginModule, d.config);
        RunSoFarStep(activate, history0, plugins, k, done, errors);
        if inv.Some? {
          var thrown := Activate(program, activate, inv.value);
          if thrown.Some? {
            errors := errors + [ActivationFailed(thrown.value)];
          } else {
            assert errors + ErrorLog(thrown) == errors;
          }
          done := done + [inv.value];
        }
        k := k + 1;
      }
      assert plugins[|plugins|..] == [];
    }

    /** `loadPlugins(program, ctx)`: discovery, registration and guarded activation; returns the registry itself. */
    method LoadPlugins(program: Program, env: Env) returns (r: Result<seq<Descriptor>, string>, diags: seq<Diagnostic>)
      requires Valid()
      modifies this, program
      ensures Valid()
      ensures var s := LoadSpec(env, old(plugins), old(program.calls));
        r == s.result && plugins == s.plugins && program.calls == s.calls && diags == s.diags
    {
      var file := LoadConfigFile(env.configFile, env.parse);
      diags := file.1;
      if file.0.NullDocument? {
        return Err(NullPluginsRead), diags;
      }
      var entries := Entries(file.0.plugins);
      ghost var plugins0 := plugins;
      var crash := LoadLocal(env, entries, Listing(env.pluginsDir));
      if crash.Some? {
        return Err(crash.value), diags;
      }
      ghost var afterLocal := plugins;
      var loadErrors := LoadNamed(env, entries);
      ghost var local := LocalPhase(env, entries, Listing(env.pluginsDir)).found;
      ghost var named := NamedPhase(env, entries).found;
      InsertAllAppend(plugins0, local, named);
      var runErrors := ActivateAll(program, env.activate);
      diags := diags + loadErrors + runErrors;
      r := Ok(plugins);
    }
  }
}
