/**
 * index.js: the value the package exports, a Proxy around an anonymous function
 * whose traps look first at that function and then at the `module.exports` of
 * src/index.js, which they read afresh at every access.
 */
module Surface {

  import opened Wrappers
  import opened Values
  import opened PluginModules
  import opened Exports
  import opened Api

  /** A property found by `get`: one of the target's own, an export, or a member inherited from `Object.prototype`. */
  datatype Member = TargetMember(value: Value) | ExportMember(exported: Export) | PrototypeMember(name: string)

  /** The data descriptor `getOwnPropertyDescriptor` reports. */
  datatype PropertyDescriptor = PropertyDescriptor(value: Member, enumerable: bool)

  /**
   * The Proxy target: its own properties, all their keys in `Reflect.ownKeys`
   * order, those of them `Object.keys` lists, those that are non-configurable,
   * and the string keys it inherits.
   */
  datatype TargetObject = TargetObject(
    own: map<string, Value>,
    ownOrder: seq<string>,
    enumerable: seq<string>,
    nonConfigurable: set<string>,
    inherited: set<string>)

  /** String keys every ordinary object inherits from `Object.prototype`. */
  const ObjectPrototypeKeys: set<string> := {
    "constructor", "hasOwnProperty", "isPrototypeOf", "propertyIsEnumerable", "toLocaleString",
    "toString", "valueOf", "__defineGetter__", "__defineSetter__", "__lookupGetter__",
    "__lookupSetter__", "__proto__"}

  /** String keys a function inherits from `Function.prototype`. */
  const FunctionPrototypeKeys: set<string> := {
    "length", "name", "arguments", "caller", "constructor", "apply", "bind", "call", "toString"}

  /**
   * `function () { ... }` outside strict mode: own non-enumerable `length`,
   * `name`, `arguments`, `caller` and `prototype`; the last three are
   * non-configurable, and `arguments` and `caller` are `null`.
   */
  const FunctionTarget := TargetObject(
    map["length" := Num(0), "name" := Str(""), "arguments" := Null, "caller" := Null, "prototype" := EmptyObject],
    ["length", "name", "arguments", "caller", "prototype"],
    [],
    {"arguments", "caller", "prototype"},
    FunctionPrototypeKeys + ObjectPrototypeKeys)

  /** The target's key lists agree with its property map. */
  ghost predicate TargetWellFormed(target: TargetObject) {
    && Distinct(target.ownOrder)
    && (forall k :: k in target.own <==> k in target.ownOrder)
    && Distinct(target.enumerable)
    && (forall i :: 0 <= i < |target.enumerable| ==> target.enumerable[i] in target.own)
    && (forall k :: k in target.nonConfigurable ==> k in target.own)
  }

  lemma FunctionTargetWellFormed()
    ensures TargetWellFormed(FunctionTarget)
  {
    var t := FunctionTarget;
    forall k
      ensures k in t.own <==> k in t.ownOrder
    {
      assert k in t.ownOrder <==> k == "length" || k == "name" || k == "arguments" || k == "caller" || k == "prototype";
    }
  }

  /**
   * The invariant a Proxy's `ownKeys` result must meet (the [[OwnPropertyKeys]]
   * internal method of Proxy objects in the ECMAScript specification): it lists
   * every non-configurable own key of the target; otherwise the engine throws a
   * TypeError instead of returning it.
   */
  predicate OwnKeysInvariant(target: TargetObject, keys: seq<string>) {
    forall k :: k in target.nonConfigurable ==> k in keys
  }

  /** `Array.from(new Set(keys))`: every key once, at its first occurrence. */
  function Dedupe(s: seq<string>): (r: seq<string>)
    ensures Distinct(r)
    ensures forall x :: x in r <==> x in s
  {
    if s == [] then []
    else
      var prev := Dedupe(s[..|s| - 1]);
      var x := s[|s| - 1];
      assert forall y :: y in s <==> y in s[..|s| - 1] || y == x;
      if x in prev then prev else prev + [x]
  }

  /** The elements of `b` not in `a`, in order. */
  function Without(b: seq<string>, a: seq<string>): (r: seq<string>)
    ensures forall x :: x in r <==> x in b && x !in a
  {
    if b == [] then []
    else
      var x := b[|b| - 1];
      assert forall y :: y in b <==> y in b[..|b| - 1] || y == x;
      Without(b[..|b| - 1], a) + if x in a then [] else [x]
  }

  lemma {:induction false} DedupeDistinct(s: seq<string>)
    requires Distinct(s)
    ensures Dedupe(s) == s
  {
    if s != [] {
      DedupeDistinct(s[..|s| - 1]);
      assert s[|s| - 1] !in s[..|s| - 1];
      assert s[..|s| - 1] + [s[|s| - 1]] == s;
    }
  }

  /** Deduplicating `a + b` keeps `a` whole and then the elements of `b` that `a` lacks. */
  lemma {:induction false} DedupeConcat(a: seq<string>, b: seq<string>)
    requires Distinct(a) && Distinct(b)
    ensures Dedupe(a + b) == a + Without(b, a)
  {
    if b == [] {
      assert a + b == a;
      DedupeDistinct(a);
    } else {
      var b' := b[..|b| - 1];
      var x := b[|b| - 1];
      assert (a + b)[..|a + b| - 1] == a + b';
      assert (a + b)[|a + b| - 1] == x;
      DedupeConcat(a, b');
      assert x !in b';
      assert x in a + Without(b', a) <==> x in a;
    }
  }

  /** The package's main export, reading the live `module.exports` of src/index.js. */
  class Surface {
    const target: TargetObject
    const internal: ModuleExports

    constructor (internal: ModuleExports)
      ensures this.internal == internal && target == FunctionTarget
    {
      this.internal := internal;
      target := FunctionTarget;
    }

    /** The `get` trap: an own property of the target, else `slaWizardInternal[prop]`. */
    function Get(prop: string): (r: Option<Member>)
      reads internal
      ensures prop in target.own ==> r == Some(TargetMember(target.own[prop]))
      ensures prop !in target.own ==> (r.Some? <==> prop in internal.table.vals || prop in ObjectPrototypeKeys)
      ensures prop !in target.own && prop in internal.table.vals ==> r == Some(ExportMember(internal.table.vals[prop]))
    {
      if prop in target.own then Some(TargetMember(target.own[prop]))
      else if prop in internal.table.vals then Some(ExportMember(internal.table.vals[prop]))
      else if prop in ObjectPrototypeKeys then Some(PrototypeMember(prop))
      else None
    }

    /** The `has` trap: `prop in target || prop in slaWizardInternal`. */
    function Has(prop: string): (r: bool)
      reads internal
      ensures r <==> prop in target.own || prop in target.inherited || prop in internal.table.vals || prop in ObjectPrototypeKeys
      ensures r <==> Get(prop).Some? || prop in target.inherited
    {
      (prop in target.own || prop in target.inherited) || (prop in internal.table.vals || prop in ObjectPrototypeKeys)
    }

    /**
     * The `ownKeys` trap as written: `Object.keys(target)`, then the exports'
     * keys, without repeats. `Object.keys` leaves out the target's
     * non-enumerable keys, the non-configurable ones among them.
     */
    function OwnKeys(): (r: seq<string>)
      reads internal
      ensures Distinct(r)
      ensures forall k :: k in r <==> k in target.enumerable || k in internal.table.keys
    {
      Dedupe(target.enumerable + internal.table.keys)
    }

    /**
     * The `ownKeys` trap as evidently intended: `Reflect.ownKeys(target)`, then
     * the exports' keys, without repeats.
     */
    function OwnKeysCorrected(): (r: seq<string>)
      reads internal
      ensures Distinct(r)
      ensures forall k :: k in r <==> k in target.ownOrder || k in internal.table.keys
    {
      Dedupe(target.ownOrder + internal.table.keys)
    }

    /** The `getOwnPropertyDescriptor` trap: the target's descriptor, else the exports' one. */
    function GetOwnPropertyDescriptor(prop: string): (r: Option<PropertyDescriptor>)
      reads internal
      ensures r.Some? <==> prop in target.own || prop in internal.table.vals
      ensures prop in target.own ==> r.value.value == TargetMember(target.own[prop])
      ensures prop !in target.own && prop in internal.table.vals ==> r.value == PropertyDescriptor(ExportMember(internal.table.vals[prop]), true)
    {
      if prop in target.own then Some(PropertyDescriptor(TargetMember(target.own[prop]), prop in target.enumerable))
      else if prop in internal.table.vals then Some(PropertyDescriptor(ExportMember(internal.table.vals[prop]), true))
      else None
    }

    /** Calling the surface: `slaWizardInternal.config.apply(null, arguments)`; `None` is the TypeError when `config` is missing. */
    function Call(args: seq<Value>, validate: Validator): (r: Option<CallOutcome>)
      reads internal
      ensures r.Some? <==> "config" in internal.table.vals
      ensures r.Some? ==> r.value == Invoke(internal.table.vals["config"], args, validate)
      ensures "config" in internal.table.vals && internal.table.vals["config"] == BuiltinExport(ConfigFn) ==>
        r == Some(GenerateConfig(Config(Arg(args, 0), Arg(args, 1), validate)))
    {
      if "config" in internal.table.vals then Some(Invoke(internal.table.vals["config"], args, validate)) else None
    }
  }

  /** `ownKeys` lists the target's keys first, then the exports' keys the target lacks, in their order. */
  lemma OwnKeysTargetThenExports(s: Surface)
    requires TargetWellFormed(s.target) && WellFormed(s.internal.table)
    ensures s.OwnKeys() == s.target.enumerable + Without(s.internal.table.keys, s.target.enumerable)
  {
    DedupeConcat(s.target.enumerable, s.internal.table.keys);
  }

  /**
   * The trap as written breaks the Proxy invariant unless the exports happen to
   * hold `arguments`, `caller` and `prototype`: `Object.keys` or
   * `Reflect.ownKeys` of the package's export then throws.
   */
  lemma OwnKeysBreaksProxyInvariant(s: Surface)
    requires s.target == FunctionTarget
    ensures OwnKeysInvariant(s.target, s.OwnKeys()) <==>
      "arguments" in s.internal.table.keys && "caller" in s.internal.table.keys && "prototype" in s.internal.table.keys
  {
  }

  /** The corrected trap always meets the Proxy invariant. */
  lemma OwnKeysCorrectedMeetsProxyInvariant(s: Surface)
    requires TargetWellFormed(s.target)
    ensures OwnKeysInvariant(s.target, s.OwnKeysCorrected())
  {
  }

  /** The corrected trap lists all of the target's own keys first, then the exports' keys the target lacks, in order. */
  lemma OwnKeysCorrectedTargetThenExports(s: Surface)
    requires TargetWellFormed(s.target) && WellFormed(s.internal.table)
    ensures s.OwnKeysCorrected() == s.target.ownOrder + Without(s.internal.table.keys, s.target.ownOrder)
  {
    DedupeConcat(s.target.ownOrder, s.internal.table.keys);
  }

  /** Around the function target, `ownKeys` is exactly `Object.keys(slaWizardInternal)`. */
  lemma OwnKeysAreExportKeys(s: Surface)
    requires s.target == FunctionTarget && WellFormed(s.internal.table)
    ensures s.OwnKeys() == s.internal.table.keys
  {
    assert s.target.enumerable + s.internal.table.keys == s.internal.table.keys;
    DedupeDistinct(s.internal.table.keys);
  }

  /**
   * Every key `ownKeys` lists has a descriptor; it is enumerable unless the key
   * is also a non-enumerable own property of the target, whose descriptor wins.
   */
  lemma ListedKeysHaveDescriptors(s: Surface, k: string)
    requires TargetWellFormed(s.target) && WellFormed(s.internal.table)
    requires k in s.OwnKeysCorrected()
    ensures s.GetOwnPropertyDescriptor(k).Some?
    ensures s.GetOwnPropertyDescriptor(k).value.enumerable <==> k in s.target.enumerable || k !in s.target.own
  {
  }

  /** A property with a descriptor is what `get` returns. */
  lemma DescriptorAgreesWithGet(s: Surface, k: string)
    requires s.GetOwnPropertyDescriptor(k).Some?
    ensures s.Get(k) == Some(s.GetOwnPropertyDescriptor(k).value.value)
  {
  }

  /** `get` finds nothing that `has` denies. */
  lemma GetImpliesHas(s: Surface, k: string)
    requires s.Get(k).Some?
    ensures s.Has(k)
  {
  }

  /**
   * `has` reports the methods a function inherits, but `get` only looks at the
   * target's own properties, so unless exported they read as `undefined`.
   */
  lemma InheritedFunctionMethodsAreNotReturned(s: Surface, k: string)
    requires s.target == FunctionTarget
    requires k in {"apply", "bind", "call"} && k !in s.internal.table.vals
    ensures s.Has(k) && s.Get(k).None?
  {
  }

  /** An export named `length`, `name`, `arguments`, `caller` or `prototype` is hidden behind the target's own property. */
  lemma TargetShadowsExports(s: Surface, k: string)
    requires s.target == FunctionTarget && k in {"length", "name", "arguments", "caller", "prototype"}
    ensures s.Get(k) == Some(TargetMember(FunctionTarget.own[k]))
    ensures s.GetOwnPropertyDescriptor(k) == Some(PropertyDescriptor(TargetMember(FunctionTarget.own[k]), false))
  {
  }

  /** While `config` holds the built-in, calling the surface is calling `config(proxy, options)`. */
  lemma CallIsConfig(s: Surface, args: seq<Value>, validate: Validator)
    requires "config" in s.internal.table.vals && s.internal.table.vals["config"] == BuiltinExport(ConfigFn)
    ensures s.Call(args, validate) == Some(GenerateConfig(Config(Arg(args, 0), Arg(args, 1), validate)))
  {
  }

  /**
   * A `use` made after the surface was handed out is visible through it: every
   * key the plugin publishes (other than the target's own) is then reported by
   * `has`, `get` and `ownKeys`, in its corrected form.
   */
  method UseThroughSurface(s: Surface, host: Host, m: PluginModule, config: Value, activate: ActivationOracle)
    returns (thrown: Option<string>)
    requires s.internal == host.exports && s.target == FunctionTarget && WellFormed(host.exports.table)
    modifies host.program, host.exports
    ensures var o := UseSpec(activate, old(host.program.calls), old(host.exports.table), m, config);
      thrown == o.thrown && host.exports.table == o.table
    ensures WellFormed(host.exports.table)
    ensures forall k :: thrown.None? && PublishedFn(m.props, k).Some? && k !in s.target.own ==>
      && s.Has(k) && k in s.OwnKeysCorrected()
      && s.Get(k) == Some(ExportMember(Wrapper(PublishedFn(m.props, k).value, UseConfig(config))))
  {
    ghost var t0 := host.exports.table;
    thrown := host.Use(m, config, activate);
    PublishKeepsWellFormed(t0, m.props, UseConfig(config));
    if thrown.None? {
      UseWhenQuiet(activate, old(host.program.calls), t0, m, config);
      forall k | PublishedFn(m.props, k).Some? && k !in s.target.own
        ensures s.Has(k) && k in s.OwnKeysCorrected()
        ensures s.Get(k) == Some(ExportMember(Wrapper(PublishedFn(m.props, k).value, UseConfig(config))))
      {
        PublishedKeys(t0, m.props, UseConfig(config), k);
      }
    }
  }
}
