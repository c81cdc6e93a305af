/**
 * The shape of a loaded plugin module and how a plugin is activated against the
 * command-line program (`apply` first, else the module itself when callable).
 * The same dispatch appears in src/plugins.js and in src/index.js.
 */
module PluginModules {

  import opened Wrappers
  import opened Values

  /** Identity of a JavaScript function value. */
  type FnId = string

  /** The value of one own property of a plugin module. */
  datatype PropValue = Fn(id: FnId) | Data(v: Value)

  /**
   * A plugin module: `self` is present when the module value is itself a function,
   * `props` lists its own enumerable properties in `Object.keys` order.
   */
  datatype PluginModule = PluginModule(self: Option<FnId>, props: seq<(string, PropValue)>)

  /** The receiver of an activation call. */
  datatype ThisArg = ThisModule | ThisProgram | ThisUndefined

  /** The arguments of an activation call: `(program, ctx, config)`, or none at all. */
  datatype ArgList = ProgramCtxConfig(config: Value) | NoArgs

  /** One call of plugin code made while activating a plugin. */
  datatype Invocation = Invocation(fn: FnId, thisArg: ThisArg, args: ArgList)

  /** What a plugin's code does when called: the error it throws, if any, given the
      activation calls the program has already received. */
  type ActivationOracle = (seq<Invocation>, Invocation) -> Option<string>

  /** The module's own property `k`, if any. */
  function OwnProp(m: PluginModule, k: string): (r: Option<PropValue>)
    ensures r.Some? ==> exists i :: 0 <= i < |m.props| && m.props[i] == (k, r.value)
    ensures r.None? ==> forall i :: 0 <= i < |m.props| ==> m.props[i].0 != k
    decreases |m.props|
  {
    if m.props == [] then None
    else if m.props[0].0 == k then Some(m.props[0].1)
    else
      var r := OwnProp(PluginModule(m.self, m.props[1..]), k);
      if r.Some? then
        ghost var i :| 0 <= i < |m.props| - 1 && m.props[1..][i] == (k, r.value);
        assert m.props[i + 1] == (k, r.value);
        r
      else
        r
  }

  /** The module's own `apply` when it is a function. */
  function OwnApply(m: PluginModule): Option<FnId> {
    match OwnProp(m, "apply")
    case Some(Fn(f)) => Some(f)
    case _ => None
  }

  /**
   * Activation dispatch as the source evidently intends it: an own `apply`
   * function is called as a method of the module, otherwise a callable module
   * is called directly, both with `(program, ctx, config)`; any other module is
   * not called.
   */
  function Activation(m: PluginModule, config: Value): (r: Option<Invocation>)
    ensures r.Some? <==> OwnApply(m).Some? || m.self.Some?
    ensures r.Some? ==> r.value.args == ProgramCtxConfig(config)
    ensures OwnApply(m).Some? ==> r.value.fn == OwnApply(m).value && r.value.thisArg == ThisModule
    ensures OwnApply(m).None? && m.self.Some? ==> r.value.fn == m.self.value
  {
    match OwnApply(m)
    case Some(f) => Some(Invocation(f, ThisModule, ProgramCtxConfig(config)))
    case None =>
      match m.self
      case Some(f) => Some(Invocation(f, ThisUndefined, ProgramCtxConfig(config)))
      case None => None
  }

  /**
   * Activation dispatch as src/plugins.js and src/index.js are written. `m.apply`
   * is looked up through the prototype chain, so a callable module with no own
   * `apply` finds `Function.prototype.apply`, and `m.apply(program, ctx, config)`
   * then calls the module with `this` bound to `program` and the elements of the
   * array-like `ctx` as arguments: `ctx` has no `length`, so no arguments at all.
   */
  function ActivationAsWritten(m: PluginModule, config: Value): (r: Option<Invocation>)
    ensures r.Some? <==> OwnApply(m).Some? || m.self.Some?
    ensures OwnApply(m).Some? ==> r == Activation(m, config)
    ensures OwnProp(m, "apply").None? && m.self.Some? ==> r == Some(Invocation(m.self.value, ThisProgram, NoArgs))
  {
    match OwnProp(m, "apply")
    case Some(Fn(f)) => Some(Invocation(f, ThisModule, ProgramCtxConfig(config)))
    case Some(Data(_)) =>
      if m.self.Some? then Some(Invocation(m.self.value, ThisUndefined, ProgramCtxConfig(config))) else None
    case None =>
      if m.self.Some? then Some(Invocation(m.self.value, ThisProgram, NoArgs)) else None
  }

  /** The two dispatches differ exactly on callable modules without an own `apply`. */
  lemma AsWrittenDiffersOnlyForBareFunctions(m: PluginModule, config: Value)
    ensures ActivationAsWritten(m, config) != Activation(m, config)
        <==> m.self.Some? && OwnProp(m, "apply").None?
  {
  }

  /** A plugin exported as a bare function never receives `(program, ctx, config)` as written. */
  lemma BareFunctionPluginGetsNoArguments(f: FnId, config: Value)
    ensures ActivationAsWritten(PluginModule(Some(f), []), config) == Some(Invocation(f, ThisProgram, NoArgs))
    ensures Activation(PluginModule(Some(f), []), config) == Some(Invocation(f, ThisUndefined, ProgramCtxConfig(config)))
  {
  }

  /** The command-line program the plugins extend, reduced to the activation calls it has received. */
  class Program {
    var calls: seq<Invocation>

    constructor ()
      ensures calls == []
    {
      calls := [];
    }
  }

  /** Runs one activation call against `program`; the result is the error it threw, if any. */
  method Activate(program: Program, activate: ActivationOracle, inv: Invocation) returns (thrown: Option<string>)
    modifies program
    ensures program.calls == old(program.calls) + [inv]
    ensures thrown == activate(old(program.calls), inv)
  {
    thrown := activate(program.calls, inv);
    program.calls := program.calls + [inv];
  }
}
