/**
 * JavaScript values as far as plugin configuration and option objects need them,
 * and `Object.assign` over them. Numbers are integers here.
 */
module Values {

  import opened Wrappers

  datatype Value =
    | Undefined
    | Null
    | Bool(b: bool)
    | Num(n: int)
    | Str(s: string)
    | Obj(fields: map<string, Value>)
    | Fun(id: string)

  /** A plain object's own enumerable properties. */
  type Options = map<string, Value>

  const EmptyObject: Value := Obj(map[])

  /** JavaScript truthiness (`if (v)`, `v || w`). */
  predicate Truthy(v: Value) {
    match v
    case Undefined => false
    case Null => false
    case Bool(b) => b
    case Num(n) => n != 0
    case Str(s) => s != ""
    case Obj(_) => true
    case Fun(_) => true
  }

  /** `v || {}` */
  function OrEmpty(v: Value): (r: Value)
    ensures Truthy(r)
    ensures Truthy(v) ==> r == v
  {
    if Truthy(v) then v else EmptyObject
  }

  /** The properties `Object.assign` copies from a source: an object's own
      enumerable properties; `undefined`, `null` and the other primitives copy nothing. */
  function OwnEnumerable(v: Value): Options {
    match v
    case Obj(f) => f
    case _ => map[]
  }

  /** The property read `o.k`: `undefined` when `o` has no property `k`. */
  function Field(o: Options, k: string): Value {
    if k in o then o[k] else Undefined
  }

  /** The last source in `sources` that has an own property `k`, with that property's value. */
  function LastWith(sources: seq<Value>, k: string): Option<Value> {
    if sources == [] then None
    else if k in OwnEnumerable(sources[|sources| - 1]) then Some(OwnEnumerable(sources[|sources| - 1])[k])
    else LastWith(sources[..|sources| - 1], k)
  }

  /** `Object.assign({}, s0, s1, ...)`: a fresh object receiving each source's properties in turn. */
  function AssignAll(sources: seq<Value>): (r: Options)
    ensures forall k :: k in r <==> LastWith(sources, k).Some?
    ensures forall k :: k in r ==> r[k] == LastWith(sources, k).value
  {
    if sources == [] then map[]
    else AssignAll(sources[..|sources| - 1]) + OwnEnumerable(sources[|sources| - 1])
  }
}
