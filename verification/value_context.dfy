/**
 The carrier `context.WithValue` / `Context.Value` that the type-keyed store
 is built on: an immutable chain of nodes, each either a value node holding
 one `(key, val)` pair of `any` values or a derived node (a cancellation or
 deadline wrapper) that holds no value and forwards lookups to its parent.
 */
module ValueContext {
  import opened GoValues

  datatype Ctx =
    | Background
    | Derived(parent: Ctx)
    | ValueCtx(parent: Ctx, key: Value, val: Value)

  /** The two ways `WithValue` refuses its arguments; Go panics on both. */
  datatype Panic = NilKey | KeyNotComparable

  datatype Attached = Attached(ctx: Ctx) | Panicked(reason: Panic)

  /** A usable map key: a non-nil `any` value whose dynamic type is comparable. */
  predicate ComparableKey(key: Value) {
    key.IfaceV? && Comparable(key.dynType)
  }

  /** Every value node of `ctx` holds well-typed `any` values under a
      non-nil comparable key: what `WithValue` lets through. */
  predicate Valid(ctx: Ctx) {
    match ctx
    case Background => true
    case Derived(p) => Valid(p)
    case ValueCtx(p, k, v) =>
      Valid(p) && ComparableKey(k) && HasType(k, AnyType) && HasType(v, AnyType)
  }

  /** The pairs visible through `ctx`, built from the oldest node to the newest,
      a newer pair replacing an older one under an equal key. */
  function Bindings(ctx: Ctx): map<Value, Value> {
    match ctx
    case Background => map[]
    case Derived(p) => Bindings(p)
    case ValueCtx(p, k, v) => Bindings(p)[k := v]
  }

  /** `context.WithValue(parent, key, val)`: a new value node on top of
      `parent`, or a panic for a nil or non-comparable key. */
  function WithValue(parent: Ctx, key: Value, val: Value): (r: Attached)
    ensures r.Panicked? <==> !ComparableKey(key)
    ensures r.Panicked? ==> (r.reason == NilKey <==> key.NilIface?)
    ensures r.Attached? ==> r.ctx.ValueCtx? && r.ctx.parent == parent
    ensures r.Attached? ==> Bindings(r.ctx) == Bindings(parent)[key := val]
    ensures Valid(parent) && HasType(key, AnyType) && HasType(val, AnyType) ==>
              r.Attached? ==> Valid(r.ctx)
  {
    if key.NilIface? then Panicked(NilKey)
    else if !ComparableKey(key) then Panicked(KeyNotComparable)
    else Attached(ValueCtx(parent, key, val))
  }

  /** `ctx.Value(key)`: walk from the newest node towards the background and
      return the value of the first node whose key equals `key`; the nil
      interface when there is none. */
  function Lookup(ctx: Ctx, key: Value): (r: Value)
    ensures key in Bindings(ctx) ==> r == Bindings(ctx)[key]
    ensures key !in Bindings(ctx) ==> r == NilIface
    ensures Valid(ctx) ==> HasType(r, AnyType)
  {
    match ctx
    case Background => NilIface
    case Derived(p) => Lookup(p, key)
    case ValueCtx(p, k, v) => if k == key then v else Lookup(p, key)
  }
}
