/**
 The type-keyed store: `ContextWith[T]` attaches a value under a key derived
 from `T` alone, the typed nil pointer `(*T)(nil)`; `FromContext[T]` looks that
 key up and narrows the result back to `T`; `FromContextOr[T]` falls back to a
 default. The static type argument `T` is an explicit `Type` parameter here.
 */
module TypedContext {
  import opened GoValues
  import opened ValueContext

  /** The context key for type `t`: `(*t)(nil)` as an `any` value. It is a
      usable carrier key whatever `t` is, comparable or not. */
  function KeyOf(t: Type): (k: Value)
    ensures ComparableKey(k) && HasType(k, AnyType)
    ensures k.dynType.Pointer? && k.dynVal == Ref(None)
  {
    IfaceV(Pointer(t), Ref(None))
  }

  /** Distinct types never share a key. */
  lemma KeyOfInjective(t: Type, u: Type)
    ensures KeyOf(t) == KeyOf(u) <==> t == u
  {
  }

  /** `ContextWith[T](ctx, val)`. The carrier never panics here, because the
      key is a pointer; the parent is kept as the new node's parent and every
      pair it carries stays visible except the one for `t`. */
  function ContextWith(ctx: Ctx, t: Type, val: Value): (r: Ctx)
    ensures r.ValueCtx? && r.parent == ctx
    ensures Bindings(r) == Bindings(ctx)[KeyOf(t) := ToAny(t, val)]
    ensures Valid(ctx) && HasType(val, t) ==> Valid(r)
  {
    WithValue(ctx, KeyOf(t), ToAny(t, val)).ctx
  }

  /** `FromContext[T](ctx)`: the entry bound under the key of `t`, narrowed to
      `t`. Absence of the key and a stored value that does not narrow to `t`
      both give the zero value and `false`. */
  function FromContext(ctx: Ctx, t: Type): (r: CommaOk)
    ensures r.ok <==> KeyOf(t) in Bindings(ctx) && Narrows(Bindings(ctx)[KeyOf(t)], t)
    ensures r.ok ==> ToAny(t, r.val) == Bindings(ctx)[KeyOf(t)]
    ensures !r.ok ==> r.val == Zero(t)
    ensures Valid(ctx) ==> HasType(r.val, t)
  {
    AssertAs(Lookup(ctx, KeyOf(t)), t)
  }

  /** `FromContextOr[T](ctx, def)`: the value found for `t`, or `def`. */
  function FromContextOr(ctx: Ctx, t: Type, def: Value): (r: Value)
    ensures KeyOf(t) !in Bindings(ctx) ==> r == def
    ensures r != def ==> FromContext(ctx, t).ok
    ensures FromContext(ctx, t).ok ==> r == FromContext(ctx, t).val
    ensures Valid(ctx) && HasType(def, t) ==> HasType(r, t)
  {
    var found := FromContext(ctx, t);
    if found.ok then found.val else def
  }
}
