/**
 Properties of the type-keyed store: round trip, shadowing, isolation between
 types, absence and mismatch, and the default fallback.
 */
module ContextLaws {
  import opened GoValues
  import opened ValueContext
  import opened TypedContext

  /** One `ContextWith` call: the static type argument and the value. */
  datatype Attachment = Attachment(typ: Type, val: Value)

  /** `ContextWith` applied to each attachment in order, `items[0]` first. */
  function AttachAll(ctx: Ctx, items: seq<Attachment>): (r: Ctx)
    ensures Valid(ctx) ==>
              (forall i :: 0 <= i < |items| ==> HasType(items[i].val, items[i].typ)) ==>
              Valid(r)
  {
    if |items| == 0 then ctx
    else
      var last := items[|items| - 1];
      ContextWith(AttachAll(ctx, items[..|items| - 1]), last.typ, last.val)
  }

  // ---- Key derivation ----

  /** Attaching never panics, whatever `t` is: even a function or slice type,
      whose values cannot serve as keys, gets a comparable pointer key. */
  lemma AttachNeverPanics(ctx: Ctx, t: Type, v: Value)
    ensures WithValue(ctx, KeyOf(t), ToAny(t, v)).Attached?
    ensures !Comparable(t) ==> !ComparableKey(ToAny(t, v))
  {
  }

  // ---- Round trip ----

  /** A value of type `t` attached under `t` is read back unchanged. */
  lemma RoundTrip(ctx: Ctx, t: Type, v: Value)
    requires HasType(v, t) && v != NilIface
    ensures FromContext(ContextWith(ctx, t, v), t) == CommaOk(v, true)
  {
  }

  /** A nil interface value attached under an interface type reads back as
      absent: it is stored as the nil `any`, which no assertion accepts. */
  lemma NilInterfaceReadsAsAbsent(ctx: Ctx, t: Type)
    requires t.Interface?
    ensures FromContext(ContextWith(ctx, t, NilIface), t) == CommaOk(NilIface, false)
  {
  }

  // ---- Isolation and shadowing ----

  /** Attaching under `t` leaves the lookup of every other type as it was. */
  lemma OtherTypesUnaffected(ctx: Ctx, t: Type, u: Type, v: Value)
    requires t != u
    ensures FromContext(ContextWith(ctx, t, v), u) == FromContext(ctx, u)
  {
  }

  /** A second attachment under `t` hides the first completely: the result
      is indistinguishable, for every type, from attaching only the second. */
  lemma Shadowing(ctx: Ctx, t: Type, v1: Value, v2: Value, u: Type)
    ensures Bindings(ContextWith(ContextWith(ctx, t, v1), t, v2))
         == Bindings(ContextWith(ctx, t, v2))
    ensures FromContext(ContextWith(ContextWith(ctx, t, v1), t, v2), u)
         == FromContext(ContextWith(ctx, t, v2), u)
  {
  }

  /** The newer of two values of the same type is the one read back. */
  lemma NewestWins(ctx: Ctx, t: Type, v1: Value, v2: Value)
    requires HasType(v2, t) && v2 != NilIface
    ensures FromContext(ContextWith(ContextWith(ctx, t, v1), t, v2), t) == CommaOk(v2, true)
  {
  }

  /** Attachments of types other than `t` do not change what is read for `t`. */
  lemma {:induction false} AttachAllUntouched(ctx: Ctx, items: seq<Attachment>, t: Type)
    requires forall j :: 0 <= j < |items| ==> items[j].typ != t
    ensures FromContext(AttachAll(ctx, items), t) == FromContext(ctx, t)
  {
    if |items| > 0 {
      var n := |items| - 1;
      AttachAllUntouched(ctx, items[..n], t);
      OtherTypesUnaffected(AttachAll(ctx, items[..n]), items[n].typ, t, items[n].val);
    }
  }

  /** The last attachment of type `t` is the one read back, whatever was
      attached after it under other types. */
  lemma {:induction false} AttachAllLatestWins(ctx: Ctx, items: seq<Attachment>, i: nat, t: Type)
    requires i < |items| && items[i].typ == t
    requires forall j :: i < j < |items| ==> items[j].typ != t
    requires HasType(items[i].val, t) && items[i].val != NilIface
    ensures FromContext(AttachAll(ctx, items), t) == CommaOk(items[i].val, true)
  {
    var n := |items| - 1;
    if i == n {
      RoundTrip(AttachAll(ctx, items[..n]), t, items[i].val);
    } else {
      AttachAllLatestWins(ctx, items[..n], i, t);
      OtherTypesUnaffected(AttachAll(ctx, items[..n]), items[n].typ, t, items[n].val);
    }
  }

  /** Values of pairwise distinct types attached in sequence are each read
      back under their own type. */
  lemma DistinctTypesIsolated(ctx: Ctx, items: seq<Attachment>, i: nat)
    requires forall j, k :: 0 <= j < k < |items| ==> items[j].typ != items[k].typ
    requires i < |items|
    requires HasType(items[i].val, items[i].typ) && items[i].val != NilIface
    ensures FromContext(AttachAll(ctx, items), items[i].typ) == CommaOk(items[i].val, true)
  {
    AttachAllLatestWins(ctx, items, i, items[i].typ);
  }

  // ---- Absence and mismatch ----

  /** Nothing is found on a background context, only the zero value. */
  lemma BackgroundHoldsNothing(t: Type)
    ensures FromContext(Background, t) == CommaOk(Zero(t), false)
  {
  }

  /** A value stored under the key of `t` by some other caller of the carrier
      that does not narrow to `t` reads exactly like absence. */
  lemma ForeignValueReadsAsAbsent(ctx: Ctx, t: Type, x: Value)
    requires !Narrows(x, t)
    ensures WithValue(ctx, KeyOf(t), x).Attached?
    ensures FromContext(WithValue(ctx, KeyOf(t), x).ctx, t) == CommaOk(Zero(t), false)
  {
  }

  /** Every value stored under a type key `(*u)(nil)` is the nil `any` or
      narrows to `u`: no foreign value sits under a type key. */
  predicate WellKeyed(ctx: Ctx) {
    match ctx
    case Background => true
    case Derived(p) => WellKeyed(p)
    case ValueCtx(p, k, v) =>
      && WellKeyed(p)
      && (k.IfaceV? && k.dynType.Pointer? && k.dynVal == Ref(None) ==>
            v.NilIface? || Narrows(v, k.dynType.elem))
  }

  lemma ContextWithKeepsWellKeyed(ctx: Ctx, t: Type, v: Value)
    requires WellKeyed(ctx) && HasType(v, t)
    ensures WellKeyed(ContextWith(ctx, t, v))
  {
  }

  lemma {:induction false} WellKeyedBinding(ctx: Ctx, t: Type)
    requires WellKeyed(ctx) && KeyOf(t) in Bindings(ctx)
    ensures Bindings(ctx)[KeyOf(t)].NilIface? || Narrows(Bindings(ctx)[KeyOf(t)], t)
  {
    match ctx
    case Derived(p) => WellKeyedBinding(p, t);
    case ValueCtx(p, k, v) =>
      if k != KeyOf(t) {
        WellKeyedBinding(p, t);
      }
  }

  /** On a context only `ContextWith` has written type keys to, a lookup fails
      exactly when the key is absent or holds a nil interface. */
  lemma WellKeyedFoundIff(ctx: Ctx, t: Type)
    requires WellKeyed(ctx)
    ensures FromContext(ctx, t).ok
        <==> KeyOf(t) in Bindings(ctx) && !Bindings(ctx)[KeyOf(t)].NilIface?
  {
  }

  lemma {:induction false} AttachAllKeepsWellKeyed(ctx: Ctx, items: seq<Attachment>)
    requires WellKeyed(ctx)
    requires forall j :: 0 <= j < |items| ==> HasType(items[j].val, items[j].typ)
    ensures WellKeyed(AttachAll(ctx, items))
  {
    if |items| > 0 {
      var n := |items| - 1;
      AttachAllKeepsWellKeyed(ctx, items[..n]);
      ContextWithKeepsWellKeyed(AttachAll(ctx, items[..n]), items[n].typ, items[n].val);
    }
  }

  // ---- Default fallback ----

  /** With a value present, the default is ignored. */
  lemma OrAfterAttach(ctx: Ctx, t: Type, v: Value, def: Value)
    requires HasType(v, t) && v != NilIface
    ensures FromContextOr(ContextWith(ctx, t, v), t, def) == v
  {
  }

  /** On a background context, the default is returned. */
  lemma OrOnBackground(t: Type, def: Value)
    ensures FromContextOr(Background, t, def) == def
  {
  }

  /** `FromContextOr` returns its default, whatever the default is, exactly
      when `FromContext` reports `false`; otherwise it returns the found value. */
  lemma OrFallsBackIff(ctx: Ctx, t: Type)
    ensures (forall d :: FromContextOr(ctx, t, d) == d) <==> !FromContext(ctx, t).ok
    ensures FromContext(ctx, t).ok ==>
              forall d :: FromContextOr(ctx, t, d) == FromContext(ctx, t).val
  {
    var found := FromContext(ctx, t);
    if found.ok {
      var d := if found.val == BoolV(true) then BoolV(false) else BoolV(true);
      assert FromContextOr(ctx, t, d) != d;
    }
  }
}
