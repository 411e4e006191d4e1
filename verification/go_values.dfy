/**
 A small model of the Go types and values that flow through a context:
 the static types a caller can instantiate `ContextWith[T]` / `FromContext[T]`
 with, the values of those types, interface (`any`) values with their dynamic
 type, conversion to `any`, and the comma-ok type assertion `x.(T)`.
 */
module GoValues {

  /** A Go type. `Named` stands for a defined struct type (such as `time.Time`
      or a test's local `user` type); its `name` is taken to be the type's
      unique, package-qualified identity. `Interface` carries its method set;
      the empty interface `any` is `Interface("any", {})`. */
  datatype Type =
    | Bool
    | Int
    | String
    | Named(name: string, fields: seq<Type>, methods: set<string>)
    | Pointer(elem: Type)
    | Func(params: seq<Type>, results: seq<Type>)
    | Slice(elem: Type)
    | Interface(name: string, methods: set<string>)

  /** A Go value. Pointers, functions and slices are reference-shaped: they are
      represented by an opaque handle, `None` being `nil`; what they point to is
      not part of this model. `NilIface` and `IfaceV` are interface values: the
      nil interface, and a boxed value together with its dynamic type. */
  datatype Value =
    | BoolV(b: bool)
    | IntV(i: int)
    | StrV(s: string)
    | StructV(fields: seq<Value>)
    | Ref(handle: Option<nat>)
    | NilIface
    | IfaceV(dynType: Type, dynVal: Value)

  datatype Option<+T> = None | Some(value: T)

  /** The result of a comma-ok form `v, ok := ...`. */
  datatype CommaOk = CommaOk(val: Value, ok: bool)

  const AnyType: Type := Interface("any", {})

  /** Whether `==` is defined on values of type `t` (the Go language specification's
      "comparable"). Functions and slices are not; a struct is when all its
      fields are; pointers and interfaces always are. */
  predicate Comparable(t: Type) {
    match t
    case Bool => true
    case Int => true
    case String => true
    case Named(_, fields, _) => forall i :: 0 <= i < |fields| ==> Comparable(fields[i])
    case Pointer(_) => true
    case Func(_, _) => false
    case Slice(_) => false
    case Interface(_, _) => true
  }

  /** The method set of a type. Value and pointer receivers are not told apart:
      `*N` has the methods declared on `N`. */
  function MethodSet(t: Type): set<string> {
    match t
    case Named(_, _, ms) => ms
    case Pointer(Named(_, _, ms)) => ms
    case Interface(_, ms) => ms
    case _ => {}
  }

  /** Concrete type `d` implements interface type `i`. */
  predicate Implements(d: Type, i: Type) {
    i.Interface? && i.methods <= MethodSet(d)
  }

  /** `v` is a value of static type `t`. A value of interface type is either
      the nil interface or a boxed value of a concrete type implementing it. */
  predicate HasType(v: Value, t: Type)
    decreases v
  {
    match t
    case Bool => v.BoolV?
    case Int => v.IntV?
    case String => v.StrV?
    case Named(_, fields, _) =>
      && v.StructV?
      && |v.fields| == |fields|
      && forall i :: 0 <= i < |fields| ==> HasType(v.fields[i], fields[i])
    case Pointer(_) => v.Ref?
    case Func(_, _) => v.Ref?
    case Slice(_) => v.Ref?
    case Interface(_, _) =>
      || v.NilIface?
      || (&& v.IfaceV?
          && !v.dynType.Interface?
          && Implements(v.dynType, t)
          && HasType(v.dynVal, v.dynType))
  }

  /** The zero value of type `t`. */
  function Zero(t: Type): (z: Value)
    ensures HasType(z, t)
    ensures t.Interface? <==> z.NilIface?
  {
    match t
    case Bool => BoolV(false)
    case Int => IntV(0)
    case String => StrV("")
    case Named(_, fields, _) =>
      var zs := seq(|fields|, i requires 0 <= i < |fields| => Zero(fields[i]));
      assert forall i :: 0 <= i < |fields| ==> HasType(zs[i], fields[i]);
      StructV(zs)
    case Pointer(_) => Ref(None)
    case Func(_, _) => Ref(None)
    case Slice(_) => Ref(None)
    case Interface(_, _) => NilIface
  }

  /** The implicit conversion of a value of static type `t` to `any`: a
      concrete value is boxed with `t` as its dynamic type, an interface value
      is passed on unchanged (so a nil interface stays nil). */
  function ToAny(t: Type, v: Value): (x: Value)
    ensures HasType(v, t) ==> HasType(x, AnyType)
    ensures x.NilIface? <==> t.Interface? && v.NilIface?
  {
    if t.Interface? then v else IfaceV(t, v)
  }

  /** An `any` value `x` can be narrowed to type `t` by `x.(t)`: it is not the
      nil interface, and its dynamic type is `t` itself (concrete `t`) or
      implements `t` (interface `t`). */
  predicate Narrows(x: Value, t: Type) {
    x.IfaceV? && (if t.Interface? then Implements(x.dynType, t) else x.dynType == t)
  }

  /** The comma-ok type assertion `v, ok := x.(t)`: on success the value of
      type `t` held in `x`, otherwise the zero value of `t` and `false`. */
  function AssertAs(x: Value, t: Type): (r: CommaOk)
    ensures r.ok <==> Narrows(x, t)
    ensures r.ok ==> ToAny(t, r.val) == x
    ensures !r.ok ==> r.val == Zero(t)
    ensures HasType(x, AnyType) ==> HasType(r.val, t)
  {
    if !Narrows(x, t) then CommaOk(Zero(t), false)
    else if t.Interface? then CommaOk(x, true)
    else CommaOk(x.dynVal, true)
  }

  /** Boxing a value into `any` and asserting it back to its own type yields the
      very same value, except for a nil interface value, which boxes to the nil
      `any` and then fails the assertion. */
  lemma AssertToAnyRoundTrip(t: Type, v: Value)
    requires HasType(v, t)
    ensures v != NilIface ==> AssertAs(ToAny(t, v), t) == CommaOk(v, true)
    ensures v == NilIface ==> AssertAs(ToAny(t, v), t) == CommaOk(Zero(t), false)
  {
  }
}
