# Type-keyed context values (`lo.ContextWith` / `lo.FromContext` / `lo.FromContextOr`)

This project models, in Dafny, the three generic helpers of `context.go` in the
`lo` Go library. They store one value per Go type on a `context.Context`:

- `ContextWith[T](ctx, val)` attaches `val` under the key `(*T)(nil)`. That key
  is a typed nil pointer, so it depends only on `T` and never on the value.
- `FromContext[T](ctx)` looks that key up with `ctx.Value` and narrows the
  result with the comma-ok assertion `.(T)`. It gives `(v, true)` or
  `(zero, false)`.
- `FromContextOr[T](ctx, def)` returns the found value, or `def` when
  `FromContext` reports `false`.

The model has five modules:

- `GoValues` (`go_values.dfy`) holds the Go types and values the helpers touch.
  These are basic types, defined structs, pointers, functions, slices and
  interfaces. It also has interface (`any`) values with their dynamic type,
  zero values, the conversion to `any`, and the comma-ok type assertion.
- `ValueContext` (`value_context.dfy`) is the carrier that Go's `context`
  package provides: `Background`, derived (cancellation or deadline) nodes, and
  value nodes. `WithValue` panics on a nil or non-comparable key, modelled as a
  `Panicked` result. `Lookup` walks from the newest node to the oldest and stops
  at the first equal key. `Bindings` is an independent reference for it: a map
  folded from the oldest node to the newest.
- `TypedContext` (`typed_context.dfy`) models the three helpers and the key
  derivation `KeyOf`.
- `ContextLaws` (`context_laws.dfy`) holds the properties.
- `ContextScenarios` (`context_scenarios.dfy`) restates the repository's tests
  over the model. It adds two cases no test covers: a `*user` value looked up
  as `user`, and a string then an integer with a `bool` lookup.

The type argument `T` of the Go generics is an explicit `Type` parameter.
Where a Go value of type `T` is required, lemmas state this as `HasType(v, T)`.
Go's type checker guarantees that at every call site.

One behaviour of the code is narrower than "every attached value reads back".
Let `T` be an interface type and the attached value the nil interface. The
value is stored as a nil `any`. The carrier cannot tell that apart from "no
value", and the assertion `.(T)` fails on it. So `FromContext[T]` returns
`(nil, false)`. The model follows the code: `RoundTrip` requires a non-nil
value, and `NilInterfaceReadsAsAbsent` states this case.

## Model

| member | source | states |
|---|---|---|
| GoValues.Zero | context.go:13-16 | the zero value of every type has that type, and it is the nil interface exactly for interface types |
| GoValues.ToAny | context.go:9 | converting a `T` value to `any` gives a well-formed `any`; the result is nil exactly when `T` is an interface and the value is the nil interface |
| GoValues.AssertAs | context.go:14 | the comma-ok assertion succeeds exactly when the dynamic type is `T` (or implements interface `T`); on success the value is the one held in the `any`; on failure it gives `T`'s zero value; applied to a well-formed `any` its result always has type `T` |
| GoValues.AssertToAnyRoundTrip | context.go:9-14 | boxing a `T` value into `any` and asserting it back to `T` returns the same value; the only exception is the nil interface, which comes back as `(zero, false)` |
| ValueContext.WithValue | context.go:9 | the carrier panics exactly on a non-comparable or nil key (`NilKey` exactly for nil); otherwise it adds one node on top of the unchanged parent, whose bindings are the parent's plus the new pair |
| ValueContext.Lookup | context.go:14 | the carrier's nearest-first lookup returns the value that the oldest-to-newest `Bindings` fold holds for the key, and the nil `any` when the key is absent |
| TypedContext.KeyOf | context.go:9 | the derived key is a non-nil comparable `any` for every type `T`, including function and slice types |
| TypedContext.KeyOfInjective | context.go:9 | two types share a key exactly when they are the same type |
| TypedContext.ContextWith | context.go:7-10 | the result is a new node whose parent is the unchanged input context; its bindings are the input's with only `T`'s key set; validity is preserved |
| TypedContext.FromContext | context.go:12-17 | `ok` holds exactly when `T`'s key is bound to a value that narrows to `T`, and then the value is that bound entry narrowed to `T`; otherwise the result is `T`'s zero value; on a valid context the value always has type `T` |
| TypedContext.FromContextOr | context.go:19-28 | when `FromContext` reports `ok`, its value is returned; the default is returned when `T`'s key is absent, and any result other than the default was reported as found; the result has type `T` |
| ContextLaws.AttachAll | context_test.go:187-211 | attaching well-typed values one after another keeps the context valid |
| ContextLaws.AttachNeverPanics | context.go:8-9 | `ContextWith` never reaches the carrier's panics, even for a type whose own values could not be keys |
| ContextLaws.RoundTrip | context.go:8-17 | `FromContext[T](ContextWith(ctx, v))` is `(v, true)` for every non-nil `v` of type `T` and every `ctx` |
| ContextLaws.NilInterfaceReadsAsAbsent | context.go:9-14 | a nil interface attached under an interface type reads back as `(nil, false)` |
| ContextLaws.OtherTypesUnaffected | context.go:9-14 | attaching under `T` leaves the lookup of every other type `U` unchanged |
| ContextLaws.Shadowing | context.go:9-14 | two attachments under `T` give the same bindings, and the same lookups for every type, as the second alone |
| ContextLaws.NewestWins | context.go:9-14 | after two attachments under `T`, the newer value is read |
| ContextLaws.AttachAllUntouched | context_test.go:187-232 | attachments of types other than `T` leave `T`'s lookup as it was on the starting context |
| ContextLaws.AttachAllLatestWins | context_test.go:187-232 | `T`'s lookup returns the last value attached under `T`, whatever was attached later under other types |
| ContextLaws.DistinctTypesIsolated | context_test.go:187-232 | when the attached types are pairwise distinct, each non-nil well-typed value is read back under its own type |
| ContextLaws.BackgroundHoldsNothing | context.go:13-16 | on a background context the lookup gives `(zero, false)` for every type |
| ContextLaws.ForeignValueReadsAsAbsent | context.go:14 | a value stored under `T`'s key by a direct carrier call that does not narrow to `T` reads exactly like absence: `(zero, false)` |
| ContextLaws.ContextWithKeepsWellKeyed | context.go:8-10 | `ContextWith` never puts a value under a type key that does not narrow to that type, unless it is the nil `any` |
| ContextLaws.WellKeyedBinding | context.go:8-17 | on a well-keyed context the value bound under `T`'s key is nil or narrows to `T` |
| ContextLaws.WellKeyedFoundIff | context.go:12-17 | on a well-keyed context the lookup fails exactly when `T`'s key is absent or bound to the nil `any` |
| ContextLaws.AttachAllKeepsWellKeyed | context.go:8-10 | any sequence of `ContextWith` calls keeps a context well-keyed |
| ContextLaws.OrAfterAttach | context.go:20-25 | after attaching a non-nil `v` under `T`, `FromContextOr` returns `v` whatever the default |
| ContextLaws.OrOnBackground | context.go:20-28 | on a background context `FromContextOr` returns its default |
| ContextLaws.OrFallsBackIff | context.go:20-28 | `FromContextOr` returns every default unchanged exactly when `FromContext` reports `false`; otherwise it returns the found value for every default |
| ContextScenarios.UserTypesDistinct | context_test.go:49-51 | the `user` types declared locally in different test functions are different types |
| ContextScenarios.LoggerRoundTrip | context_test.go:100-128 | a stored `*slog.Logger` is found, and it is the same non-nil pointer |
| ContextScenarios.StringRoundTrip | context_test.go:16-28 | a string attached to a background context is read back with `ok` |
| ContextScenarios.FuncRoundTrip | context_test.go:30-42 | a `func() string` value is read back although its type is not comparable |
| ContextScenarios.StructRoundTrip | context_test.go:44-66 | a `user` struct value is read back field for field |
| ContextScenarios.PointerRoundTrip | context_test.go:72-94 | a `*user` pointer is read back as the same pointer; a lookup of `user` instead gives `(zero, false)` |
| ContextScenarios.LoggerOrDefault | context_test.go:138-185 | a stored `*slog.Logger` is returned over the default; with no `*log.Logger` stored, the default is returned |
| ContextScenarios.MultipleTypes | context_test.go:187-232 | a string, a `time.Time`, a `func() string` and a `*user` attached in sequence are each read back |
| ContextScenarios.StringThenInt | context.go:8-17 | after "hello" then 42, both are found and a `bool` lookup gives `(false, false)` |

## Left out

- Cancellation, deadlines, `Done` and `Err` of Go's `context` package are not modelled. A derived context is a node that forwards lookups to its parent. The private key that a cancellation context answers itself is omitted: it is a non-nil pointer, so it never equals a type key.
- A nil `context.Context` is not modelled. In Go, `ContextWith` panics on it inside `WithValue`, and `FromContext` fails with a nil dereference.
- Go's `==` on keys is modelled as Dafny equality. This matches Go for every key the carrier accepts. It does not model the run-time panic that Go raises when a comparable struct key holds an interface field with a non-comparable dynamic value.
- Type identity: a defined type is identified by its qualified name. The model assumes that each qualified name comes with exactly one field list and method set, as in Go, where one qualified name has one declaration. A type declared inside a function gets a name qualified by that function, so the `user` types of different tests are distinct. Method sets do not tell value receivers from pointer receivers. Arrays, maps and channels are not modelled; slices and functions stand for non-comparable types.
- `int` payloads are unbounded integers. The helpers do no arithmetic on them, so Go's 64-bit width plays no role.
- Pointers, functions and slices are opaque handles, and values are stored verbatim. What a pointer refers to, and how aliasing shows through it, is Go memory semantics and not store logic.
- Logging output and buffers in the tests are I/O through other libraries. They are reduced to "the stored or the default logger is returned".
- Random fixture strings in the tests are left out. The scenario lemmas take those strings as parameters instead.
- A variant that requires `T` to be comparable and uses its zero value as the key is not part of this model. `context.go` only has the unconstrained `(*T)(nil)` key.
- Concurrent use is not modelled. Contexts are immutable values here, and no operation mutates one.
