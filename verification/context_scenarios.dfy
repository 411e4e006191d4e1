/**
 The scenarios the repository's tests and example exercise, stated over the
 model. Random fixture strings become parameters.
 */
module ContextScenarios {
  import opened GoValues
  import opened ValueContext
  import opened TypedContext
  import opened ContextLaws

  /** The struct `user{id, name string}` declared locally in the test function
      `test`. Each such declaration is a distinct Go type, so each gets its own
      qualified name. */
  function UserType(test: string): (u: Type)
    ensures u.Named? && u.fields == [String, String]
  {
    Named(UserName(test), [String, String], {})
  }

  function UserName(test: string): string {
    "lo_test." + test + ".user"
  }

  /** The test function's name can be read back from the qualified name. */
  lemma UserNameRecovers(test: string)
    ensures |UserName(test)| == |test| + 13
    ensures UserName(test)[8..|test| + 8] == test
  {
  }

  /** The `user` types of two different test functions are different types. */
  lemma UserTypesDistinct(test1: string, test2: string)
    requires test1 != test2
    ensures UserType(test1) != UserType(test2)
  {
    UserNameRecovers(test1);
    UserNameRecovers(test2);
  }

  const CustomUser: Type := UserType("TestContextCustom")
  const PointerUser: Type := UserType("TestContextCustomPointer")
  const MultipleUser: Type := UserType("TestContextMultipleType")
  /** `time.Time`, reduced to two integer fields. */
  const TimeType: Type := Named("time.Time", [Int, Int], {"String"})
  /** `func() string`, a type that is not comparable. */
  const FuncType: Type := Func([], [String])
  /** `*slog.Logger` and `*log.Logger`. */
  const SlogLogger: Type := Pointer(Named("slog.Logger", [], {"Info", "With"}))
  const LogLogger: Type := Pointer(Named("log.Logger", [], {"Print"}))

  function User(id: string, name: string): (u: Value)
    ensures forall test :: HasType(u, UserType(test))
  {
    StructV([StrV(id), StrV(name)])
  }

  /** A string attached to a background context is read back. */
  lemma StringRoundTrip()
    ensures FromContext(ContextWith(Background, String, StrV("some string")), String)
         == CommaOk(StrV("some string"), true)
  {
  }

  /** A function value, although not comparable, is stored and read back. */
  lemma FuncRoundTrip(f: nat)
    ensures !Comparable(FuncType)
    ensures FromContext(ContextWith(Background, FuncType, Ref(Some(f))), FuncType)
         == CommaOk(Ref(Some(f)), true)
  {
  }

  /** A struct value is read back field for field. */
  lemma StructRoundTrip(id: string, name: string)
    ensures FromContext(ContextWith(Background, CustomUser, User(id, name)), CustomUser)
         == CommaOk(User(id, name), true)
  {
  }

  /** A pointer is read back as the same pointer, under `*user` and not `user`. */
  lemma PointerRoundTrip(p: nat)
    ensures FromContext(ContextWith(Background, Pointer(PointerUser), Ref(Some(p))), Pointer(PointerUser))
         == CommaOk(Ref(Some(p)), true)
    ensures FromContext(ContextWith(Background, Pointer(PointerUser), Ref(Some(p))), PointerUser)
         == CommaOk(User("", ""), false)
  {
  }

  /** A stored `*slog.Logger` is found, and it is not nil. */
  lemma LoggerRoundTrip(l: nat)
    ensures var found := FromContext(ContextWith(Background, SlogLogger, Ref(Some(l))), SlogLogger);
            found.ok && found.val == Ref(Some(l)) && found.val != Ref(None)
  {
  }

  /** A stored logger wins over the default; with none stored the default is used. */
  lemma LoggerOrDefault(stored: nat, fallback: nat)
    ensures FromContextOr(ContextWith(Background, SlogLogger, Ref(Some(stored))), SlogLogger,
                          Ref(Some(fallback)))
         == Ref(Some(stored))
    ensures FromContextOr(Background, LogLogger, Ref(Some(fallback))) == Ref(Some(fallback))
  {
  }

  /** A string, a time, a function and a `*user` attached one after another are
      each read back under their own type. */
  lemma MultipleTypes(s: string, sec: int, nsec: int, f: nat, p: nat)
    ensures var ctx := AttachAll(Background, [
                Attachment(String, StrV(s)),
                Attachment(TimeType, StructV([IntV(sec), IntV(nsec)])),
                Attachment(FuncType, Ref(Some(f))),
                Attachment(Pointer(MultipleUser), Ref(Some(p)))]);
            && FromContext(ctx, String) == CommaOk(StrV(s), true)
            && FromContext(ctx, TimeType) == CommaOk(StructV([IntV(sec), IntV(nsec)]), true)
            && FromContext(ctx, FuncType) == CommaOk(Ref(Some(f)), true)
            && FromContext(ctx, Pointer(MultipleUser)) == CommaOk(Ref(Some(p)), true)
  {
    var items := [
      Attachment(String, StrV(s)),
      Attachment(TimeType, StructV([IntV(sec), IntV(nsec)])),
      Attachment(FuncType, Ref(Some(f))),
      Attachment(Pointer(MultipleUser), Ref(Some(p)))];
    DistinctTypesIsolated(Background, items, 0);
    DistinctTypesIsolated(Background, items, 1);
    DistinctTypesIsolated(Background, items, 2);
    DistinctTypesIsolated(Background, items, 3);
  }

  /** "hello" then 42: both are found, and a `bool` is not. */
  lemma StringThenInt()
    ensures var ctx := ContextWith(ContextWith(Background, String, StrV("hello")), Int, IntV(42));
            && FromContext(ctx, String) == CommaOk(StrV("hello"), true)
            && FromContext(ctx, Int) == CommaOk(IntV(42), true)
            && FromContext(ctx, Bool) == CommaOk(BoolV(false), false)
  {
  }
}
