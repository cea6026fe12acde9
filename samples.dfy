/**
 * The sample interface `Foo` as a declaration, the functions `Bar.get` and
 * `S1.run` of the sample types `Bar` and `S1`, and what the processor
 * generates for them.
 */
module Samples {
  import opened Poet
  import opened Ksp
  import opened Join
  import opened Reversal

  const IntType := Named("kotlin.Int", [])

  /** `suspend fun run()`, declared in an interface (abstract without the modifier); it returns `Unit`. */
  const FooRun := KsFunctionDeclaration("run", {Kotlin(Suspend)}, true, [], None, Some(Unit), [])

  /** `suspend fun get(): Int`, declared in an interface. */
  const FooGet := KsFunctionDeclaration("get", {Kotlin(Suspend)}, true, [], None, Some(IntType), [])

  /** `interface Foo`: a property with a getter, the two functions, and an abstract property. */
  const Foo := KsClassDeclaration("Foo", [
    PropertyMember("age"), FunctionMember(FooRun), FunctionMember(FooGet), PropertyMember("name")])

  /** `suspend fun <Q : T> get(value: I): Q`, declared in `interface Bar<T, out R, in I, V : Number>`. */
  const BarGet := KsFunctionDeclaration(
    "get", {Kotlin(Suspend)}, true, [TypeVariableName("Q", [TypeVariable("T")])], None,
    Some(TypeVariable("Q")), [KsValueParameter(Some("value"), TypeVariable("I"), false)])

  /** `abstract suspend fun run()`, declared in `abstract class S1`. */
  const S1Run := KsFunctionDeclaration("run", {Kotlin(Abstract), Kotlin(Suspend)}, true, [], None, Some(Unit), [])

  /** A member that is abstract but not `suspend` is not selected. */
  const PlainGet := KsFunctionDeclaration("get", {}, true, [], None, Some(IntType), [])

  /** `Foo`'s two functions are selected in declaration order; the properties are skipped. */
  lemma FooSelection()
    ensures AbstractSuspendFunctions(Foo.declarations) == [FooRun, FooGet]
  {
    var ds := Foo.declarations;
    assert ds[1..][1..][1..][1..] == [];
    assert AbstractSuspendFunctions(ds[1..][1..][1..]) == [];
    assert AbstractSuspendFunctions(ds[1..][1..]) == [FooGet];
    assert AbstractSuspendFunctions(ds[1..]) == [FooRun, FooGet];
  }

  lemma PlainGetNotSelected()
    ensures AbstractSuspendFunctions([FunctionMember(PlainGet), FunctionMember(FooGet)]) == [FooGet]
  {
    assert [FunctionMember(PlainGet), FunctionMember(FooGet)][1..] == [FunctionMember(FooGet)];
  }

  /**
   * Blocking `Foo.get`: `abstract fun getBlocking(): Int` and
   * `override suspend fun get(): Int`, whose body is `return getBlocking()` and
   * which is marked `@JvmSynthetic`.
   */
  lemma FooGetBlocking(includeAnnotations: AnnotationSelector)
    ensures var r := Reverse(JvmBlocking(true, includeAnnotations), FooGet);
      && r.generated.name == "getBlocking"
      && r.generated.modifiers == {Abstract}
      && r.generated.returnType == Some(IntType)
      && r.overridden.name == "get"
      && r.overridden.modifiers == {Suspend, Override}
      && r.overridden.returnType == Some(IntType)
      && r.overridden.annotations == [JvmSynthetic]
      && r.overridden.body == [CodeBlock("return %N()", [FunArg(r.generated)])]
  {
    var r := Reverse(JvmBlocking(true, includeAnnotations), FooGet);
    assert r.generated.name == "get" + "Blocking";
    assert r.overridden.body[0].format == "return %N(" + "" + ")";
    assert ParameterSpecs([]) == [] && ParamArgs([]) == [];
    assert r.overridden.body[0].args == [FunArg(r.generated)] + [];
    assert r.overridden.body[0].format == "return %N()";
    assert r.overridden.body[0].args == [FunArg(r.generated)];
    assert |r.overridden.body| == 1;
  }

  /**
   * Future `Foo.run`: `Unit` is dropped, so the generated function returns
   * `CompletableFuture<Void?>` and the override returns nothing and calls
   * `runAsync().await()` without `return`.
   */
  lemma FooRunAsync(includeAnnotations: AnnotationSelector)
    ensures var r := Reverse(JvmAsync(false, includeAnnotations), FooRun);
      && r.generated.name == "runAsync"
      && r.generated.returnType == Some(CompletableFuture(Invariant, NullableVoid))
      && r.overridden.returnType == None
      && r.overridden.annotations == []
      && r.overridden.body == [CodeBlock("%N().%M()", [FunArg(r.generated), MemberArg(CompletableFutureAwait)])]
  {
    var r := Reverse(JvmAsync(false, includeAnnotations), FooRun);
    assert r.generated.name == "run" + "Async";
    assert r.overridden.body[0].format == "%N" + "(" + "" + ").%M()";
    assert ParameterSpecs([]) == [] && ParamArgs([]) == [] && TypeArgs([]) == [];
    assert r.overridden.body[0].args == [FunArg(r.generated)] + [] + [] + [MemberArg(CompletableFutureAwait)];
    assert r.overridden.body[0].format == "%N().%M()";
    assert r.overridden.body[0].args == [FunArg(r.generated), MemberArg(CompletableFutureAwait)];
    assert |r.overridden.body| == 1;
  }

  /** Blocking `Foo.run` keeps `Unit` on both functions, so its body is `return runBlocking()`. */
  lemma FooRunBlocking(includeAnnotations: AnnotationSelector)
    ensures var r := Reverse(JvmBlocking(true, includeAnnotations), FooRun);
      && r.generated.returnType == Some(Unit)
      && r.overridden.returnType == Some(Unit)
      && r.overridden.body[0].format == "return %N()"
  {
    var r := Reverse(JvmBlocking(true, includeAnnotations), FooRun);
    assert r.overridden.body[0].format == "return %N(" + "" + ")";
  }

  /**
   * Future `Bar.get`: `abstract fun <Q : T> getAsync(value: I): CompletableFuture<out Q>`,
   * and an override whose body is `return getAsync<Q>(value).await()`.
   */
  lemma BarGetAsync(includeAnnotations: AnnotationSelector)
    ensures var r := Reverse(JvmAsync(true, includeAnnotations), BarGet);
      && r.generated.name == "getAsync"
      && r.generated.typeVariables == r.overridden.typeVariables == [TypeVariableName("Q", [TypeVariable("T")])]
      && r.generated.parameters == [ParameterSpec("value", TypeVariable("I"), {})]
      && r.generated.returnType == Some(CompletableFuture(Out, TypeVariable("Q")))
      && r.overridden.returnType == Some(TypeVariable("Q"))
      && r.overridden.parameters == [ParameterSpec("value", TypeVariable("I"), {})]
      && r.overridden.body[0].format == "return %N<%T>(%N).%M()"
      && r.overridden.body[0].args == [
           FunArg(r.generated), TypeArg(TypeVariableName("Q", [TypeVariable("T")])),
           ParamArg(ParameterSpec("value", TypeVariable("I"), {})), MemberArg(CompletableFutureAwait)]
  {
    var r := Reverse(JvmAsync(true, includeAnnotations), BarGet);
    assert r.generated.name == "get" + "Async";
    assert Joined(1, "%T") == "%T" && Joined(1, "%N") == "%N";
    assert r.overridden.body[0].format == "return %N" + "<" + "%T" + ">" + "(" + "%N" + ").%M()";
  }

  /** JS `Bar.get`: a `Promise<Q>` without variance, awaited with the coroutines' `await`. */
  lemma BarGetPromise()
    ensures var r := Reverse(JsAsync, BarGet);
      && r.generated.name == "getAsync"
      && r.generated.typeVariables == r.overridden.typeVariables == [TypeVariableName("Q", [TypeVariable("T")])]
      && r.generated.returnType == Some(Promise(TypeVariable("Q")))
      && r.generated.annotations == []
      && r.overridden.annotations == []
      && r.overridden.body[0].format == "return %N<%T>(%N).%M()"
      && r.overridden.body[0].args[3] == MemberArg(PromiseAwait)
  {
    var r := Reverse(JsAsync, BarGet);
    assert r.generated.name == "get" + "Async";
    assert Joined(1, "%T") == "%T" && Joined(1, "%N") == "%N";
    assert r.overridden.body[0].format == "return %N" + "<" + "%T" + ">" + "(" + "%N" + ").%M()";
  }

  /** `S1.run` carries `abstract` itself: the generated function keeps it, the override drops it. */
  lemma S1RunModifiers(p: Profile)
    ensures var r := Reverse(p, S1Run);
      && r.generated.modifiers == {Abstract}
      && r.overridden.modifiers == {Suspend, Override}
  {
    var r := Reverse(p, S1Run);
    ModifierRules(p, S1Run);
    assert forall k :: k in r.generated.modifiers <==> k == Abstract;
    assert forall k :: k in r.overridden.modifiers <==> k == Suspend || k == Override;
  }

  /** A companion for two selected members holds the first one's pair and then the second one's. */
  lemma TwoMembers(p: Profile, f: KsFunctionDeclaration, g: KsFunctionDeclaration)
    ensures var out := Output(p, [f, g]);
      && |out| == 4
      && out[0].name == f.simpleName + Suffix(p) && out[1].name == f.simpleName
      && out[2].name == g.simpleName + Suffix(p) && out[3].name == g.simpleName
  {
    var out := Output(p, [f, g]);
    OutputAt(p, [f, g]);
    assert out[2 * 0] == Reverse(p, f).generated && out[2 * 0 + 1] == Reverse(p, f).overridden;
    assert out[2 * 1] == Reverse(p, g).generated && out[2 * 1 + 1] == Reverse(p, g).overridden;
    Names(p, f);
    Names(p, g);
  }

  /**
   * Generated names are not checked against the other members: when a member
   * is already named `fooBlocking`, the blocking companion holds two
   * functions of that name, `foo`'s generated one and the member's override.
   */
  lemma NameClash(p: Profile, f: KsFunctionDeclaration, g: KsFunctionDeclaration)
    requires p.JvmBlocking? && g.simpleName == f.simpleName + "Blocking"
    ensures var out := Output(p, [f, g]);
      && |out| == 4 && out[0].name == out[3].name == g.simpleName
  {
    TwoMembers(p, f, g);
  }

  /** Each companion of `Foo` holds `run`'s pair and then `get`'s, generated function first. */
  lemma FooCompanion(p: Profile)
    ensures var out := Output(p, AbstractSuspendFunctions(Foo.declarations));
      && |out| == 4
      && out[0].name == "run" + Suffix(p) && out[1].name == "run"
      && out[2].name == "get" + Suffix(p) && out[3].name == "get"
  {
    FooSelection();
    TwoMembers(p, FooRun, FooGet);
  }
}
