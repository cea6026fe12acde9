/**
 * The JS half of the processor: for every abstract suspend function of an
 * annotated type, a `Promise` variant (`fooAsync`) for the `JsAsync`
 * companion type, with an override of the original that awaits it.
 */
module ProcessJs {
  import opened Poet
  import opened Ksp
  import opened Join
  import opened Reversal

  /** The `Promise` function and the override of the original that awaits it. */
  method GenerateAsyncFunctions(
    annotationInfo: AnnotationAndClassDeclaration,
    abstractSuspendFunction: KsFunctionDeclaration)
    returns (r: GeneratedReversalFunctions)
    ensures r == Reverse(JsAsync, abstractSuspendFunction)
  {
    var modifiers := KModifiers(abstractSuspendFunction.modifiers);
    var typeVariables := abstractSuspendFunction.typeParameters;
    var extensionReceiver := abstractSuspendFunction.extensionReceiver;
    var returnType := abstractSuspendFunction.returnType;
    if returnType == Some(Unit) {
      returnType := None;
    }
    var parameters := ParameterSpecs(abstractSuspendFunction.parameters);
    var abstractSuspendFunctionName := abstractSuspendFunction.simpleName;

    var kdoc := CodeBlock(PromiseKdoc, [NameArg(abstractSuspendFunctionName)]);
    var modifiers0 := modifiers;
    modifiers0 := modifiers0 - {Suspend};
    modifiers0 := modifiers0 + {Abstract};
    var promiseType;
    if returnType.None? {
      promiseType := Promise(NullableUnit);
    } else {
      promiseType := Promise(returnType.value);
    }
    var abstractAsyncFunction := FunSpec(
      abstractSuspendFunctionName + "Async", modifiers0, typeVariables, extensionReceiver,
      Some(promiseType), parameters, [], kdoc, []);
    assert abstractAsyncFunction == GeneratedFun(JsAsync, abstractSuspendFunction);

    var modifiers1 := modifiers;
    modifiers1 := modifiers1 - {Abstract};
    modifiers1 := modifiers1 + {Override};
    var formatArgs := [FunArg(abstractAsyncFunction)] + TypeArgs(typeVariables) + ParamArgs(parameters)
                      + [MemberArg(PromiseAwait)];
    var builder := if returnType.None? then "%N" else "return %N";
    if |typeVariables| != 0 {
      builder := JoinTo(typeVariables, builder, "<", ">", "%T");
    }
    ghost var withTypes := builder;
    builder := builder + "(";
    builder := JoinTo(parameters, builder, "", "", "%N");
    builder := builder + ").%M()";
    assert builder == withTypes + "(" + Joined(|parameters|, "%N") + ").%M()";
    assert CodeBlock(builder, formatArgs) == Statement(JsAsync, abstractSuspendFunction);
    var overriddenSuspendFunction := FunSpec(
      abstractSuspendFunctionName, modifiers1, typeVariables, extensionReceiver,
      returnType, parameters, [], EmptyCode, [CodeBlock(builder, formatArgs)]);
    assert overriddenSuspendFunction == OverriddenFun(JsAsync, abstractSuspendFunction);
    r := GeneratedReversalFunctions(abstractAsyncFunction, overriddenSuspendFunction);
  }

  /**
   * Appends the promise pair of every abstract suspend function, in
   * declaration order, to the async builder unless it is absent (the profile
   * is disabled); then adds its type to the file when present.
   */
  method ResolveJs(
    symbol: AnnotationAndClassDeclaration,
    fileBuilder: FileSpecBuilder,
    asyncTypeBuilder: TypeSpecBuilder?)
    modifies fileBuilder, asyncTypeBuilder
    ensures asyncTypeBuilder != null ==>
      asyncTypeBuilder.funSpecs == old(asyncTypeBuilder.funSpecs)
        + Output(JsAsync, AbstractSuspendFunctions(symbol.declaration.declarations))
    ensures fileBuilder.types == old(fileBuilder.types)
      + (if asyncTypeBuilder != null then [asyncTypeBuilder.Build()] else [])
  {
    var functions := AbstractSuspendFunctions(symbol.declaration.declarations);
    for i := 0 to |functions|
      invariant asyncTypeBuilder != null ==>
        asyncTypeBuilder.funSpecs == old(asyncTypeBuilder.funSpecs) + Output(JsAsync, functions[..i])
      invariant fileBuilder.types == old(fileBuilder.types)
    {
      var abstractSuspendFunction := functions[i];
      assert functions[..i + 1] == functions[..i] + [abstractSuspendFunction];
      if asyncTypeBuilder != null {
        var pair := GenerateAsyncFunctions(symbol, abstractSuspendFunction);
        asyncTypeBuilder.AddFunction(pair.generated);
        asyncTypeBuilder.AddFunction(pair.overridden);
        OutputSnoc(JsAsync, functions[..i], abstractSuspendFunction);
      }
    }
    assert functions[..|functions|] == functions;
    if asyncTypeBuilder != null {
      fileBuilder.AddType(asyncTypeBuilder.Build());
    }
  }
}
