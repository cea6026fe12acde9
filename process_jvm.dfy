/**
 * The JVM half of the processor: for every abstract suspend function of an
 * annotated type, a blocking variant (`fooBlocking`) for the `JBlocking`
 * companion type and a `CompletableFuture` variant (`fooAsync`) for the
 * `JAsync` companion type, each with an override of the original that calls it.
 */
module ProcessJvm {
  import opened Poet
  import opened Ksp
  import opened Join
  import opened Reversal

  /** The blocking function and the override of the original that returns its result. */
  method GenerateBlockingFunctions(
    annotationInfo: AnnotationAndClassDeclaration,
    includeAnnotations: AnnotationSelector,
    abstractSuspendFunction: KsFunctionDeclaration)
    returns (r: GeneratedReversalFunctions)
    ensures r == Reverse(JvmBlocking(annotationInfo.nearestAnnotation.markJvmSynthetic, includeAnnotations), abstractSuspendFunction)
  {
    ghost var p := JvmBlocking(annotationInfo.nearestAnnotation.markJvmSynthetic, includeAnnotations);
    var modifiers := KModifiers(abstractSuspendFunction.modifiers);
    var typeVariables := abstractSuspendFunction.typeParameters;
    var extensionReceiver := abstractSuspendFunction.extensionReceiver;
    var returnType := abstractSuspendFunction.returnType;
    var parameters := ParameterSpecs(abstractSuspendFunction.parameters);
    var abstractSuspendFunctionName := abstractSuspendFunction.simpleName;

    var kdoc := CodeBlock(BlockingKdoc,
                          [NameArg(abstractSuspendFunctionName), NameArg(abstractSuspendFunctionName)]);
    var modifiers0 := modifiers;
    modifiers0 := modifiers0 - {Suspend};
    modifiers0 := modifiers0 + {Abstract};
    var abstractBlockingFunction := FunSpec(
      abstractSuspendFunctionName + "Blocking", modifiers0, typeVariables, extensionReceiver,
      returnType, parameters, includeAnnotations(abstractSuspendFunction), kdoc, []);
    assert abstractBlockingFunction == GeneratedFun(p, abstractSuspendFunction);

    var modifiers1 := modifiers;
    modifiers1 := modifiers1 - {Abstract};
    modifiers1 := modifiers1 + {Override};
    var annotations: seq<AnnotationSpec> := [];
    if annotationInfo.nearestAnnotation.markJvmSynthetic {
      annotations := annotations + [JvmSynthetic];
    }
    var formatArgs := [FunArg(abstractBlockingFunction)] + ParamArgs(parameters);
    var builder := if returnType.None? then "%N(" else "return %N(";
    ghost var head := builder;
    builder := JoinTo(parameters, builder, "", "", "%N");
    builder := builder + ")";
    assert builder == head + Joined(|parameters|, "%N") + ")";
    assert CodeBlock(builder, formatArgs) == Statement(p, abstractSuspendFunction);
    var overriddenSuspendFunction := FunSpec(
      abstractSuspendFunctionName, modifiers1, typeVariables, extensionReceiver,
      returnType, parameters, annotations, EmptyCode, [CodeBlock(builder, formatArgs)]);
    assert overriddenSuspendFunction == OverriddenFun(p, abstractSuspendFunction);
    r := GeneratedReversalFunctions(abstractBlockingFunction, overriddenSuspendFunction);
  }

  /** The `CompletableFuture` function and the override of the original that awaits it. */
  method GenerateAsyncFunctions(
    annotationInfo: AnnotationAndClassDeclaration,
    includeAnnotations: AnnotationSelector,
    abstractSuspendFunction: KsFunctionDeclaration)
    returns (r: GeneratedReversalFunctions)
    ensures r == Reverse(JvmAsync(annotationInfo.nearestAnnotation.markJvmSynthetic, includeAnnotations), abstractSuspendFunction)
  {
    ghost var p := JvmAsync(annotationInfo.nearestAnnotation.markJvmSynthetic, includeAnnotations);
    var modifiers := KModifiers(abstractSuspendFunction.modifiers);
    var typeVariables := abstractSuspendFunction.typeParameters;
    var extensionReceiver := abstractSuspendFunction.extensionReceiver;
    var returnType := abstractSuspendFunction.returnType;
    if returnType == Some(Unit) {
      returnType := None;
    }
    var parameters := ParameterSpecs(abstractSuspendFunction.parameters);
    var abstractSuspendFunctionName := abstractSuspendFunction.simpleName;

    var kdoc := CodeBlock(FutureKdoc,
                          [NameArg(abstractSuspendFunctionName), NameArg(abstractSuspendFunctionName)]);
    var modifiers0 := modifiers;
    modifiers0 := modifiers0 - {Suspend};
    modifiers0 := modifiers0 + {Abstract};
    var futureType;
    if returnType.None? {
      futureType := CompletableFuture(Invariant, NullableVoid);
    } else {
      futureType := CompletableFuture(Out, returnType.value);
    }
    assert returnType == BridgeReturnType(p, abstractSuspendFunction.returnType);
    assert Some(futureType) == GeneratedReturnType(p, returnType);
    var abstractAsyncFunction := FunSpec(
      abstractSuspendFunctionName + "Async", modifiers0, typeVariables, extensionReceiver,
      Some(futureType), parameters, includeAnnotations(abstractSuspendFunction), kdoc, []);
    assert abstractAsyncFunction == GeneratedFun(p, abstractSuspendFunction);

    var modifiers1 := modifiers;
    modifiers1 := modifiers1 - {Abstract};
    modifiers1 := modifiers1 + {Override};
    var annotations: seq<AnnotationSpec> := [];
    if annotationInfo.nearestAnnotation.markJvmSynthetic {
      annotations := annotations + [JvmSynthetic];
    }
    var formatArgs := [FunArg(abstractAsyncFunction)] + TypeArgs(typeVariables) + ParamArgs(parameters)
                      + [MemberArg(CompletableFutureAwait)];
    var builder := if returnType.None? then "%N" else "return %N";
    if |typeVariables| != 0 {
      builder := JoinTo(typeVariables, builder, "<", ">", "%T");
    }
    ghost var withTypes := builder;
    assert withTypes == (var head := if returnType.Some? then "return %N" else "%N";
      if |typeVariables| == 0 then head else head + "<" + Joined(|typeVariables|, "%T") + ">");
    builder := builder + "(";
    builder := JoinTo(parameters, builder, "", "", "%N");
    builder := builder + ").%M()";
    assert builder == withTypes + "(" + Joined(|parameters|, "%N") + ").%M()";
    assert builder == CallFormat(p, returnType.Some?, |typeVariables|, |parameters|);
    assert annotations == OverrideAnnotations(p);
    assert CodeBlock(builder, formatArgs) == Statement(p, abstractSuspendFunction);
    var overriddenSuspendFunction := FunSpec(
      abstractSuspendFunctionName, modifiers1, typeVariables, extensionReceiver,
      returnType, parameters, annotations, EmptyCode, [CodeBlock(builder, formatArgs)]);
    assert overriddenSuspendFunction == OverriddenFun(p, abstractSuspendFunction);
    r := GeneratedReversalFunctions(abstractAsyncFunction, overriddenSuspendFunction);
  }

  /**
   * The body of the `forEach` over the selected members: appends the blocking
   * pair to the blocking builder and the future pair to the async builder,
   * each only when that builder is present.
   */
  method ResolveMember(
    symbol: AnnotationAndClassDeclaration,
    includeAnnotations: AnnotationSelector,
    blockingTypeBuilder: TypeSpecBuilder?,
    asyncTypeBuilder: TypeSpecBuilder?,
    abstractSuspendFunction: KsFunctionDeclaration)
    requires blockingTypeBuilder != null && asyncTypeBuilder != null ==> blockingTypeBuilder != asyncTypeBuilder
    modifies blockingTypeBuilder, asyncTypeBuilder
    ensures var mark := symbol.nearestAnnotation.markJvmSynthetic;
      && (blockingTypeBuilder != null ==>
            var pair := Reverse(JvmBlocking(mark, includeAnnotations), abstractSuspendFunction);
            blockingTypeBuilder.funSpecs == old(blockingTypeBuilder.funSpecs) + [pair.generated, pair.overridden])
      && (asyncTypeBuilder != null ==>
            var pair := Reverse(JvmAsync(mark, includeAnnotations), abstractSuspendFunction);
            asyncTypeBuilder.funSpecs == old(asyncTypeBuilder.funSpecs) + [pair.generated, pair.overridden])
  {
    if blockingTypeBuilder != null {
      var pair := GenerateBlockingFunctions(symbol, includeAnnotations, abstractSuspendFunction);
      blockingTypeBuilder.AddFunction(pair.generated);
      blockingTypeBuilder.AddFunction(pair.overridden);
    }
    if asyncTypeBuilder != null {
      var pair := GenerateAsyncFunctions(symbol, includeAnnotations, abstractSuspendFunction);
      asyncTypeBuilder.AddFunction(pair.generated);
      asyncTypeBuilder.AddFunction(pair.overridden);
    }
  }

  /**
   * The `forEach` over the selected members: appends, for every function in
   * order, the blocking pair to the blocking builder and the future pair to
   * the async builder, skipping a builder that is absent.
   */
  method ResolveMembers(
    symbol: AnnotationAndClassDeclaration,
    includeAnnotations: AnnotationSelector,
    functions: seq<KsFunctionDeclaration>,
    blockingTypeBuilder: TypeSpecBuilder?,
    asyncTypeBuilder: TypeSpecBuilder?)
    requires blockingTypeBuilder != null && asyncTypeBuilder != null ==> blockingTypeBuilder != asyncTypeBuilder
    modifies blockingTypeBuilder, asyncTypeBuilder
    ensures var mark := symbol.nearestAnnotation.markJvmSynthetic;
      && (blockingTypeBuilder != null ==>
            blockingTypeBuilder.funSpecs == old(blockingTypeBuilder.funSpecs) + Output(JvmBlocking(mark, includeAnnotations), functions))
      && (asyncTypeBuilder != null ==>
            asyncTypeBuilder.funSpecs == old(asyncTypeBuilder.funSpecs) + Output(JvmAsync(mark, includeAnnotations), functions))
  {
    var mark := symbol.nearestAnnotation.markJvmSynthetic;
    var blocking := JvmBlocking(mark, includeAnnotations);
    var async := JvmAsync(mark, includeAnnotations);
    ghost var blocking0 := if blockingTypeBuilder != null then blockingTypeBuilder.funSpecs else [];
    ghost var async0 := if asyncTypeBuilder != null then asyncTypeBuilder.funSpecs else [];
    for i := 0 to |functions|
      invariant blockingTypeBuilder != null ==> blockingTypeBuilder.funSpecs == blocking0 + Output(blocking, functions[..i])
      invariant asyncTypeBuilder != null ==> asyncTypeBuilder.funSpecs == async0 + Output(async, functions[..i])
    {
      var abstractSuspendFunction := functions[i];
      ghost var b := if blockingTypeBuilder != null then blockingTypeBuilder.funSpecs else [];
      ghost var a := if asyncTypeBuilder != null then asyncTypeBuilder.funSpecs else [];
      ResolveMember(symbol, includeAnnotations, blockingTypeBuilder, asyncTypeBuilder, abstractSuspendFunction);
      if blockingTypeBuilder != null {
        OutputStep(blocking, blocking0, b, blockingTypeBuilder.funSpecs, functions, i);
      }
      if asyncTypeBuilder != null {
        OutputStep(async, async0, a, asyncTypeBuilder.funSpecs, functions, i);
      }
    }
    assert functions[..|functions|] == functions;
  }

  /**
   * Appends, for every abstract suspend function in declaration order, the
   * blocking pair to the blocking builder and the future pair to the async
   * builder, skipping a builder that is absent (its profile is disabled); then
   * adds the present builders' types to the file, blocking first.
   */
  method ResolveJvm(
    symbol: AnnotationAndClassDeclaration,
    includeAnnotations: AnnotationSelector,
    fileBuilder: FileSpecBuilder,
    blockingTypeBuilder: TypeSpecBuilder?,
    asyncTypeBuilder: TypeSpecBuilder?)
    requires blockingTypeBuilder != null && asyncTypeBuilder != null ==> blockingTypeBuilder != asyncTypeBuilder
    modifies fileBuilder, blockingTypeBuilder, asyncTypeBuilder
    ensures var functions := AbstractSuspendFunctions(symbol.declaration.declarations);
      var mark := symbol.nearestAnnotation.markJvmSynthetic;
      && (blockingTypeBuilder != null ==>
            blockingTypeBuilder.funSpecs == old(blockingTypeBuilder.funSpecs) + Output(JvmBlocking(mark, includeAnnotations), functions))
      && (asyncTypeBuilder != null ==>
            asyncTypeBuilder.funSpecs == old(asyncTypeBuilder.funSpecs) + Output(JvmAsync(mark, includeAnnotations), functions))
    ensures fileBuilder.types == old(fileBuilder.types)
      + (if blockingTypeBuilder != null then [blockingTypeBuilder.Build()] else [])
      + (if asyncTypeBuilder != null then [asyncTypeBuilder.Build()] else [])
  {
    var functions := AbstractSuspendFunctions(symbol.declaration.declarations);
    ResolveMembers(symbol, includeAnnotations, functions, blockingTypeBuilder, asyncTypeBuilder);
    if blockingTypeBuilder != null {
      fileBuilder.AddType(blockingTypeBuilder.Build());
    }
    if asyncTypeBuilder != null {
      fileBuilder.AddType(asyncTypeBuilder.Build());
    }
  }
}
