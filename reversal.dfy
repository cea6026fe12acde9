/**
 * What the processor generates, stated once for its three profiles: for one
 * abstract suspend function and one profile, the new abstract function and
 * the bridging override of the original (`Reverse`); for the members of a
 * type, the functions appended to the profile's companion type (`Output`).
 * The lemmas state the rules the generated code obeys.
 */
module Reversal {
  import opened Poet
  import opened Ksp
  import opened Join

  /** The annotations `resolveIncludeAnnotations` copies from the original function onto the generated one. */
  type AnnotationSelector = KsFunctionDeclaration -> seq<AnnotationSpec>

  /**
   * The execution profiles. The two JVM profiles read `markJvmSynthetic` and
   * copy selected annotations; the JS profile does neither.
   */
  datatype Profile =
    | JvmBlocking(markJvmSynthetic: bool, includeAnnotations: AnnotationSelector)
    | JvmAsync(markJvmSynthetic: bool, includeAnnotations: AnnotationSelector)
    | JsAsync

  /** The configuration the processor reads from the nearest `SuspendReversal` scope. */
  datatype NearestAnnotation = NearestAnnotation(javaBlocking: bool, javaAsync: bool, jsAsync: bool, markJvmSynthetic: bool)

  datatype AnnotationAndClassDeclaration = AnnotationAndClassDeclaration(
    declaration: KsClassDeclaration,
    nearestAnnotation: NearestAnnotation)

  /** The generated abstract function and the override of the original that calls it. */
  datatype GeneratedReversalFunctions = GeneratedReversalFunctions(generated: FunSpec, overridden: FunSpec)

  const JvmSynthetic := AnnotationSpec("kotlin.jvm.JvmSynthetic")
  const CompletableFutureAwait := MemberName("kotlinx.coroutines.future", "await")
  const PromiseAwait := MemberName("kotlinx.coroutines", "await")

  function Suffix(p: Profile): string {
    if p.JvmBlocking? then "Blocking" else "Async"
  }

  /** The extension that awaits the generated function's result inside the override. */
  function Await(p: Profile): MemberName {
    if p.JsAsync? then PromiseAwait else CompletableFutureAwait
  }

  /** The payload type an async profile wraps when the original returns nothing. */
  function NoPayload(p: Profile): Ty {
    if p.JsAsync? then NullableUnit else NullableVoid
  }

  // ---------------------------------------------------------------------------
  // Parameters

  function ParameterSpecOf(p: KsValueParameter): ParameterSpec {
    ParameterSpec(p.name.GetOr(""), p.ty, if p.isVararg then {Vararg} else {})
  }

  /** The parameter `map`: names (a missing one becomes `""`), types and vararg flags, in order. */
  function ParameterSpecs(ps: seq<KsValueParameter>): (r: seq<ParameterSpec>)
    ensures |r| == |ps|
    ensures forall i :: 0 <= i < |ps| ==>
      && r[i].name == ps[i].name.GetOr("")
      && r[i].ty == ps[i].ty
      && (Vararg in r[i].modifiers <==> ps[i].isVararg)
      && r[i].modifiers <= {Vararg}
  {
    seq(|ps|, i requires 0 <= i < |ps| => ParameterSpecOf(ps[i]))
  }

  /** Reads a generated parameter back as a declared one. */
  function DeclaredParameter(s: ParameterSpec): KsValueParameter {
    KsValueParameter(Some(s.name), s.ty, Vararg in s.modifiers)
  }

  function DeclaredParameters(ss: seq<ParameterSpec>): (r: seq<KsValueParameter>)
    ensures |r| == |ss| && forall i :: 0 <= i < |ss| ==> r[i] == DeclaredParameter(ss[i])
  {
    seq(|ss|, i requires 0 <= i < |ss| => DeclaredParameter(ss[i]))
  }

  function ParamArgs(ps: seq<ParameterSpec>): (r: seq<FormatArg>)
    ensures |r| == |ps| && forall i :: 0 <= i < |ps| ==> r[i] == ParamArg(ps[i])
  {
    seq(|ps|, i requires 0 <= i < |ps| => ParamArg(ps[i]))
  }

  function TypeArgs(tvs: seq<TypeVariableName>): (r: seq<FormatArg>)
    ensures |r| == |tvs| && forall i :: 0 <= i < |tvs| ==> r[i] == TypeArg(tvs[i])
  {
    seq(|tvs|, i requires 0 <= i < |tvs| => TypeArg(tvs[i]))
  }

  // ---------------------------------------------------------------------------
  // The generated pair

  /** The `returnType` local: the blocking profile keeps the declared type, the async profiles drop `Unit`. */
  function BridgeReturnType(p: Profile, declared: Option<Ty>): Option<Ty> {
    if p.JvmBlocking? || declared != Some(Unit) then declared else None
  }

  function GeneratedReturnType(p: Profile, bridge: Option<Ty>): Option<Ty> {
    match p
    case JvmBlocking(_, _) => bridge
    case JvmAsync(_, _) =>
      Some(if bridge.None? then CompletableFuture(Invariant, NullableVoid) else CompletableFuture(Out, bridge.value))
    case JsAsync =>
      Some(Promise(if bridge.None? then NullableUnit else bridge.value))
  }

  /** The kdoc formats: a link to the original and, on the JVM, a `@see` of it. */
  const BlockingKdoc := "Blocking reversal function for [%N]\n\n @see %N"
  const FutureKdoc := "Async reversal function for [%N]\n\n @see %N"
  const PromiseKdoc := "Async reversal function for [%N]"

  function KdocOf(p: Profile, name: string): CodeBlock {
    match p
    case JvmBlocking(_, _) => CodeBlock(BlockingKdoc, [NameArg(name), NameArg(name)])
    case JvmAsync(_, _) => CodeBlock(FutureKdoc, [NameArg(name), NameArg(name)])
    case JsAsync => CodeBlock(PromiseKdoc, [NameArg(name)])
  }

  /**
   * The override's one statement, as the string builder assembles it: the
   * optional `return `, the called function, on the async profiles the
   * type-argument list when there are type variables, the argument list, and
   * on the async profiles the await.
   */
  function CallFormat(p: Profile, hasReturn: bool, typeVariableCount: nat, parameterCount: nat): string {
    if p.JvmBlocking? then
      (if hasReturn then "return %N(" else "%N(") + Joined(parameterCount, "%N") + ")"
    else
      var head := if hasReturn then "return %N" else "%N";
      var withTypes := if typeVariableCount == 0 then head else head + "<" + Joined(typeVariableCount, "%T") + ">";
      withTypes + "(" + Joined(parameterCount, "%N") + ").%M()"
  }

  function CallArgs(p: Profile, generated: FunSpec, tvs: seq<TypeVariableName>, ps: seq<ParameterSpec>): seq<FormatArg> {
    if p.JvmBlocking? then [FunArg(generated)] + ParamArgs(ps)
    else [FunArg(generated)] + TypeArgs(tvs) + ParamArgs(ps) + [MemberArg(Await(p))]
  }

  function GeneratedAnnotations(p: Profile, f: KsFunctionDeclaration): seq<AnnotationSpec> {
    if p.JsAsync? then [] else p.includeAnnotations(f)
  }

  function OverrideAnnotations(p: Profile): seq<AnnotationSpec> {
    if !p.JsAsync? && p.markJvmSynthetic then [JvmSynthetic] else []
  }

  /** The generated abstract function: suspend dropped, abstract added, the profile's return type and kdoc. */
  function GeneratedFun(p: Profile, f: KsFunctionDeclaration): FunSpec {
    FunSpec(
      f.simpleName + Suffix(p), KModifiers(f.modifiers) - {Suspend} + {Abstract},
      f.typeParameters, f.extensionReceiver, GeneratedReturnType(p, BridgeReturnType(p, f.returnType)),
      ParameterSpecs(f.parameters), GeneratedAnnotations(p, f), KdocOf(p, f.simpleName), [])
  }

  /** The override's one statement: a call of the generated function, awaited on the async profiles. */
  function Statement(p: Profile, f: KsFunctionDeclaration): CodeBlock {
    CodeBlock(
      CallFormat(p, BridgeReturnType(p, f.returnType).Some?, |f.typeParameters|, |f.parameters|),
      CallArgs(p, GeneratedFun(p, f), f.typeParameters, ParameterSpecs(f.parameters)))
  }

  /** The override of the original: abstract dropped, override added, its body the one statement. */
  function OverriddenFun(p: Profile, f: KsFunctionDeclaration): FunSpec {
    FunSpec(
      f.simpleName, KModifiers(f.modifiers) - {Abstract} + {Override},
      f.typeParameters, f.extensionReceiver, BridgeReturnType(p, f.returnType),
      ParameterSpecs(f.parameters), OverrideAnnotations(p), EmptyCode, [Statement(p, f)])
  }

  /** The pair one profile generates for one abstract suspend function. */
  function Reverse(p: Profile, f: KsFunctionDeclaration): GeneratedReversalFunctions {
    GeneratedReversalFunctions(GeneratedFun(p, f), OverriddenFun(p, f))
  }

  /** Each pair in turn, generated function first and override second. */
  function Flatten(pairs: seq<GeneratedReversalFunctions>): seq<FunSpec>
    decreases |pairs|
  {
    if pairs == [] then []
    else
      var last := pairs[|pairs| - 1];
      Flatten(pairs[..|pairs| - 1]) + [last.generated, last.overridden]
  }

  /** The functions the driver appends to a profile's companion type for the selected members `fs`. */
  function Output(p: Profile, fs: seq<KsFunctionDeclaration>): seq<FunSpec> {
    Flatten(seq(|fs|, i requires 0 <= i < |fs| => Reverse(p, fs[i])))
  }

  // ---------------------------------------------------------------------------
  // Rules of the generated pair

  /** The generated name is the original plus the profile's suffix; the override keeps the original name. */
  lemma Names(p: Profile, f: KsFunctionDeclaration)
    ensures var r := Reverse(p, f);
      && r.generated.name == f.simpleName + Suffix(p)
      && r.overridden.name == f.simpleName
      && r.generated.name != r.overridden.name
  {
    var r := Reverse(p, f);
    assert |r.generated.name| > |r.overridden.name|;
  }

  /**
   * The generated function is abstract and not suspend; the override is an
   * override and not abstract, and keeps `suspend` exactly when the original has it.
   * Every other modifier is carried over to both unchanged.
   */
  lemma ModifierRules(p: Profile, f: KsFunctionDeclaration)
    ensures var r := Reverse(p, f);
      && Suspend !in r.generated.modifiers
      && Abstract in r.generated.modifiers
      && Abstract !in r.overridden.modifiers
      && Override in r.overridden.modifiers
      && (Suspend in r.overridden.modifiers <==> Kotlin(Suspend) in f.modifiers)
      && (forall k :: k != Suspend && k != Abstract ==> (k in r.generated.modifiers <==> Kotlin(k) in f.modifiers))
      && (forall k :: k != Override && k != Abstract ==> (k in r.overridden.modifiers <==> Kotlin(k) in f.modifiers))
  {}

  /** A selected member keeps `suspend` on its override. */
  lemma OverrideStaysSuspend(p: Profile, f: KsFunctionDeclaration)
    requires IsAbstractSuspend(f)
    ensures Suspend in Reverse(p, f).overridden.modifiers
    ensures Suspend !in Reverse(p, f).generated.modifiers
  {
    ModifierRules(p, f);
  }

  /**
   * Both functions carry the original's type parameters, receiver and
   * parameter list, and the override's parameters read back as the original's
   * (name, type, vararg) exactly when every original parameter is named.
   */
  lemma SignatureCopied(p: Profile, f: KsFunctionDeclaration)
    ensures var r := Reverse(p, f);
      && r.generated.typeVariables == r.overridden.typeVariables == f.typeParameters
      && r.generated.receiver == r.overridden.receiver == f.extensionReceiver
      && r.generated.parameters == r.overridden.parameters
      && |r.overridden.parameters| == |f.parameters|
      && (forall i :: 0 <= i < |f.parameters| ==>
            && r.overridden.parameters[i].name == f.parameters[i].name.GetOr("")
            && r.overridden.parameters[i].ty == f.parameters[i].ty
            && (Vararg in r.overridden.parameters[i].modifiers <==> f.parameters[i].isVararg))
      && (DeclaredParameters(r.overridden.parameters) == f.parameters <==>
            forall i :: 0 <= i < |f.parameters| ==> f.parameters[i].name.Some?)
  {
    ParametersRoundTrip(f.parameters);
  }

  /**
   * Reading the converted parameters back gives the declared ones exactly
   * when all are named: a missing name comes back as the name `""`.
   */
  lemma ParametersRoundTrip(ps: seq<KsValueParameter>)
    ensures DeclaredParameters(ParameterSpecs(ps)) == ps <==> forall i :: 0 <= i < |ps| ==> ps[i].name.Some?
  {
    var back := DeclaredParameters(ParameterSpecs(ps));
    if forall i :: 0 <= i < |ps| ==> ps[i].name.Some? {
      forall i | 0 <= i < |ps|
        ensures back[i] == ps[i]
      {
        var s := ParameterSpecs(ps)[i];
        assert Vararg in s.modifiers <==> ps[i].isVararg;
      }
    } else {
      var i :| 0 <= i < |ps| && ps[i].name.None?;
      assert back[i].name == Some("");
    }
  }

  /**
   * Return types. Blocking: both functions return the declared type, `Unit`
   * included. Async: the override returns the declared type unless it is
   * `Unit` (then nothing), and the generated function returns a future or
   * promise whose payload is the override's return type, or the no-payload
   * type when the override returns nothing. Only the JVM future takes a
   * variance, `out`, and only for a real payload.
   */
  lemma ReturnTypeRules(p: Profile, f: KsFunctionDeclaration)
    ensures var r := Reverse(p, f);
      && (p.JvmBlocking? ==> r.generated.returnType == r.overridden.returnType == f.returnType)
      && (!p.JvmBlocking? ==> r.overridden.returnType == if f.returnType == Some(Unit) then None else f.returnType)
      && (p.JvmAsync? ==>
            r.generated.returnType ==
              Some(CompletableFuture(if r.overridden.returnType.Some? then Out else Invariant,
                                     r.overridden.returnType.GetOr(NoPayload(p)))))
      && (p.JsAsync? ==> r.generated.returnType == Some(Promise(r.overridden.returnType.GetOr(NoPayload(p)))))
  {}

  /** The placeholders of the statement start, with or without `return `. */
  lemma CallHead(hasReturn: bool)
    ensures var head := if hasReturn then "return %N" else "%N";
      && Closed(head) && Placeholders(head) == ['N']
      && Closed(head + "(") && Placeholders(head + "(") == ['N']
  {
    PlaceholderAtom('N');
    LiteralText("return ");
    LiteralText("(");
    PlaceholdersAppend("return ", "%N");
    assert "return %N" == "return " + "%N";
    var head := if hasReturn then "return %N" else "%N";
    PlaceholdersAppend(head, "(");
  }

  /** The optional `<%T, ...>` part of an async call. */
  lemma TypeArgumentList(k: nat)
    ensures var tv := if k == 0 then "" else "<" + Joined(k, "%T") + ">";
      Closed(tv) && Placeholders(tv) == Repeat('T', k)
  {
    JoinedPlaceholders(k, 'T');
    if k == 0 {
      LiteralText("");
    } else {
      LiteralText("<");
      LiteralText(">");
      PlaceholdersAppend("<", Joined(k, "%T"));
      PlaceholdersAppend("<" + Joined(k, "%T"), ">");
    }
  }

  /** The `).%M()` that closes an async call. */
  lemma AwaitTail()
    ensures Closed(").%M()") && Placeholders(").%M()") == ['M']
  {
    assert ").%M()" == ")." + "%M" + "()";
    LiteralText(").");
    LiteralText("()");
    PlaceholderAtom('M');
    PlaceholdersAppend(").", "%M");
    PlaceholdersAppend(")." + "%M", "()");
  }

  /** The blocking call: the function's `%N`, then a `%N` per parameter. */
  lemma BlockingCallPlaceholders(hasReturn: bool, n: nat)
    ensures Placeholders((if hasReturn then "return %N(" else "%N(") + Joined(n, "%N") + ")")
      == ['N'] + Repeat('N', n)
  {
    var open := if hasReturn then "return %N(" else "%N(";
    var params := Joined(n, "%N");
    CallHead(hasReturn);
    assert open == (if hasReturn then "return %N" else "%N") + "(";
    JoinedPlaceholders(n, 'N');
    LiteralText(")");
    PlaceholdersAppend(open, params);
    PlaceholdersAppend(open + params, ")");
  }

  /** The start of an async call: the function's `%N`, then a `%T` per type variable. */
  lemma WithTypesPlaceholders(hasReturn: bool, k: nat)
    ensures var head := if hasReturn then "return %N" else "%N";
      var withTypes := if k == 0 then head else head + "<" + Joined(k, "%T") + ">";
      Closed(withTypes) && Placeholders(withTypes) == ['N'] + Repeat('T', k)
  {
    var head := if hasReturn then "return %N" else "%N";
    var tv := if k == 0 then "" else "<" + Joined(k, "%T") + ">";
    CallHead(hasReturn);
    TypeArgumentList(k);
    PlaceholdersAppend(head, tv);
    if k == 0 {
      assert head + tv == head;
    } else {
      assert head + tv == head + "<" + Joined(k, "%T") + ">";
    }
  }

  /** The async call: the start, a `%N` per parameter, and the await `%M`. */
  lemma AsyncCallPlaceholders(withTypes: string, k: nat, n: nat)
    requires Closed(withTypes) && Placeholders(withTypes) == ['N'] + Repeat('T', k)
    ensures Placeholders(withTypes + "(" + Joined(n, "%N") + ").%M()")
      == ['N'] + Repeat('T', k) + Repeat('N', n) + ['M']
  {
    var params := Joined(n, "%N");
    JoinedPlaceholders(n, 'N');
    AwaitTail();
    LiteralText("(");
    PlaceholdersAppend(withTypes, "(");
    PlaceholdersAppend(withTypes + "(", params);
    PlaceholdersAppend(withTypes + "(" + params, ").%M()");
  }

  /**
   * The placeholders of a call format: the function's `%N`, a `%T` per type
   * variable (async only), a `%N` per parameter, and the await `%M` (async only).
   */
  lemma CallFormatPlaceholders(p: Profile, hasReturn: bool, k: nat, n: nat)
    ensures Placeholders(CallFormat(p, hasReturn, k, n)) ==
      if p.JvmBlocking? then ['N'] + Repeat('N', n)
      else ['N'] + Repeat('T', k) + Repeat('N', n) + ['M']
  {
    if p.JvmBlocking? {
      BlockingCallPlaceholders(hasReturn, n);
    } else {
      var head := if hasReturn then "return %N" else "%N";
      var withTypes := if k == 0 then head else head + "<" + Joined(k, "%T") + ">";
      WithTypesPlaceholders(hasReturn, k);
      AsyncCallPlaceholders(withTypes, k, n);
    }
  }

  /** A call format starts with `return ` exactly when the override returns something. */
  lemma CallFormatStart(p: Profile, hasReturn: bool, k: nat, n: nat)
    ensures "return " <= CallFormat(p, hasReturn, k, n) <==> hasReturn
  {
    var s := CallFormat(p, hasReturn, k, n);
    if hasReturn {
      assert s[..7] == "return ";
    } else {
      assert s[0] == '%';
    }
  }

  lemma ParamArgsMatch(ps: seq<ParameterSpec>)
    ensures Matches(Repeat('N', |ps|), ParamArgs(ps))
  {}

  lemma TypeArgsMatch(tvs: seq<TypeVariableName>)
    ensures Matches(Repeat('T', |tvs|), TypeArgs(tvs))
  {}

  /** The blocking call's arguments: the generated function, then the parameters. */
  lemma BlockingArgsMatch(generated: FunSpec, ps: seq<ParameterSpec>)
    ensures Matches(['N'] + Repeat('N', |ps|), [FunArg(generated)] + ParamArgs(ps))
  {
    ParamArgsMatch(ps);
    assert Matches(['N'], [FunArg(generated)]);
    MatchesAppend(['N'], [FunArg(generated)], Repeat('N', |ps|), ParamArgs(ps));
  }

  /** The async call's arguments: the generated function, the type variables, the parameters, the await. */
  lemma AsyncArgsMatch(generated: FunSpec, tvs: seq<TypeVariableName>, ps: seq<ParameterSpec>, await: MemberName)
    ensures Matches(['N'] + Repeat('T', |tvs|) + Repeat('N', |ps|) + ['M'],
                    [FunArg(generated)] + TypeArgs(tvs) + ParamArgs(ps) + [MemberArg(await)])
  {
    var head: seq<FormatArg> := [FunArg(generated)];
    assert Matches(['N'], head);
    assert Matches(['M'], [MemberArg(await)]);
    TypeArgsMatch(tvs);
    ParamArgsMatch(ps);
    MatchesAppend(['N'], head, Repeat('T', |tvs|), TypeArgs(tvs));
    MatchesAppend(['N'] + Repeat('T', |tvs|), head + TypeArgs(tvs), Repeat('N', |ps|), ParamArgs(ps));
    MatchesAppend(['N'] + Repeat('T', |tvs|) + Repeat('N', |ps|), head + TypeArgs(tvs) + ParamArgs(ps),
                  ['M'], [MemberArg(await)]);
  }

  /** The call's arguments fit its placeholders. */
  lemma CallArgsMatch(p: Profile, generated: FunSpec, tvs: seq<TypeVariableName>, ps: seq<ParameterSpec>, hasReturn: bool)
    ensures WellFormed(CodeBlock(CallFormat(p, hasReturn, |tvs|, |ps|), CallArgs(p, generated, tvs, ps)))
  {
    CallFormatPlaceholders(p, hasReturn, |tvs|, |ps|);
    if p.JvmBlocking? {
      BlockingArgsMatch(generated, ps);
    } else {
      AsyncArgsMatch(generated, tvs, ps, Await(p));
    }
  }

  /**
   * The override's statement is well formed: every placeholder has exactly
   * one argument of a kind it accepts (so their counts agree); its first
   * argument is the generated function, then come the type variables (async
   * only), the parameters in order, and the await extension (async only); and
   * it starts with `return ` exactly when the override declares a return type.
   */
  lemma StatementWellFormed(p: Profile, f: KsFunctionDeclaration)
    ensures var r := Reverse(p, f);
      && r.generated.body == []
      && |r.overridden.body| == 1
      && WellFormed(r.overridden.body[0])
      && r.overridden.body[0].args ==
           (if p.JvmBlocking? then [FunArg(r.generated)] + ParamArgs(r.overridden.parameters)
            else [FunArg(r.generated)] + TypeArgs(r.overridden.typeVariables)
                 + ParamArgs(r.overridden.parameters) + [MemberArg(Await(p))])
      && ("return " <= r.overridden.body[0].format <==> r.overridden.returnType.Some?)
  {
    var r := Reverse(p, f);
    var hasReturn := r.overridden.returnType.Some?;
    CallArgsMatch(p, r.generated, f.typeParameters, ParameterSpecs(f.parameters), hasReturn);
    CallFormatStart(p, hasReturn, |f.typeParameters|, |f.parameters|);
  }

  /** Placeholders of a text holding `%N` once, after literal text. */
  lemma NamedOnce(head: string, tail: string)
    requires '%' !in head
    requires '%' !in tail
    ensures Placeholders(head + "%N" + tail) == ['N']
  {
    LiteralText(head);
    LiteralText(tail);
    PlaceholderAtom('N');
    PlaceholdersAppend(head, "%N");
    PlaceholdersAppend(head + "%N", tail);
  }

  /** Placeholders of a text holding `%N` twice, each after literal text. */
  lemma NamedTwice(head: string, mid: string)
    requires '%' !in head
    requires '%' !in mid
    ensures Placeholders(head + "%N" + mid + "%N") == ['N', 'N']
  {
    LiteralText(head);
    LiteralText(mid);
    PlaceholderAtom('N');
    PlaceholdersAppend(head, "%N");
    PlaceholdersAppend(head + "%N", mid);
    PlaceholdersAppend(head + "%N" + mid, "%N");
  }

  lemma BlockingKdocPlaceholders()
    ensures Placeholders(BlockingKdoc) == ['N', 'N']
  {
    assert BlockingKdoc
        == "Blocking reversal function for [" + "%N" + "]\n\n @see " + "%N";
    NamedTwice("Blocking reversal function for [", "]\n\n @see ");
  }

  lemma FutureKdocPlaceholders()
    ensures Placeholders(FutureKdoc) == ['N', 'N']
  {
    assert FutureKdoc
        == "Async reversal function for [" + "%N" + "]\n\n @see " + "%N";
    NamedTwice("Async reversal function for [", "]\n\n @see ");
  }

  lemma PromiseKdocPlaceholders()
    ensures Placeholders(PromiseKdoc) == ['N']
  {
    assert PromiseKdoc == "Async reversal function for [" + "%N" + "]";
    NamedOnce("Async reversal function for [", "]");
  }

  /** A kdoc names the function: twice (a link and a `@see`) on the JVM, once on JS. */
  lemma KdocWellFormed(p: Profile, name: string)
    ensures WellFormed(KdocOf(p, name))
    ensures |KdocOf(p, name).args| == (if p.JsAsync? then 1 else 2)
    ensures forall a :: a in KdocOf(p, name).args ==> a == NameArg(name)
  {
    match p
    case JvmBlocking(_, _) => BlockingKdocPlaceholders();
    case JvmAsync(_, _) => FutureKdocPlaceholders();
    case JsAsync => PromiseKdocPlaceholders();
  }

  /** The generated function's kdoc names the original; the override carries no kdoc. */
  lemma KdocNamesOriginal(p: Profile, f: KsFunctionDeclaration)
    ensures var r := Reverse(p, f);
      && WellFormed(r.generated.kdoc)
      && |r.generated.kdoc.args| == (if p.JsAsync? then 1 else 2)
      && (forall a :: a in r.generated.kdoc.args ==> a == NameArg(f.simpleName))
      && r.overridden.kdoc == EmptyCode
  {
    KdocWellFormed(p, f.simpleName);
  }

  /**
   * `JvmSynthetic` goes on the override exactly when a JVM profile is told to
   * mark it, and the override carries no other annotation. The generated
   * function carries the selected annotations on the JVM and none on JS.
   */
  lemma AnnotationRules(p: Profile, f: KsFunctionDeclaration)
    ensures var r := Reverse(p, f);
      && (JvmSynthetic in r.overridden.annotations <==> !p.JsAsync? && p.markJvmSynthetic)
      && (forall a :: a in r.overridden.annotations ==> a == JvmSynthetic)
      && (p.JsAsync? ==> r.generated.annotations == [])
      && (!p.JsAsync? ==> r.generated.annotations == p.includeAnnotations(f))
  {}

  // ---------------------------------------------------------------------------
  // Rules of a companion type's contents

  lemma {:induction false} FlattenAt(pairs: seq<GeneratedReversalFunctions>)
    ensures |Flatten(pairs)| == 2 * |pairs|
    ensures forall i :: 0 <= i < |pairs| ==>
      Flatten(pairs)[2 * i] == pairs[i].generated && Flatten(pairs)[2 * i + 1] == pairs[i].overridden
    decreases |pairs|
  {
    if pairs != [] {
      var init := pairs[..|pairs| - 1];
      FlattenAt(init);
      forall i | 0 <= i < |pairs|
        ensures Flatten(pairs)[2 * i] == pairs[i].generated
        ensures Flatten(pairs)[2 * i + 1] == pairs[i].overridden
      {
        if i < |init| {
          assert pairs[i] == init[i];
        }
      }
    }
  }

  /** Every member appends exactly two functions, generated first, override second, in member order. */
  lemma OutputAt(p: Profile, fs: seq<KsFunctionDeclaration>)
    ensures |Output(p, fs)| == 2 * |fs|
    ensures forall i :: 0 <= i < |fs| ==>
      Output(p, fs)[2 * i] == Reverse(p, fs[i]).generated && Output(p, fs)[2 * i + 1] == Reverse(p, fs[i]).overridden
  {
    FlattenAt(seq(|fs|, i requires 0 <= i < |fs| => Reverse(p, fs[i])));
  }

  lemma {:induction false} FlattenAppend(a: seq<GeneratedReversalFunctions>, b: seq<GeneratedReversalFunctions>)
    ensures Flatten(a + b) == Flatten(a) + Flatten(b)
    decreases |b|
  {
    if b == [] {
      assert a + b == a;
    } else {
      var init := b[..|b| - 1];
      assert (a + b)[..|a + b| - 1] == a + init;
      assert (a + b)[|a + b| - 1] == b[|b| - 1];
      FlattenAppend(a, init);
    }
  }

  /** Processing members in two runs appends the second run's functions after the first's. */
  lemma OutputAppend(p: Profile, fs: seq<KsFunctionDeclaration>, gs: seq<KsFunctionDeclaration>)
    ensures Output(p, fs + gs) == Output(p, fs) + Output(p, gs)
  {
    var pa := seq(|fs|, i requires 0 <= i < |fs| => Reverse(p, fs[i]));
    var pb := seq(|gs|, i requires 0 <= i < |gs| => Reverse(p, gs[i]));
    var pab := seq(|fs + gs|, i requires 0 <= i < |fs + gs| => Reverse(p, (fs + gs)[i]));
    forall i | 0 <= i < |pab|
      ensures pab[i] == (pa + pb)[i]
    {
      if i < |fs| {
        assert (fs + gs)[i] == fs[i];
      } else {
        assert (fs + gs)[i] == gs[i - |fs|];
      }
    }
    assert pab == pa + pb;
    FlattenAppend(pa, pb);
  }

  /** Processing one more member appends its generated function and then its override. */
  lemma OutputSnoc(p: Profile, fs: seq<KsFunctionDeclaration>, f: KsFunctionDeclaration)
    ensures Output(p, fs + [f]) == Output(p, fs) + [Reverse(p, f).generated, Reverse(p, f).overridden]
  {
    OutputAppend(p, fs, [f]);
    var single := seq(1, i requires 0 <= i < 1 => Reverse(p, [f][i]));
    assert single == [Reverse(p, f)];
    assert single[..0] == [];
    assert Output(p, [f]) == Flatten(single) == [Reverse(p, f).generated, Reverse(p, f).overridden];
  }

  /** One step of the driver's loop: a builder holding the first `i` members' functions receives member `i`'s pair. */
  lemma OutputStep(p: Profile, start: seq<FunSpec>, before: seq<FunSpec>, after: seq<FunSpec>,
                   functions: seq<KsFunctionDeclaration>, i: nat)
    requires i < |functions|
    requires before == start + Output(p, functions[..i])
    requires after == before + [Reverse(p, functions[i]).generated, Reverse(p, functions[i]).overridden]
    ensures after == start + Output(p, functions[..i + 1])
  {
    assert functions[..i + 1] == functions[..i] + [functions[i]];
    OutputSnoc(p, functions[..i], functions[i]);
  }
}
