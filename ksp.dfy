/**
 * The KSP declarations the processor reads: an annotated class with its
 * members, and the function members with their modifiers, type parameters,
 * receiver, return type and parameters. Types arrive already resolved to
 * KotlinPoet type names (KSP's type resolution is not modelled).
 */
module Ksp {
  import opened Poet

  /** KSP's Modifier: the Kotlin modifiers, and Java-only ones with no KotlinPoet counterpart. */
  datatype Modifier = Kotlin(kotlin: KModifier) | JavaOnly(name: string)

  /** `toKModifier`: the KotlinPoet modifier, or none for a Java-only modifier. */
  function ToKModifier(m: Modifier): Option<KModifier> {
    match m
    case Kotlin(k) => Some(k)
    case JavaOnly(_) => None
  }

  /** `modifiers.mapNotNull { it.toKModifier() }`, as the set `toMutableSet()` makes of it. */
  function KModifiers(modifiers: set<Modifier>): (r: set<KModifier>)
    ensures forall k :: k in r <==> Kotlin(k) in modifiers
  {
    set m | m in modifiers && ToKModifier(m).Some? :: ToKModifier(m).value
  }

  datatype KsValueParameter = KsValueParameter(name: Option<string>, ty: Ty, isVararg: bool)

  /**
   * A function member. `isAbstract` is KSP's own judgement (an interface
   * function without a body is abstract without carrying `abstract`).
   */
  datatype KsFunctionDeclaration = KsFunctionDeclaration(
    simpleName: string,
    modifiers: set<Modifier>,
    isAbstract: bool,
    typeParameters: seq<TypeVariableName>,
    extensionReceiver: Option<Ty>,
    returnType: Option<Ty>,
    parameters: seq<KsValueParameter>)

  /** A member of a class: a function, or something else (a property, a nested class). */
  datatype KsDeclaration =
    | FunctionMember(decl: KsFunctionDeclaration)
    | PropertyMember(name: string)
    | ClassMember(name: string)

  datatype KsClassDeclaration = KsClassDeclaration(simpleName: string, declarations: seq<KsDeclaration>)

  /** The processor's member test: abstract and carrying `suspend`. */
  predicate IsAbstractSuspend(f: KsFunctionDeclaration) {
    f.isAbstract && Kotlin(Suspend) in f.modifiers
  }

  /**
   * `declarations.filterIsInstance<KSFunctionDeclaration>().filter { isAbstract && SUSPEND in modifiers }`:
   * the abstract suspend functions, in declaration order.
   */
  function AbstractSuspendFunctions(declarations: seq<KsDeclaration>): (fs: seq<KsFunctionDeclaration>)
    ensures |fs| <= |declarations|
    ensures forall f :: f in fs ==> IsAbstractSuspend(f)
    ensures forall f :: f in fs <==> FunctionMember(f) in declarations && IsAbstractSuspend(f)
  {
    if declarations == [] then []
    else
      var rest := AbstractSuspendFunctions(declarations[1..]);
      match declarations[0]
      case FunctionMember(f) => if IsAbstractSuspend(f) then [f] + rest else rest
      case _ => rest
  }

  /** Filtering keeps declaration order: the selection of a concatenation is the concatenation of the selections. */
  lemma {:induction false} AbstractSuspendFunctionsAppend(a: seq<KsDeclaration>, b: seq<KsDeclaration>)
    ensures AbstractSuspendFunctions(a + b) == AbstractSuspendFunctions(a) + AbstractSuspendFunctions(b)
  {
    if a == [] {
      assert a + b == b;
    } else {
      assert (a + b)[0] == a[0];
      assert (a + b)[1..] == a[1..] + b;
      AbstractSuspendFunctionsAppend(a[1..], b);
    }
  }
}
