/**
 * The values of KotlinPoet that the processor builds its output from:
 * modifiers, type names, parameter and function specifications, code blocks
 * (a format string with its ordered arguments) and the two mutable builders
 * it appends to (a type being assembled and the file that collects types).
 * How KotlinPoet renders these values to source text is not modelled.
 */
module Poet {

  datatype Option<+T> = None | Some(value: T) {
    function GetOr(default: T): T {
      match this
      case Some(v) => v
      case None => default
    }
  }

  /** KotlinPoet's KModifier, restricted to those a function or a parameter can carry. */
  datatype KModifier =
    | Public | Protected | Internal | Private
    | Expect | Actual | External
    | Final | Open | Abstract | Override
    | Suspend | Inline | Infix | Operator | Tailrec
    | Vararg

  /** Use-site variance of a type argument: `T` or `out T`. */
  datatype Variance = Invariant | Out

  /**
   * A resolved type name. `Unit` is the only representation of `kotlin.Unit`;
   * `NullableUnit` is `Unit?` and `NullableVoid` is `java.lang.Void?`.
   */
  datatype Ty =
    | Unit
    | NullableUnit
    | NullableVoid
    | Named(qualifiedName: string, typeArguments: seq<Ty>)
    | TypeVariable(name: string)
    | CompletableFuture(variance: Variance, payload: Ty)
    | Promise(payload: Ty)

  /** A type parameter of a function, `<Q : T>`: its name and its upper bounds. */
  datatype TypeVariableName = TypeVariableName(name: string, bounds: seq<Ty>)

  datatype ParameterSpec = ParameterSpec(name: string, ty: Ty, modifiers: set<KModifier>)

  datatype AnnotationSpec = AnnotationSpec(className: string)

  /** A top-level member referenced from generated code, such as an extension function. */
  datatype MemberName = MemberName(packageName: string, simpleName: string)

  /** An argument of a format string; the placeholder that consumes it decides how it is rendered. */
  datatype FormatArg =
    | FunArg(funSpec: FunSpec)
    | ParamArg(parameter: ParameterSpec)
    | TypeArg(typeVariable: TypeVariableName)
    | MemberArg(member: MemberName)
    | NameArg(name: string)

  /** A format string and the arguments its placeholders consume, in order. */
  datatype CodeBlock = CodeBlock(format: string, args: seq<FormatArg>)

  /**
   * A function specification. `returnType` is `None` when `returns(...)` was
   * never called; `body` holds the statements added with `addStatement`.
   */
  datatype FunSpec = FunSpec(
    name: string,
    modifiers: set<KModifier>,
    typeVariables: seq<TypeVariableName>,
    receiver: Option<Ty>,
    returnType: Option<Ty>,
    parameters: seq<ParameterSpec>,
    annotations: seq<AnnotationSpec>,
    kdoc: CodeBlock,
    body: seq<CodeBlock>)

  datatype TypeSpec = TypeSpec(name: string, funSpecs: seq<FunSpec>)

  const EmptyCode := CodeBlock("", [])

  // ---------------------------------------------------------------------------
  // Format strings

  /**
   * The placeholders of a format string that consume an argument, in order:
   * the letter after each `%`. `%%` stands for a literal percent sign and
   * consumes nothing.
   */
  function Placeholders(format: string): seq<char>
    decreases |format|
  {
    if |format| < 2 then []
    else if format[0] == '%' then
      (if format[1] == '%' then [] else [format[1]]) + Placeholders(format[2..])
    else Placeholders(format[1..])
  }

  /** No `%` is left dangling at the end of the string, so text appended to it is scanned on its own. */
  predicate Closed(format: string)
    decreases |format|
  {
    if |format| == 0 then true
    else if format[0] == '%' then |format| >= 2 && Closed(format[2..])
    else Closed(format[1..])
  }

  /** Which arguments KotlinPoet accepts for a placeholder: `%N` a name, `%T` a type, `%M` a member. */
  predicate Accepts(placeholder: char, arg: FormatArg) {
    match placeholder
    case 'N' => arg.FunArg? || arg.ParamArg? || arg.MemberArg? || arg.NameArg?
    case 'T' => arg.TypeArg?
    case 'M' => arg.MemberArg?
    case _ => false
  }

  /** Every placeholder has exactly one argument, of a kind it accepts. */
  predicate Matches(placeholders: seq<char>, args: seq<FormatArg>) {
    |placeholders| == |args| && forall i :: 0 <= i < |args| ==> Accepts(placeholders[i], args[i])
  }

  predicate WellFormed(code: CodeBlock) {
    Matches(Placeholders(code.format), code.args)
  }

  function Repeat(c: char, n: nat): (s: seq<char>)
    ensures |s| == n && forall i :: 0 <= i < n ==> s[i] == c
  {
    seq(n, _ => c)
  }

  lemma {:induction false} PlaceholdersAppend(a: string, b: string)
    requires Closed(a)
    ensures Placeholders(a + b) == Placeholders(a) + Placeholders(b)
    ensures Closed(b) ==> Closed(a + b)
    decreases |a|
  {
    if |a| == 0 {
      assert a + b == b;
    } else if a[0] == '%' {
      assert (a + b)[0] == '%' && (a + b)[1] == a[1];
      assert (a + b)[2..] == a[2..] + b;
      PlaceholdersAppend(a[2..], b);
    } else {
      assert (a + b)[0] == a[0];
      assert (a + b)[1..] == a[1..] + b;
      PlaceholdersAppend(a[1..], b);
      if |a + b| < 2 {
        assert |a| == 1 && |b| == 0;
      }
    }
  }

  /** Text without `%` holds no placeholder. */
  lemma {:induction false} LiteralText(s: string)
    requires '%' !in s
    ensures Closed(s) && Placeholders(s) == []
    decreases |s|
  {
    if |s| > 0 {
      assert s[0] in s;
      assert forall c :: c in s[1..] ==> c in s;
      LiteralText(s[1..]);
    }
  }

  lemma PlaceholderAtom(c: char)
    requires c != '%'
    ensures Closed(['%', c]) && Placeholders(['%', c]) == [c]
  {
    assert ['%', c][2..] == [];
  }

  lemma MatchesAppend(p1: seq<char>, a1: seq<FormatArg>, p2: seq<char>, a2: seq<FormatArg>)
    requires Matches(p1, a1) && Matches(p2, a2)
    ensures Matches(p1 + p2, a1 + a2)
  {}

  // ---------------------------------------------------------------------------
  // Builders, updated in place by the processor

  /** `TypeSpec.Builder`: the companion type being assembled. */
  class TypeSpecBuilder {
    const name: string
    var funSpecs: seq<FunSpec>

    constructor (name: string)
      ensures this.name == name && funSpecs == []
    {
      this.name := name;
      funSpecs := [];
    }

    method AddFunction(funSpec: FunSpec)
      modifies this
      ensures funSpecs == old(funSpecs) + [funSpec]
    {
      funSpecs := funSpecs + [funSpec];
    }

    function Build(): TypeSpec
      reads this
    {
      TypeSpec(name, funSpecs)
    }
  }

  /** `FileSpec.Builder`: the generated file, collecting the types added to it. */
  class FileSpecBuilder {
    var types: seq<TypeSpec>

    constructor ()
      ensures types == []
    {
      types := [];
    }

    method AddType(typeSpec: TypeSpec)
      modifies this
      ensures types == old(types) + [typeSpec]
    {
      types := types + [typeSpec];
    }
  }
}
