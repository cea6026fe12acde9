/**
 * The `SuspendReversal` annotation: which profiles a type gets companions
 * for, how those companion types are named, and whether overrides are hidden
 * from Java; and the per-function naming records `JBlocking`, `JAsync` and
 * `JsAsync`, whose rule is `baseName + suffix` with an empty `baseName`
 * standing for the current function's name. Annotation parameters with
 * defaults become a record and a function returning the default record.
 */
module Config {
  import opened Ksp
  import opened Reversal

  datatype SuspendReversal = SuspendReversal(
    jBlocking: bool,
    jBlockingClassNamePrefix: string,
    jBlockingClassNameSuffix: string,
    jAsync: bool,
    jAsyncClassNamePrefix: string,
    jAsyncClassNameSuffix: string,
    jsAsync: bool,
    jsAsyncClassNamePrefix: string,
    jsAsyncClassNameSuffix: string,
    markJvmSynthetic: bool)

  /** `@SuspendReversal` with no arguments. */
  function DefaultSuspendReversal(): (c: SuspendReversal)
    ensures c.jBlocking && c.jAsync && c.jsAsync
    ensures c.jBlockingClassNamePrefix == "JBlocking" && c.jBlockingClassNameSuffix == ""
    ensures c.jAsyncClassNamePrefix == "JAsync" && c.jAsyncClassNameSuffix == ""
    ensures c.jsAsyncClassNamePrefix == "JsAsync" && c.jsAsyncClassNameSuffix == ""
    ensures c.markJvmSynthetic
  {
    SuspendReversal(
      jBlocking := true, jBlockingClassNamePrefix := "JBlocking", jBlockingClassNameSuffix := "",
      jAsync := true, jAsyncClassNamePrefix := "JAsync", jAsyncClassNameSuffix := "",
      jsAsync := true, jsAsyncClassNamePrefix := "JsAsync", jsAsyncClassNameSuffix := "",
      markJvmSynthetic := true)
  }

  /** The three default class-name prefixes differ. */
  lemma DefaultPrefixesDistinct()
    ensures var c := DefaultSuspendReversal();
      && c.jBlockingClassNamePrefix != c.jAsyncClassNamePrefix
      && c.jBlockingClassNamePrefix != c.jsAsyncClassNamePrefix
      && c.jAsyncClassNamePrefix != c.jsAsyncClassNamePrefix
  {
    var c := DefaultSuspendReversal();
    assert c.jBlockingClassNamePrefix[1] != c.jAsyncClassNamePrefix[1];
    assert c.jBlockingClassNamePrefix[1] != c.jsAsyncClassNamePrefix[1];
    assert |c.jAsyncClassNamePrefix| != |c.jsAsyncClassNamePrefix|;
  }

  /** A per-function naming record: `JBlocking`, `JAsync` or `JsAsync`. */
  datatype FunctionNaming = FunctionNaming(baseName: string, suffix: string, asProperty: bool)

  /** The naming record with all its defaults, for the profile it belongs to. */
  function DefaultNaming(p: Profile): (n: FunctionNaming)
    ensures n.baseName == "" && !n.asProperty
    ensures n.suffix == if p.JvmBlocking? then "Blocking" else "Async"
  {
    match p
    case JvmBlocking(_, _) => FunctionNaming(baseName := "", suffix := "Blocking", asProperty := false)
    case JvmAsync(_, _) => FunctionNaming(baseName := "", suffix := "Async", asProperty := false)
    case JsAsync => FunctionNaming(baseName := "", suffix := "Async", asProperty := false)
  }

  /** The generated function's name under a naming record: the base name, or the current name when it is empty, then the suffix. */
  function GeneratedName(n: FunctionNaming, currentName: string): (name: string)
    ensures n.baseName != "" ==> name == n.baseName + n.suffix
    ensures n.baseName == "" ==> name == currentName + n.suffix
    ensures |name| >= |n.suffix| && name[|name| - |n.suffix|..] == n.suffix
  {
    (if n.baseName == "" then currentName else n.baseName) + n.suffix
  }

  /**
   * The processor ignores the naming records and hard-codes the suffixes; the
   * default record names every generated function exactly as the processor does.
   */
  lemma DefaultNamingAgrees(p: Profile, f: KsFunctionDeclaration)
    ensures GeneratedName(DefaultNaming(p), f.simpleName) == Reverse(p, f).generated.name
  {
    Names(p, f);
  }
}
