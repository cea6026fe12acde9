# Suspend interface reversal, modelled in Dafny

A KSP symbol processor reads Kotlin types annotated with `@SuspendReversal`.
For each such type it generates companion abstract types, one per execution
profile. Java and JavaScript callers can implement these companions without
writing `suspend` code. For every abstract `suspend fun foo` of the annotated type:

- the **blocking** companion (`JBlocking…`) declares `abstract fun fooBlocking` with the same
  signature. It overrides `foo` with `return fooBlocking(…)`, and that override is `@JvmSynthetic` by default.
- the **future** companion (`JAsync…`) declares `abstract fun fooAsync` returning
  `CompletableFuture<out T>`, or `CompletableFuture<Void?>` for `Unit`. It overrides
  `foo` with `fooAsync<…>(…).await()`.
- the **promise** companion (`JsAsync…`) declares `abstract fun fooAsync` returning `Promise<T>`,
  or `Promise<Unit?>`. It overrides `foo` in the same way, using the coroutines `await` for promises.

The model has these modules:

- `Poet` is the slice of KotlinPoet that the processor builds: type names, parameter and function
  specs, code blocks with `%N`/`%T`/`%M` placeholders, and the `TypeSpec` and `FileSpec`
  builders as classes updated in place.
- `Ksp` holds the KSP declarations the processor reads, plus its member filter.
- `Join` models Kotlin's `joinTo`, as the processor uses it to build call strings.
- `Reversal` states once what the processor generates for every profile:
  - `Reverse(p, f)` is the generated pair for one member;
  - `Output(p, fs)` is what the driver appends to a companion type;
  - lemmas state the rules the generated code obeys: names, modifiers, signature, return types, kdoc, annotations, and a well-formed override statement.
- `ProcessJvm` and `ProcessJs` model the processor's two files as methods.
  - Each pair generator builds its pieces step by step, as the source does, and is proved equal to `Reverse`.
  - The two drivers loop over the members and append to the builders. They are proved to leave each builder holding its old contents followed by `Output`.
- `Config` holds the `SuspendReversal` annotation's defaults and the per-function naming records.
- `Samples` holds the sample type `Foo`, the functions `Bar.get` and `S1.run`, and what is generated for them.

Behaviour of the processor worth knowing:

- The generated names use the suffixes `Blocking` and `Async`, which are hard-coded. The per-function naming records
  (`JBlocking`, `JAsync`, `JsAsync`) are declared but never read. `Config.DefaultNamingAgrees` shows
  that their defaults name every function the same way the code does.
- The generated function is always `abstract`, and otherwise takes the original's modifiers minus `suspend`.
- The blocking profile keeps a `Unit` return type, so its override reads `return fooBlocking()`. Only the
  two async profiles drop `Unit`.
- The overrides are members of the companion type; the annotated type itself is left unchanged.
- A parameter with no name becomes a parameter named `""`. So the override's parameters read back as the
  original's exactly when every parameter is named (`Reversal.SignatureCopied`).
- A vararg parameter is passed on in the override's call as a plain `%N`, without the spread operator `*`.
- Generated names are not checked against the type's other members: a type whose abstract suspend
  functions include `run` and `runBlocking` gets two functions named `runBlocking` in its blocking
  companion (`Samples.NameClash`).
- The processor code raises no errors of its own.

## Model

| member | source | states |
|---|---|---|
| Ksp.KModifiers | processor/src/main/kotlin/love/forte/suspendreversal/processor/ProcessJvm.kt:79 | a KotlinPoet modifier is in the result exactly when the declaration carries it; Java-only modifiers are dropped |
| Ksp.AbstractSuspendFunctions | processor/src/main/kotlin/love/forte/suspendreversal/processor/ProcessJvm.kt:41-43 | the selection holds exactly the function members that are abstract and `suspend` (both directions), and no more than there are declarations |
| Ksp.AbstractSuspendFunctionsAppend | processor/src/main/kotlin/love/forte/suspendreversal/processor/ProcessJs.kt:32-34 | filtering keeps declaration order: selecting from a concatenation concatenates the selections |
| Join.JoinTo | processor/src/main/kotlin/love/forte/suspendreversal/processor/ProcessJvm.kt:149 | the buffer receives the prefix, one item per element separated by `", "`, and the postfix |
| Join.JoinedPlaceholders | processor/src/main/kotlin/love/forte/suspendreversal/processor/ProcessJvm.kt:244-248 | joining `n` copies of `%T` or `%N` yields exactly `n` placeholders of that kind and leaves no `%` dangling |
| Reversal.ParameterSpecs | processor/src/main/kotlin/love/forte/suspendreversal/processor/ProcessJvm.kt:84-94 | one spec per parameter, in order: the name (or `""` when missing), the type, and `vararg` exactly when the parameter is a vararg |
| Reversal.ParametersRoundTrip | processor/src/main/kotlin/love/forte/suspendreversal/processor/ProcessJvm.kt:84-94 | reading the specs back gives the declared parameters exactly when every parameter is named |
| Reversal.Names | processor/src/main/kotlin/love/forte/suspendreversal/processor/ProcessJvm.kt:96-97 | the generated function is the original name plus `Blocking`/`Async`; the override keeps the original name; the two differ |
| Reversal.ModifierRules | processor/src/main/kotlin/love/forte/suspendreversal/processor/ProcessJvm.kt:101-103 | generated: `suspend` removed, `abstract` added; override: `abstract` removed, `override` added; every other modifier is carried over unchanged to both |
| Reversal.OverrideStaysSuspend | processor/src/main/kotlin/love/forte/suspendreversal/processor/ProcessJvm.kt:121-123 | for a selected member the override stays `suspend` and the generated function is not `suspend` |
| Reversal.SignatureCopied | processor/src/main/kotlin/love/forte/suspendreversal/processor/ProcessJvm.kt:106-132 | both functions carry the original's type variables, receiver and the same parameter list (name, type, vararg per position), which reads back as the original's exactly when all are named |
| Reversal.ReturnTypeRules | processor/src/main/kotlin/love/forte/suspendreversal/processor/ProcessJvm.kt:196-200 | blocking keeps the declared type on both; async drops `Unit` from the override and wraps the override's type in `CompletableFuture<out T>` / `Promise<T>`, or the no-payload `Void?` / `Unit?` |
| Reversal.CallFormatPlaceholders | processor/src/main/kotlin/love/forte/suspendreversal/processor/ProcessJvm.kt:239-249 | the call string holds `%N` for the function, `%T` per type variable (async), `%N` per parameter and `%M` for await (async), in that order |
| Reversal.CallFormatStart | processor/src/main/kotlin/love/forte/suspendreversal/processor/ProcessJvm.kt:145-147 | the call string starts with `return ` exactly when there is a return type |
| Reversal.CallArgsMatch | processor/src/main/kotlin/love/forte/suspendreversal/processor/ProcessJvm.kt:230-250 | the format arguments fit the call string's placeholders one for one, each of a kind its placeholder accepts |
| Reversal.StatementWellFormed | processor/src/main/kotlin/love/forte/suspendreversal/processor/ProcessJs.kt:116-137 | the generated function has no body; the override has one well-formed statement whose arguments are the generated function, the type variables (async), the parameters and the await member (async), and which returns exactly when the override has a return type |
| Reversal.KdocWellFormed | processor/src/main/kotlin/love/forte/suspendreversal/processor/ProcessJs.kt:77 | each kdoc's `%N` placeholders are filled by the name: twice on the JVM (link and `@see`), once on JS |
| Reversal.KdocNamesOriginal | processor/src/main/kotlin/love/forte/suspendreversal/processor/ProcessJvm.kt:99 | the generated function's kdoc is well formed and names only the original; the override carries no kdoc |
| Reversal.AnnotationRules | processor/src/main/kotlin/love/forte/suspendreversal/processor/ProcessJvm.kt:134-137 | `@JvmSynthetic` is on the override exactly when a JVM profile has `markJvmSynthetic`, and nothing else is; the generated function gets the selected annotations on the JVM and none on JS |
| Reversal.OutputAt | processor/src/main/kotlin/love/forte/suspendreversal/processor/ProcessJvm.kt:44-64 | a companion receives two functions per member, the generated one at `2i` and the override at `2i+1`, in member order |
| Reversal.OutputAppend | processor/src/main/kotlin/love/forte/suspendreversal/processor/ProcessJvm.kt:44-64 | processing members in two runs gives the first run's functions followed by the second's |
| Reversal.OutputSnoc | processor/src/main/kotlin/love/forte/suspendreversal/processor/ProcessJs.kt:43-44 | one more member appends its generated function and then its override |
| Reversal.OutputStep | processor/src/main/kotlin/love/forte/suspendreversal/processor/ProcessJvm.kt:52-53 | a builder holding the first `i` members' functions holds the first `i + 1` after member `i`'s pair is added |
| ProcessJvm.GenerateBlockingFunctions | processor/src/main/kotlin/love/forte/suspendreversal/processor/ProcessJvm.kt:72-155 | the blocking pair built step by step equals `Reverse` for the blocking profile |
| ProcessJvm.GenerateAsyncFunctions | processor/src/main/kotlin/love/forte/suspendreversal/processor/ProcessJvm.kt:158-256 | the future pair built step by step equals `Reverse` for the future profile |
| ProcessJvm.ResolveMember | processor/src/main/kotlin/love/forte/suspendreversal/processor/ProcessJvm.kt:46-64 | each present builder receives its profile's pair for the member, appended to what it held; an absent one is skipped |
| ProcessJvm.ResolveMembers | processor/src/main/kotlin/love/forte/suspendreversal/processor/ProcessJvm.kt:44-65 | each present builder ends with its old functions followed by `Output` of its profile over the members |
| ProcessJvm.ResolveJvm | processor/src/main/kotlin/love/forte/suspendreversal/processor/ProcessJvm.kt:15-69 | both builders as above over the selected members, and the file receives the present companion types, blocking first |
| ProcessJs.GenerateAsyncFunctions | processor/src/main/kotlin/love/forte/suspendreversal/processor/ProcessJs.kt:51-143 | the promise pair built step by step equals `Reverse` for the JS profile |
| ProcessJs.ResolveJs | processor/src/main/kotlin/love/forte/suspendreversal/processor/ProcessJs.kt:15-49 | a present builder ends with its old functions followed by `Output` over the selected members, and its type is added to the file; an absent one adds nothing |
| Config.DefaultSuspendReversal | annotations/src/commonMain/kotlin/love/forte/suspendreversal/annotations/SuspendReversal.kt:9-19 | all three profiles on, prefixes `JBlocking`/`JAsync`/`JsAsync`, empty suffixes, `markJvmSynthetic` on |
| Config.DefaultPrefixesDistinct | annotations/src/commonMain/kotlin/love/forte/suspendreversal/annotations/SuspendReversal.kt:11-17 | the three default class-name prefixes are pairwise different |
| Config.DefaultNaming | annotations/src/commonMain/kotlin/love/forte/suspendreversal/annotations/SuspendReversal.kt:26-73 | every naming record defaults to an empty base name and no property; the suffix is `Blocking` for blocking and `Async` otherwise |
| Config.GeneratedName | annotations/src/commonMain/kotlin/love/forte/suspendreversal/annotations/SuspendReversal.kt:27-31 | the name is the base name, or the current name when the base is empty, followed by the suffix, so it always ends with the suffix |
| Config.DefaultNamingAgrees | annotations/src/commonMain/kotlin/love/forte/suspendreversal/annotations/SuspendReversal.kt:36 | under the default record each profile's name rule gives exactly the name the processor generates |
| Samples.FooSelection | samples/simple-sample1/src/main/kotlin/pk1/pk2/Foo.kt:8-17 | `Foo` contributes `run` and `get` in that order; its properties are skipped |
| Samples.PlainGetNotSelected | processor/src/main/kotlin/love/forte/suspendreversal/processor/ProcessJvm.kt:43 | an abstract function without `suspend` is not selected |
| Samples.FooGetBlocking | samples/simple-sample1/src/main/kotlin/pk1/pk2/Foo.kt:14 | `abstract fun getBlocking(): Int` and `@JvmSynthetic override suspend fun get(): Int` whose body is `return getBlocking()` |
| Samples.FooRunAsync | samples/simple-sample1/src/main/kotlin/pk1/pk2/Foo.kt:12 | `runAsync(): CompletableFuture<Void?>`, an override with no return type whose body is `runAsync().await()` |
| Samples.FooRunBlocking | samples/simple-sample1/src/main/kotlin/pk1/pk2/Foo.kt:12 | blocking `run` keeps `Unit` on both functions and its body is `return runBlocking()` |
| Samples.BarGetAsync | samples/simple-sample1/src/main/kotlin/pk1/pk2/Foo.kt:25 | `getAsync(value: I): CompletableFuture<out Q>` keeping `<Q : T>` on both functions, and the override body `return getAsync<Q>(value).await()` with its arguments |
| Samples.BarGetPromise | samples/simple-sample1/src/main/kotlin/pk1/pk2/Foo.kt:25 | JS `getAsync` keeps `<Q : T>` on both functions, returns `Promise<Q>`, carries no annotations, and awaits with the promise `await` |
| Samples.S1RunModifiers | samples/simple-sample1/src/main/kotlin/pk1/pk2/Foo.kt:32 | for `abstract suspend fun run()` the generated function has exactly `abstract` and the override exactly `suspend override` |
| Samples.TwoMembers | processor/src/main/kotlin/love/forte/suspendreversal/processor/ProcessJvm.kt:44-64 | two members give four functions: each generated one, suffixed, before its override |
| Samples.NameClash | processor/src/main/kotlin/love/forte/suspendreversal/processor/ProcessJvm.kt:44-53 | for members `foo` and `fooBlocking` the blocking companion holds two functions named `fooBlocking`: the first member's generated function and the second's override |
| Samples.FooCompanion | samples/simple-sample1/src/main/kotlin/pk1/pk2/Foo.kt:7-17 | each companion of `Foo` holds `runSuffix`, `run`, `getSuffix`, `get` in that order |

## Left out

- KSP type resolution (`toTypeName`, `toTypeVariableName`, type parameter resolvers): declarations arrive with their types already resolved to KotlinPoet type names.
- `kotlin.Unit` is recognised only as the one constructor `Ty.Unit`. A type alias that resolves to `Unit` is not modelled.
- `generateReversalTypeSpecBuilder`, which creates the companion type with its class-name prefix, supertype and constructor, is not part of this model. The builders are inputs, and an absent builder (`null`) stands for a disabled profile.
- The nearest-annotation lookup that produces `nearestAnnotation` is not part of this model. Its result is part of the input. The processor reads `javaBlocking`/`javaAsync` there, while the annotation declares `jBlocking`/`jAsync`. The flags only pick which builders exist, so only `markJvmSynthetic` is read here.
- `resolveIncludeAnnotations` is not part of this model. Its choice of annotations is the `includeAnnotations` parameter of the JVM profiles.
- Logging (`environment.logger.info`) is not modelled because it produces no output the model observes.
- KotlinPoet rendering (turning specs into source text, wrapping long statements) is not modelled. For argument checks, only the placeholder-to-argument-kind agreement of `addStatement` and `addKdoc` is modelled.
- The processor provider, build scripts and publishing are not part of this model.
- What `asProperty` would change is not modelled, because nothing in the processor reads it; only its default `false` is recorded.
