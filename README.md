# Grazel target generation, modelled in Dafny

Grazel turns a Gradle build into Bazel `BUILD` files. This project models three parts of it:

- **Starlark statements** (`Statement.dfy`, module `Starlark`). This covers the quoting rule for string
  values and its lift to collections. It covers the two-spaces-per-level indent prefix, with Kotlin `Int`
  overflow and `repeat`'s exception on a negative count. It covers `StatementsBuilder`, the accumulator
  that appends statements and puts one `NewLineStatement` after each call. It also covers `statements { }`
  and `List<Statement>.asString()`, which renders a list as each statement's level-0 output in order.
  How a given statement prints itself is left abstract. Rendering takes a `Writer` function from a
  statement and a level to the printed text, and a `PrintWriter` is modelled by the text written to it.
  A builder block (`StatementsBuilder.() -> Unit`) is modelled by the list of builder calls it makes,
  the `Step` datatype. `Emit` states what such a list appends.
- **The Android binary target builder** (`AndroidBinaryTargetBuilder.dfy`, module `BinaryTargetBuilder`).
  It produces, in order:
  - the build-config target;
  - the res-value target, if present;
  - the Kotlin library target `<project>_lib`, if present;
  - the `android_binary` target.

  The Kotlin library's dependency list is threaded through these steps. The binary's dependencies
  depend on whether the module uses Kotlin. The two injected extractors are function fields of the
  `AndroidBinaryTargetBuilder` record. The other collaborators are function fields of `Collaborators`:
  `isKotlin`, `isAndroidApplication`, `toBuildConfigTarget`, `toResValueTarget`, `toKtLibraryTarget`
  and `toBazelDependency`. Each keeps its declared nullability: the build-config converter always
  yields a target, and the other two converters return an `Option`.
- **Unit-test data** (`AndroidUnitTestData.dfy`, module `AndroidUnitTest`). `toUnitTestTarget` is a
  field-preserving record conversion. It is proved lossless by a round trip through its inverse.

`Wrappers.dfy` holds `Option`, which stands for Kotlin's nullable types.

`buildKtAndroidTargets` always adds the build-config target (`AndroidBinaryTargetBuilder.kt:99-102`).
Only the res-value and Kotlin library targets are optional.

## Model

| member | source | states |
|---|---|---|
| `Starlark.Wrap32` | grazel-gradle-plugin/src/main/kotlin/com/grab/grazel/bazel/starlark/Statement.kt:23 | the `Int` result of `level * INDENT`: unchanged inside the 32-bit range, shifted by 2^32 just outside it |
| `Starlark.Quote` | grazel-gradle-plugin/src/main/kotlin/com/grab/grazel/bazel/starlark/Statement.kt:32-37 | the result always starts and ends with `"`; it equals the input exactly when the input is already quoted; otherwise it is two characters longer and its interior is the input |
| `Starlark.IsQuoted` | grazel-gradle-plugin/src/main/kotlin/com/grab/grazel/bazel/starlark/Statement.kt:32 | holds exactly for non-empty strings whose first and last characters are `"`, so the one-character string `"` qualifies |
| `Starlark.QuoteIdempotent` | grazel-gradle-plugin/src/main/kotlin/com/grab/grazel/bazel/starlark/Statement.kt:32-37 | quoting twice gives the same string as quoting once |
| `Starlark.QuoteWrapsUnquoted` | grazel-gradle-plugin/src/main/kotlin/com/grab/grazel/bazel/starlark/Statement.kt:34-37 | a string that does not both start and end with `"` becomes `"` + s + `"` |
| `Starlark.QuoteOfLoneQuote` | grazel-gradle-plugin/src/main/kotlin/com/grab/grazel/bazel/starlark/Statement.kt:32-36 | the one-character string `"` counts as quoted and is returned unchanged |
| `Starlark.QuoteAll` | grazel-gradle-plugin/src/main/kotlin/com/grab/grazel/bazel/starlark/Statement.kt:42 | same length as the collection, and element i is the quote of element i's `toString()` |
| `Starlark.QuoteAllQuoted` | grazel-gradle-plugin/src/main/kotlin/com/grab/grazel/bazel/starlark/Statement.kt:42 | every element of a quoted collection is quoted |
| `Starlark.QuoteAllIdempotent` | grazel-gradle-plugin/src/main/kotlin/com/grab/grazel/bazel/starlark/Statement.kt:42 | quoting the strings of a quoted collection again changes nothing |
| `Starlark.Spaces` | grazel-gradle-plugin/src/main/kotlin/com/grab/grazel/bazel/starlark/Statement.kt:23 | `" ".repeat(n)` has length n and every character is a space |
| `Starlark.Indent` | grazel-gradle-plugin/src/main/kotlin/com/grab/grazel/bazel/starlark/Statement.kt:19-25 | indent succeeds exactly when the `Int` count is non-negative; the earlier text stays a prefix, and exactly that many spaces follow it |
| `Starlark.IndentTwoSpacesPerLevel` | grazel-gradle-plugin/src/main/kotlin/com/grab/grazel/bazel/starlark/Statement.kt:13-25 | for 0 <= level < 2^30 the writer gains exactly `level * 2` spaces |
| `Starlark.IndentFailsExactly` | grazel-gradle-plugin/src/main/kotlin/com/grab/grazel/bazel/starlark/Statement.kt:23 | `repeat` throws exactly for -2^30 <= level < 0 and for level >= 2^30, where the doubling wraps negative |
| `Starlark.AsString` | grazel-gradle-plugin/src/main/kotlin/com/grab/grazel/bazel/starlark/Statement.kt:94-99 | the loop over the list produces the in-order concatenation of each statement's level-0 output |
| `Starlark.StatementAsString` | grazel-gradle-plugin/src/main/kotlin/com/grab/grazel/bazel/starlark/Statement.kt:101-106 | a single statement's string is its level-0 write |
| `Starlark.RenderedSingleton` | grazel-gradle-plugin/src/main/kotlin/com/grab/grazel/bazel/starlark/Statement.kt:101-106 | rendering a one-statement list equals `Statement.asString()` of that statement |
| `Starlark.RenderedAppend` | grazel-gradle-plugin/src/main/kotlin/com/grab/grazel/bazel/starlark/Statement.kt:94-99 | rendering a concatenation is the concatenation of the renderings: output order is statement order |
| `Starlark.EmitStep` | grazel-gradle-plugin/src/main/kotlin/com/grab/grazel/bazel/starlark/Statement.kt:48-87 | every builder call appends at least one statement, and the last one is its `NewLineStatement` |
| `Starlark.Emit` | grazel-gradle-plugin/src/main/kotlin/com/grab/grazel/bazel/starlark/Statement.kt:44-92 | a block of n calls produces at least n statements and, when non-empty, ends with a newline |
| `Starlark.EmitAppend` | grazel-gradle-plugin/src/main/kotlin/com/grab/grazel/bazel/starlark/Statement.kt:90-92 | two blocks run one after the other produce the first block's statements, then the second's, with no reordering or deduplication |
| `Starlark.RenderedEmitAppend` | grazel-gradle-plugin/src/main/kotlin/com/grab/grazel/bazel/starlark/Statement.kt:90-99 | building in two halves renders as the first half's text followed by the second's |
| `Starlark.StatementsBuilder.constructor` | grazel-gradle-plugin/src/main/kotlin/com/grab/grazel/bazel/starlark/Statement.kt:44-45 | a new builder holds no statements |
| `Starlark.StatementsBuilder.Statements` | grazel-gradle-plugin/src/main/kotlin/com/grab/grazel/bazel/starlark/Statement.kt:46 | returns the current list as a value, so later builder calls cannot change a snapshot already taken |
| `Starlark.StatementsBuilder.Add` | grazel-gradle-plugin/src/main/kotlin/com/grab/grazel/bazel/starlark/Statement.kt:48-51 | the list becomes old ++ [statement, NewLine]; the earlier contents are unchanged |
| `Starlark.StatementsBuilder.AddList` | grazel-gradle-plugin/src/main/kotlin/com/grab/grazel/bazel/starlark/Statement.kt:53-56 | the list becomes old ++ statements ++ [NewLine] |
| `Starlark.StatementsBuilder.AddBlock` | grazel-gradle-plugin/src/main/kotlin/com/grab/grazel/bazel/starlark/Statement.kt:58-60 | the list becomes old ++ (what the block builds in a fresh builder) ++ [NewLine] |
| `Starlark.StatementsBuilder.NewLine` | grazel-gradle-plugin/src/main/kotlin/com/grab/grazel/bazel/starlark/Statement.kt:62-64 | the list becomes old ++ [NewLine] |
| `Starlark.StatementsBuilder.AddNewLine` | grazel-gradle-plugin/src/main/kotlin/com/grab/grazel/bazel/starlark/Statement.kt:66-68 | the list becomes old ++ [NewLine] |
| `Starlark.StatementsBuilder.AddString` | grazel-gradle-plugin/src/main/kotlin/com/grab/grazel/bazel/starlark/Statement.kt:70-72 | the list becomes old ++ [StringStatement(text), NewLine] |
| `Starlark.StatementsBuilder.EqString` | grazel-gradle-plugin/src/main/kotlin/com/grab/grazel/bazel/starlark/Statement.kt:74-77 | the list becomes old ++ [the assignment key = string, NewLine] |
| `Starlark.StatementsBuilder.EqAssignee` | grazel-gradle-plugin/src/main/kotlin/com/grab/grazel/bazel/starlark/Statement.kt:79-82 | the list becomes old ++ [the assignment key = assignee, NewLine] |
| `Starlark.StatementsBuilder.EqStrings` | grazel-gradle-plugin/src/main/kotlin/com/grab/grazel/bazel/starlark/Statement.kt:84-87 | the list becomes old ++ [the assignment key = list of strings, NewLine] |
| `Starlark.StatementsBuilder.Perform` | grazel-gradle-plugin/src/main/kotlin/com/grab/grazel/bazel/starlark/Statement.kt:48-87 | one builder call appends exactly what `EmitStep` says, at the end of the list |
| `Starlark.StatementsBuilder.PerformAll` | grazel-gradle-plugin/src/main/kotlin/com/grab/grazel/bazel/starlark/Statement.kt:91 | applying a block appends what `Emit` says to the end; the earlier contents stay a prefix |
| `Starlark.BuildStatements` | grazel-gradle-plugin/src/main/kotlin/com/grab/grazel/bazel/starlark/Statement.kt:90-92 | `statements { }` returns exactly what the block emits into a fresh builder |
| `AndroidUnitTest.ToUnitTestTarget` | grazel-gradle-plugin/src/main/kotlin/com/grab/grazel/migrate/android/AndroidUnitTestData.kt:15-23 | name, srcs, deps, associates, customPackage, resources and tags are each copied to the field of the same name |
| `AndroidUnitTest.UnitTestTargetRoundTrip` | grazel-gradle-plugin/src/main/kotlin/com/grab/grazel/migrate/android/AndroidUnitTestData.kt:5-23 | the data can be read back from the target unchanged, so the mapping is lossless |
| `AndroidUnitTest.UnitTestDataRoundTrip` | grazel-gradle-plugin/src/main/kotlin/com/grab/grazel/migrate/android/AndroidUnitTestData.kt:15-23 | every target is the conversion of the data read back from it |
| `AndroidUnitTest.UnitTestTargetInjective` | grazel-gradle-plugin/src/main/kotlin/com/grab/grazel/migrate/android/AndroidUnitTestData.kt:5-23 | two data records give the same target exactly when they are equal |
| `AndroidUnitTest.UnitTestDependenciesNotSwapped` | grazel-gradle-plugin/src/main/kotlin/com/grab/grazel/migrate/android/AndroidUnitTestData.kt:8-19 | the target's `deps` equal the data's `deps` and its `associates` equal the data's `associates`; when the two lists differ, they are never exchanged |
| `BinaryTargetBuilder.DependenciesOf` | grazel-gradle-plugin/src/main/kotlin/com/grab/grazel/migrate/builder/AndroidBinaryTargetBuilder.kt:62 | mapping targets to dependencies keeps length and order; element i is the dependency of target i |
| `BinaryTargetBuilder.DependenciesOfAppend` | grazel-gradle-plugin/src/main/kotlin/com/grab/grazel/migrate/builder/AndroidBinaryTargetBuilder.kt:62-64 | mapping a concatenation gives the concatenation of the mapped parts |
| `BinaryTargetBuilder.BuildKtAndroidTargets` | grazel-gradle-plugin/src/main/kotlin/com/grab/grazel/migrate/builder/AndroidBinaryTargetBuilder.kt:91-114 | the imperative list filling and `deps +=` threading produce exactly `KtAndroidTargets` |
| `BinaryTargetBuilder.IntermediateLibraryDataRenamed` | grazel-gradle-plugin/src/main/kotlin/com/grab/grazel/migrate/builder/AndroidBinaryTargetBuilder.kt:93-96 | the intermediate data is the JAVA_KOTLIN extraction renamed `<project>_lib` with databinding off; every other field is unchanged |
| `BinaryTargetBuilder.IntermediateTargetsOrder` | grazel-gradle-plugin/src/main/kotlin/com/grab/grazel/migrate/builder/AndroidBinaryTargetBuilder.kt:99-112 | the intermediates are, in order: the build-config target (always); the res-value target (if non-null); the Kotlin library target (if non-null); their number is 1 plus one per present optional target |
| `BinaryTargetBuilder.KtLibraryDepsOrder` | grazel-gradle-plugin/src/main/kotlin/com/grab/grazel/migrate/builder/AndroidBinaryTargetBuilder.kt:96-111 | the Kotlin library is built from `<project>_lib` data without databinding; its deps are the original lib deps, then the build-config dep, then the res-value dep if present |
| `BinaryTargetBuilder.BuildAndroidBinaryTargets` | grazel-gradle-plugin/src/main/kotlin/com/grab/grazel/migrate/builder/AndroidBinaryTargetBuilder.kt:58-89 | the result is the intermediate targets unchanged and in order, then exactly one binary target, which is last |
| `BinaryTargetBuilder.KotlinBinaryDeps` | grazel-gradle-plugin/src/main/kotlin/com/grab/grazel/migrate/builder/AndroidBinaryTargetBuilder.kt:60-72 | for a Kotlin project the binary's deps are exactly the intermediate targets' deps, in order, then `binaryData.deps`; the library extractor's deps are dropped |
| `BinaryTargetBuilder.NonKotlinBinaryDeps` | grazel-gradle-plugin/src/main/kotlin/com/grab/grazel/migrate/builder/AndroidBinaryTargetBuilder.kt:63-72 | for any other project the binary's deps are the intermediate targets' deps, then the library extractor's deps, then `binaryData.deps` |
| `BinaryTargetBuilder.BinaryTargetFieldSources` | grazel-gradle-plugin/src/main/kotlin/com/grab/grazel/migrate/builder/AndroidBinaryTargetBuilder.kt:71-87 | srcs, packageName, manifest, res, extraRes, assetsGlob and assetsDir come from the lib data; name, multidex, debugKey, dexShards, enableDataBinding, manifestValues, buildId, googleServicesJson and hasCrashlytics come from the binary data |
| `BinaryTargetBuilder.BinaryExtractorInput` | grazel-gradle-plugin/src/main/kotlin/com/grab/grazel/migrate/builder/AndroidBinaryTargetBuilder.kt:59-68 | the binary extractor receives the library data with only its deps replaced by the rewritten ones |
| `BinaryTargetBuilder.Build` | grazel-gradle-plugin/src/main/kotlin/com/grab/grazel/migrate/builder/AndroidBinaryTargetBuilder.kt:53-56 | `build` returns the intermediate targets in order, then the binary target last; the first target is the build-config target |
| `BinaryTargetBuilder.KotlinBuildDeps` | grazel-gradle-plugin/src/main/kotlin/com/grab/grazel/migrate/builder/AndroidBinaryTargetBuilder.kt:53-72 | end to end, a Kotlin binary depends on the generated targets, then the Kotlin library target if any, then `binaryData.deps` |
| `BinaryTargetBuilder.CanHandle` | grazel-gradle-plugin/src/main/kotlin/com/grab/grazel/migrate/builder/AndroidBinaryTargetBuilder.kt:116 | the builder applies exactly to Android application projects |

## Left out

- Writing to a `File` (`writeToFile`) and the `PrintWriter`/`StringWriter` plumbing are not modelled. They are file I/O; `AsString` gives the same text as a string.
- The concrete `write` of `StringStatement`, `NewLineStatement` and assignments is not shown, and neither is the rendering of an `Assignee`. A statement's output is an abstract `Writer` function; only the indent prefix is concrete.
- `assignments { key eq value }` is not shown. Each `eq` is modelled as appending one `AssignmentsStatement(key, value)` followed by one newline.
- `Any.toString()` is taken as given (`QuoteAll` takes it as a function). `quote` calls it twice, and the model assumes both calls return the same string.
- A builder block is an arbitrary Kotlin closure. The model represents it by the sequence of builder calls it makes. Closures that read the builder's statements or do other work beside those calls are represented only by their calls.
- The `IsEmpty` interface declares a method and has no logic.
- The Dagger module (`AndroidBinaryTargetBuilderModule`) is dependency-injection wiring. It is represented only by the extractor fields of `AndroidBinaryTargetBuilder`.
- The extractor internals, `isKotlin`, `isAndroidApplication`, the `to*Target` converters and `toBazelDependency` are not part of this model. They are opaque function inputs. So are the default source set of the library extractor and the structure of `BazelDependency` and of the converter-built targets. Exceptions these collaborators may throw are not modelled either.
- `AndroidLibraryData` is reduced to the fields this builder reads or rewrites. The fields of the real records whose types are not shown (`multidex`, `extraRes`, `dexShards`) use plain types of Dafny.
- `DefaultManifestValuesBuilderTest.kt`, `FakeProductFlavor.kt` and `GenerateBuildifierScriptTask.kt` are not part of this model. They are a test against real Gradle projects, `TODO()` stubs, and task registration that runs an external process.
- The dependency graph, the manifest-placeholder merge and the assembler that runs every builder over every module are not part of this model. Their sources are not among the modelled files.
