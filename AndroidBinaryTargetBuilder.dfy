/**
 * The builder that turns an Android application module into Bazel targets:
 * the generated intermediate targets (build config, resource values, the
 * Kotlin library `<project>_lib`) followed by the `android_binary` target.
 *
 * The data extractors, the `to*Target` converters, `toBazelDependency`,
 * `isKotlin` and `isAndroidApplication` are collaborators whose bodies are
 * not part of this model: they are functions handed in, with the
 * nullability they are declared with (the build-config converter always
 * yields a target, the other two converters may yield none).
 */
module BinaryTargetBuilder {
  import opened Wrappers
  import opened Starlark

  /** A module of the Gradle build, as far as this builder looks at it. */
  datatype Project = Project(name: string)

  /** Which source set the library extractor reads; `DefaultSourceSet` is its default argument. */
  datatype SourceSetType = DefaultSourceSet | JavaKotlin

  /** Library-level data of a module (the fields this builder reads or rewrites). */
  datatype AndroidLibraryData = AndroidLibraryData(
    name: string,
    srcs: seq<string>,
    res: seq<string>,
    assets: seq<string>,
    assetsDir: Option<string>,
    manifestFile: Option<string>,
    packageName: string,
    extraRes: seq<string>,
    hasDatabinding: bool,
    deps: seq<BazelDependency>)

  /** Binary-level data of a module. */
  datatype AndroidBinaryData = AndroidBinaryData(
    name: string,
    deps: seq<BazelDependency>,
    multidex: string,
    dexShards: Option<int>,
    debugKey: Option<string>,
    hasDatabinding: bool,
    manifestValues: map<string, Option<string>>,
    buildId: Option<string>,
    googleServicesJson: Option<string>,
    hasCrashlytics: bool)

  /** The `android_binary` target. */
  datatype AndroidBinaryTarget = AndroidBinaryTarget(
    name: string,
    deps: seq<BazelDependency>,
    srcs: seq<string>,
    multidex: string,
    debugKey: Option<string>,
    dexShards: Option<int>,
    enableDataBinding: bool,
    packageName: string,
    manifest: Option<string>,
    manifestValues: map<string, Option<string>>,
    res: seq<string>,
    extraRes: seq<string>,
    assetsGlob: seq<string>,
    assetsDir: Option<string>,
    buildId: Option<string>,
    googleServicesJson: Option<string>,
    hasCrashlytics: bool)

  /** A target of any kind: the binary target, or one produced by a converter. */
  datatype BazelTarget =
    | AndroidBinary(binary: AndroidBinaryTarget)
    | OtherTarget(name: string, description: string)

  /** The builder with its two injected extractors. */
  datatype AndroidBinaryTargetBuilder = AndroidBinaryTargetBuilder(
    androidLibDataExtractor: (Project, SourceSetType) -> AndroidLibraryData,
    androidBinDataExtractor: (Project, AndroidLibraryData) -> AndroidBinaryData)

  /** The top-level helpers the builder calls. */
  datatype Collaborators = Collaborators(
    isKotlin: Project -> bool,
    isAndroidApplication: Project -> bool,
    toBuildConfigTarget: AndroidLibraryData -> BazelTarget,
    toResValueTarget: AndroidLibraryData -> Option<BazelTarget>,
    toKtLibraryTarget: AndroidLibraryData -> Option<BazelTarget>,
    toBazelDependency: BazelTarget -> BazelDependency)

  /** `targets.map { it.toBazelDependency() }`. */
  function DependenciesOf(env: Collaborators, targets: seq<BazelTarget>): (r: seq<BazelDependency>)
    ensures |r| == |targets|
    ensures forall i :: 0 <= i < |targets| ==> r[i] == env.toBazelDependency(targets[i])
  {
    if targets == [] then [] else [env.toBazelDependency(targets[0])] + DependenciesOf(env, targets[1..])
  }

  /** Mapping to dependencies commutes with concatenation. */
  lemma {:induction false} DependenciesOfAppend(env: Collaborators, a: seq<BazelTarget>, b: seq<BazelTarget>)
    ensures DependenciesOf(env, a + b) == DependenciesOf(env, a) + DependenciesOf(env, b)
  {
    if a != [] {
      assert (a + b)[1..] == a[1..] + b;
      DependenciesOfAppend(env, a[1..], b);
    } else {
      assert a + b == b;
    }
  }

  // ---------------------------------------------------------------------------
  // Intermediate targets
  // ---------------------------------------------------------------------------

  /** The JAVA_KOTLIN library data, renamed `<project>_lib` and with data binding off. */
  function IntermediateLibraryData(builder: AndroidBinaryTargetBuilder, project: Project): AndroidLibraryData
  {
    builder.androidLibDataExtractor(project, JavaKotlin).(name := project.name + "_lib", hasDatabinding := false)
  }

  /** The generated targets: the build-config target, then the res-value target if any. */
  function GeneratedTargets(builder: AndroidBinaryTargetBuilder, env: Collaborators, project: Project): seq<BazelTarget>
  {
    var data := IntermediateLibraryData(builder, project);
    [env.toBuildConfigTarget(data)] + OptionToSeq(env.toResValueTarget(data))
  }

  /** The data the Kotlin library target is built from: the intermediate data with its deps extended. */
  function KtLibraryData(builder: AndroidBinaryTargetBuilder, env: Collaborators, project: Project): AndroidLibraryData
  {
    var data := IntermediateLibraryData(builder, project);
    data.(deps := data.deps + DependenciesOf(env, GeneratedTargets(builder, env, project)))
  }

  /** What `buildKtAndroidTargets` returns: the generated targets, then the Kotlin library target if any. */
  function KtAndroidTargets(builder: AndroidBinaryTargetBuilder, env: Collaborators, project: Project): seq<BazelTarget>
  {
    GeneratedTargets(builder, env, project) + OptionToSeq(env.toKtLibraryTarget(KtLibraryData(builder, env, project)))
  }

  /** `buildKtAndroidTargets`: fills a target list and threads the Kotlin library's dependency list. */
  method BuildKtAndroidTargets(builder: AndroidBinaryTargetBuilder, env: Collaborators, project: Project)
    returns (targets: seq<BazelTarget>)
    ensures targets == KtAndroidTargets(builder, env, project)
  {
    targets := [];
    var androidProjectData :=
      builder.androidLibDataExtractor(project, JavaKotlin).(name := project.name + "_lib", hasDatabinding := false);
    var deps := androidProjectData.deps;
    var buildConfig := env.toBuildConfigTarget(androidProjectData);
    deps := deps + [env.toBazelDependency(buildConfig)];
    targets := targets + [buildConfig];
    var resValue := env.toResValueTarget(androidProjectData);
    if resValue.Some? {
      deps := deps + [env.toBazelDependency(resValue.value)];
      targets := targets + [resValue.value];
    }
    assert deps == androidProjectData.deps + DependenciesOf(env, targets);
    var ktLibrary := env.toKtLibraryTarget(androidProjectData.(deps := deps));
    if ktLibrary.Some? {
      targets := targets + [ktLibrary.value];
    }
  }

  /** The intermediate library data is the extractor's, renamed `<project>_lib`, with data binding off. */
  lemma IntermediateLibraryDataRenamed(builder: AndroidBinaryTargetBuilder, project: Project)
    ensures var d := IntermediateLibraryData(builder, project);
            var e := builder.androidLibDataExtractor(project, JavaKotlin);
            && d.name == project.name + "_lib" && !d.hasDatabinding
            && d.srcs == e.srcs && d.res == e.res && d.assets == e.assets && d.assetsDir == e.assetsDir
            && d.manifestFile == e.manifestFile && d.packageName == e.packageName
            && d.extraRes == e.extraRes && d.deps == e.deps
  {
  }

  /**
   * The intermediate targets are, in order: the build-config target, the
   * res-value target when there is one, the Kotlin library target when there is one.
   */
  lemma IntermediateTargetsOrder(builder: AndroidBinaryTargetBuilder, env: Collaborators, project: Project)
    ensures var data := IntermediateLibraryData(builder, project);
            var rv := env.toResValueTarget(data);
            var kt := env.toKtLibraryTarget(KtLibraryData(builder, env, project));
            var ts := KtAndroidTargets(builder, env, project);
            && |ts| == 1 + (if rv.Some? then 1 else 0) + (if kt.Some? then 1 else 0)
            && ts[0] == env.toBuildConfigTarget(data)
            && (rv.Some? ==> ts[1] == rv.value)
            && (kt.Some? ==> ts[|ts| - 1] == kt.value)
  {
  }

  /**
   * The Kotlin library target is built from `<project>_lib` data without data
   * binding whose deps are the extractor's deps, then the build-config
   * dependency, then the res-value dependency when there is one.
   */
  lemma KtLibraryDepsOrder(builder: AndroidBinaryTargetBuilder, env: Collaborators, project: Project)
    ensures var base := builder.androidLibDataExtractor(project, JavaKotlin);
            var data := IntermediateLibraryData(builder, project);
            var rv := env.toResValueTarget(data);
            var k := KtLibraryData(builder, env, project);
            && k.name == project.name + "_lib" && !k.hasDatabinding
            && |k.deps| == |base.deps| + 1 + (if rv.Some? then 1 else 0)
            && k.deps[..|base.deps|] == base.deps
            && k.deps[|base.deps|] == env.toBazelDependency(env.toBuildConfigTarget(data))
            && (rv.Some? ==> k.deps[|base.deps| + 1] == env.toBazelDependency(rv.value))
  {
  }

  // ---------------------------------------------------------------------------
  // The binary target
  // ---------------------------------------------------------------------------

  /** The library-level deps of the binary: the intermediate targets' deps, plus the extractor's unless Kotlin. */
  function LibraryDerivedDeps(builder: AndroidBinaryTargetBuilder, env: Collaborators, project: Project,
                              intermediateTargets: seq<BazelTarget>): seq<BazelDependency>
  {
    var libData := builder.androidLibDataExtractor(project, DefaultSourceSet);
    if env.isKotlin(project) then DependenciesOf(env, intermediateTargets)
    else DependenciesOf(env, intermediateTargets) + libData.deps
  }

  /** The library data the binary extractor is given: the extractor's, with the rewritten deps. */
  function BinaryLibraryData(builder: AndroidBinaryTargetBuilder, env: Collaborators, project: Project,
                             intermediateTargets: seq<BazelTarget>): AndroidLibraryData
  {
    builder.androidLibDataExtractor(project, DefaultSourceSet).(deps := LibraryDerivedDeps(builder, env, project, intermediateTargets))
  }

  /** The binary-level data. */
  function BinaryData(builder: AndroidBinaryTargetBuilder, env: Collaborators, project: Project,
                      intermediateTargets: seq<BazelTarget>): AndroidBinaryData
  {
    builder.androidBinDataExtractor(project, BinaryLibraryData(builder, env, project, intermediateTargets))
  }

  /** The `android_binary` target assembled from the library-level and binary-level data. */
  function BinaryTarget(builder: AndroidBinaryTargetBuilder, env: Collaborators, project: Project,
                        intermediateTargets: seq<BazelTarget>): AndroidBinaryTarget
  {
    var androidLibData := BinaryLibraryData(builder, env, project, intermediateTargets);
    var binaryData := BinaryData(builder, env, project, intermediateTargets);
    AndroidBinaryTarget(
      name := binaryData.name,
      deps := androidLibData.deps + binaryData.deps,
      srcs := androidLibData.srcs,
      multidex := binaryData.multidex,
      debugKey := binaryData.debugKey,
      dexShards := binaryData.dexShards,
      enableDataBinding := binaryData.hasDatabinding,
      packageName := androidLibData.packageName,
      manifest := androidLibData.manifestFile,
      manifestValues := binaryData.manifestValues,
      res := androidLibData.res,
      extraRes := androidLibData.extraRes,
      assetsGlob := androidLibData.assets,
      assetsDir := androidLibData.assetsDir,
      buildId := binaryData.buildId,
      googleServicesJson := binaryData.googleServicesJson,
      hasCrashlytics := binaryData.hasCrashlytics)
  }

  /** `buildAndroidBinaryTargets`: the intermediate targets, in order, then exactly one binary target. */
  function BuildAndroidBinaryTargets(builder: AndroidBinaryTargetBuilder, env: Collaborators, project: Project,
                                     intermediateTargets: seq<BazelTarget>): (r: seq<BazelTarget>)
    ensures |r| == |intermediateTargets| + 1
    ensures r[..|intermediateTargets|] == intermediateTargets
    ensures r[|r| - 1] == AndroidBinary(BinaryTarget(builder, env, project, intermediateTargets))
  {
    intermediateTargets + [AndroidBinary(BinaryTarget(builder, env, project, intermediateTargets))]
  }

  /** For a Kotlin project the binary's deps are the intermediate targets' deps, then the binary data's. */
  lemma KotlinBinaryDeps(builder: AndroidBinaryTargetBuilder, env: Collaborators, project: Project,
                         intermediateTargets: seq<BazelTarget>)
    requires env.isKotlin(project)
    ensures var t := BinaryTarget(builder, env, project, intermediateTargets);
            var n := |intermediateTargets|;
            && |t.deps| == n + |BinaryData(builder, env, project, intermediateTargets).deps|
            && (forall i :: 0 <= i < n ==> t.deps[i] == env.toBazelDependency(intermediateTargets[i]))
            && t.deps[n..] == BinaryData(builder, env, project, intermediateTargets).deps
  {
  }

  /**
   * For any other project the binary's deps are the intermediate targets'
   * deps, then the library extractor's deps, then the binary data's.
   */
  lemma NonKotlinBinaryDeps(builder: AndroidBinaryTargetBuilder, env: Collaborators, project: Project,
                            intermediateTargets: seq<BazelTarget>)
    requires !env.isKotlin(project)
    ensures var t := BinaryTarget(builder, env, project, intermediateTargets);
            var lib := builder.androidLibDataExtractor(project, DefaultSourceSet);
            t.deps == DependenciesOf(env, intermediateTargets) + lib.deps
                      + BinaryData(builder, env, project, intermediateTargets).deps
  {
  }

  /**
   * Which record each field of the binary target comes from: the library
   * extractor's data (default source set) or the binary extractor's data.
   */
  lemma BinaryTargetFieldSources(builder: AndroidBinaryTargetBuilder, env: Collaborators, project: Project,
                                 intermediateTargets: seq<BazelTarget>)
    ensures var t := BinaryTarget(builder, env, project, intermediateTargets);
            var lib := builder.androidLibDataExtractor(project, DefaultSourceSet);
            var bin := BinaryData(builder, env, project, intermediateTargets);
            && t.srcs == lib.srcs && t.packageName == lib.packageName && t.manifest == lib.manifestFile
            && t.res == lib.res && t.extraRes == lib.extraRes && t.assetsGlob == lib.assets
            && t.assetsDir == lib.assetsDir
            && t.name == bin.name && t.multidex == bin.multidex && t.debugKey == bin.debugKey
            && t.dexShards == bin.dexShards && t.enableDataBinding == bin.hasDatabinding
            && t.manifestValues == bin.manifestValues && t.buildId == bin.buildId
            && t.googleServicesJson == bin.googleServicesJson && t.hasCrashlytics == bin.hasCrashlytics
  {
  }

  /** The binary extractor sees the library data with its deps replaced by the rewritten ones. */
  lemma BinaryExtractorInput(builder: AndroidBinaryTargetBuilder, env: Collaborators, project: Project,
                             intermediateTargets: seq<BazelTarget>)
    ensures var lib := builder.androidLibDataExtractor(project, DefaultSourceSet);
            var seen := BinaryLibraryData(builder, env, project, intermediateTargets);
            && seen.deps == LibraryDerivedDeps(builder, env, project, intermediateTargets)
            && seen.(deps := lib.deps) == lib
  {
  }

  // ---------------------------------------------------------------------------
  // The builder's entry points
  // ---------------------------------------------------------------------------

  /** `build`: the intermediate targets followed by the binary target. */
  method Build(builder: AndroidBinaryTargetBuilder, env: Collaborators, project: Project)
    returns (targets: seq<BazelTarget>)
    ensures var intermediates := KtAndroidTargets(builder, env, project);
            && |targets| == |intermediates| + 1
            && targets[..|intermediates|] == intermediates
            && targets[|targets| - 1] == AndroidBinary(BinaryTarget(builder, env, project, intermediates))
    ensures targets[0] == env.toBuildConfigTarget(IntermediateLibraryData(builder, project))
  {
    var ktAndroidTargets := BuildKtAndroidTargets(builder, env, project);
    targets := BuildAndroidBinaryTargets(builder, env, project, ktAndroidTargets);
  }

  /** For a Kotlin project the binary depends on every intermediate target and on nothing the library extractor lists. */
  lemma KotlinBuildDeps(builder: AndroidBinaryTargetBuilder, env: Collaborators, project: Project)
    requires env.isKotlin(project)
    ensures var intermediates := KtAndroidTargets(builder, env, project);
            var t := BinaryTarget(builder, env, project, intermediates);
            t.deps == DependenciesOf(env, GeneratedTargets(builder, env, project))
                      + DependenciesOf(env, OptionToSeq(env.toKtLibraryTarget(KtLibraryData(builder, env, project))))
                      + BinaryData(builder, env, project, intermediates).deps
  {
    DependenciesOfAppend(env, GeneratedTargets(builder, env, project),
                         OptionToSeq(env.toKtLibraryTarget(KtLibraryData(builder, env, project))));
  }

  /** `canHandle`: the builder applies exactly to Android application modules. */
  function CanHandle(env: Collaborators, project: Project): (r: bool)
    ensures r <==> env.isAndroidApplication(project)
  {
    env.isAndroidApplication(project)
  }
}
