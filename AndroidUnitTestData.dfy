/**
 * The data extracted for an Android unit-test target, and its conversion into
 * the target that is emitted.
 */
module AndroidUnitTest {
  import opened Starlark

  datatype AndroidUnitTestData = AndroidUnitTestData(
    name: string,
    srcs: seq<string>,
    deps: seq<BazelDependency>,
    tags: seq<string>,
    customPackage: string,
    associates: seq<BazelDependency>,
    resources: seq<string>)

  datatype AndroidUnitTestTarget = AndroidUnitTestTarget(
    name: string,
    srcs: seq<string>,
    deps: seq<BazelDependency>,
    associates: seq<BazelDependency>,
    customPackage: string,
    resources: seq<string>,
    tags: seq<string>)

  /** `toUnitTestTarget`: every field of the data is carried to the field of the same name. */
  function ToUnitTestTarget(data: AndroidUnitTestData): (t: AndroidUnitTestTarget)
    ensures t.name == data.name && t.srcs == data.srcs && t.deps == data.deps
    ensures t.associates == data.associates && t.customPackage == data.customPackage
    ensures t.resources == data.resources && t.tags == data.tags
  {
    AndroidUnitTestTarget(
      name := data.name,
      srcs := data.srcs,
      deps := data.deps,
      associates := data.associates,
      customPackage := data.customPackage,
      resources := data.resources,
      tags := data.tags)
  }

  /** Reads the data back off a target, field by field (the inverse of the conversion). */
  function ToUnitTestData(t: AndroidUnitTestTarget): AndroidUnitTestData
  {
    AndroidUnitTestData(t.name, t.srcs, t.deps, t.tags, t.customPackage, t.associates, t.resources)
  }

  /** The conversion loses nothing: the data can be recovered from the target. */
  lemma UnitTestTargetRoundTrip(data: AndroidUnitTestData)
    ensures ToUnitTestData(ToUnitTestTarget(data)) == data
  {
  }

  /** Every target is the conversion of the data read back from it. */
  lemma UnitTestDataRoundTrip(t: AndroidUnitTestTarget)
    ensures ToUnitTestTarget(ToUnitTestData(t)) == t
  {
  }

  /** Different data give different targets. */
  lemma UnitTestTargetInjective(d1: AndroidUnitTestData, d2: AndroidUnitTestData)
    ensures ToUnitTestTarget(d1) == ToUnitTestTarget(d2) <==> d1 == d2
  {
    if ToUnitTestTarget(d1) == ToUnitTestTarget(d2) {
      UnitTestTargetRoundTrip(d1);
      UnitTestTargetRoundTrip(d2);
    }
  }

  /**
   * The two dependency lists keep their roles: the target's `deps` are the
   * data's `deps` and its associates the data's associates, so lists that
   * differ are never exchanged.
   */
  lemma UnitTestDependenciesNotSwapped(data: AndroidUnitTestData)
    ensures ToUnitTestTarget(data).deps == data.deps
    ensures ToUnitTestTarget(data).associates == data.associates
    ensures data.deps != data.associates ==>
              ToUnitTestTarget(data).deps != data.associates && ToUnitTestTarget(data).associates != data.deps
  {
  }
}
