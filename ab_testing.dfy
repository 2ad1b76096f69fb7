/** The A/B testing framework: the three running tests, the traffic-split bucketing of a
    random draw, and the one-time assignment of a variant to every test, which keeps a variant
    the store already holds and otherwise prefers the copy saved in the browser's storage. */
module ABTesting {
  import opened Common
  import opened TestingStore

  /** A running test and its three variant texts, listed under the keys "control",
      "variant_a" and "variant_b" in that order. */
  datatype SplitTest = SplitTest(
    id: string, kind: TestType, element: string,
    control: string, variantA: string, variantB: string, trafficSplit: int)

  const VariantKeys: seq<string> := ["control", "variant_a", "variant_b"]

  const ActiveTests: seq<SplitTest> := [
    SplitTest("hero_headline_test", HeadlineTest, "[data-test=\"hero-headline\"]",
      "Transform Your Amazon Business with Expert Guidance",
      "Scale Your Amazon Empire with Proven Strategies",
      "From Amazon Beginner to 7-Figure Success Story", 33),
    SplitTest("cta_button_test", CtaTest, "[data-test=\"primary-cta\"]",
      "Get Started Today", "Start Your Journey", "Transform Your Business", 33),
    SplitTest("popup_timing_test", PopupTest, "[data-test=\"exit-intent-popup\"]",
      "5000", "10000", "15000", 33)]

  /** The variant a draw `r` (a number in [0, 100)) lands in: below the split it is the first
      test variant, below twice the split the second, otherwise the control. */
  function Bucket(r: real, split: int): (v: string)
    ensures v in VariantKeys
    ensures v == "variant_a" <==> r < split as real
    ensures v == "variant_b" <==> split as real <= r < (2 * split) as real
    ensures v == "control" <==> r >= split as real && r >= (2 * split) as real
  {
    if r < split as real then VariantKeys[1]
    else if r < (split * 2) as real then VariantKeys[2]
    else VariantKeys[0]
  }

  /** With the 33 split of every running test, a third of the draws go to each test variant
      and the rest to the control. */
  lemma BucketThirds(r: real)
    requires 0.0 <= r < 100.0
    ensures r < 33.0 ==> Bucket(r, 33) == "variant_a"
    ensures 33.0 <= r < 66.0 ==> Bucket(r, 33) == "variant_b"
    ensures 66.0 <= r ==> Bucket(r, 33) == "control"
  {
  }

  lemma ActiveTestsSplit()
    ensures forall i :: 0 <= i < |ActiveTests| ==> ActiveTests[i].trafficSplit == 33
    ensures forall i, j :: 0 <= i < j < |ActiveTests| ==> ActiveTests[i].id != ActiveTests[j].id
  {
  }

  /** The key under which the browser's storage keeps a test's variant. */
  function StorageKey(testId: string): string
  {
    "ab_test_" + testId
  }

  /** `localStorage.getItem(key)` read as a condition: a missing or empty entry counts as none. */
  function Saved(storage: map<string, string>, testId: string): (r: Option<string>)
    ensures r.Some? <==> StorageKey(testId) in storage && storage[StorageKey(testId)] != ""
    ensures r.Some? ==> r.value == storage[StorageKey(testId)]
  {
    var key := StorageKey(testId);
    if key in storage && storage[key] != "" then Some(storage[key]) else None
  }

  /** The variant a test is given when the store holds none. */
  function Fresh(storage: map<string, string>, test: SplitTest, draw: real): string
  {
    var saved := Saved(storage, test.id);
    if saved.Some? then saved.value else Bucket(draw, test.trafficSplit)
  }

  /** One iteration of the assignment loop: a test the store holds a variant for is left
      alone, any other is given its fresh variant. */
  function Step(userVariants: map<string, string>, storage: map<string, string>, test: SplitTest, draw: real): map<string, string>
  {
    if ActiveVariant(userVariants, test.id).Some? then userVariants
    else userVariants[test.id := Fresh(storage, test, draw)]
  }

  /** The variants after the loop has run over `tests` with one draw each. */
  function AssignAll(userVariants: map<string, string>, storage: map<string, string>, tests: seq<SplitTest>, draws: seq<real>): map<string, string>
    requires |draws| == |tests|
  {
    if tests == [] then userVariants
    else
      var n := |tests| - 1;
      Step(AssignAll(userVariants, storage, tests[..n], draws[..n]), storage, tests[n], draws[n])
  }

  /** Each step keeps a variant the store already holds, prefers the saved copy to a fresh
      draw, and leaves every other test alone; afterwards the step's test has a variant. */
  lemma StepPrecedence(userVariants: map<string, string>, storage: map<string, string>, test: SplitTest, draw: real, other: string)
    requires other != test.id
    ensures ActiveVariant(userVariants, test.id).Some? ==> Step(userVariants, storage, test, draw) == userVariants
    ensures ActiveVariant(userVariants, test.id).None? && Saved(storage, test.id).Some? ==>
              ActiveVariant(Step(userVariants, storage, test, draw), test.id) == Saved(storage, test.id)
    ensures ActiveVariant(userVariants, test.id).None? && Saved(storage, test.id).None? ==>
              ActiveVariant(Step(userVariants, storage, test, draw), test.id) == Some(Bucket(draw, test.trafficSplit))
    ensures ActiveVariant(Step(userVariants, storage, test, draw), other) == ActiveVariant(userVariants, other)
  {
  }

  /** A test that already has a variant never loses or changes it during the loop. */
  lemma {:induction false} AssignAllKeeps(userVariants: map<string, string>, storage: map<string, string>, tests: seq<SplitTest>, draws: seq<real>, id: string)
    requires |draws| == |tests|
    requires ActiveVariant(userVariants, id).Some?
    ensures ActiveVariant(AssignAll(userVariants, storage, tests, draws), id) == ActiveVariant(userVariants, id)
  {
    if tests != [] {
      var n := |tests| - 1;
      AssignAllKeeps(userVariants, storage, tests[..n], draws[..n], id);
    }
  }

  /** After the loop every test has a non-empty variant. */
  lemma {:induction false} AssignAllComplete(userVariants: map<string, string>, storage: map<string, string>, tests: seq<SplitTest>, draws: seq<real>)
    requires |draws| == |tests|
    ensures forall i :: 0 <= i < |tests| ==> ActiveVariant(AssignAll(userVariants, storage, tests, draws), tests[i].id).Some?
  {
    if tests != [] {
      var n := |tests| - 1;
      var before := AssignAll(userVariants, storage, tests[..n], draws[..n]);
      AssignAllComplete(userVariants, storage, tests[..n], draws[..n]);
      forall i | 0 <= i < |tests|
        ensures ActiveVariant(AssignAll(userVariants, storage, tests, draws), tests[i].id).Some?
      {
        if i < n {
          assert tests[..n][i] == tests[i];
          AssignAllKeeps(before, storage, [tests[n]], [draws[n]], tests[i].id);
          assert [tests[n]][..0] == [] && [draws[n]][..0] == [];
        }
      }
    }
  }

  /** The framework component: the assignment runs once per mount. */
  class Framework {
    var testsInitialized: bool

    constructor()
      ensures !testsInitialized
    {
      testsInitialized := false;
    }

    /** The assignment effect, with `draws[i]` the draw taken for the i-th test when it needs
        one. Applying the variants to the page is not modelled. */
    method Initialize(store: TestingStore, storage: map<string, string>, draws: seq<real>)
      requires |draws| == |ActiveTests|
      modifies this, store
      ensures testsInitialized
      ensures old(testsInitialized) ==> store.userVariants == old(store.userVariants)
      ensures !old(testsInitialized) ==> store.userVariants == AssignAll(old(store.userVariants), storage, ActiveTests, draws)
      ensures store.feedbackItems == old(store.feedbackItems) && store.errorReports == old(store.errorReports)
      ensures store.currentJourneyStep == old(store.currentJourneyStep) && store.activeTests == old(store.activeTests)
      ensures store.performanceMetrics == old(store.performanceMetrics) && store.feedbackWidgetVisible == old(store.feedbackWidgetVisible)
      ensures store.accessibilityAudits == old(store.accessibilityAudits) && store.accessibilityScore == old(store.accessibilityScore)
    {
      if testsInitialized {
        return;
      }
      var i := 0;
      while i < |ActiveTests|
        invariant 0 <= i <= |ActiveTests|
        invariant store.userVariants == AssignAll(old(store.userVariants), storage, ActiveTests[..i], draws[..i])
        invariant store.feedbackItems == old(store.feedbackItems) && store.errorReports == old(store.errorReports)
        invariant store.currentJourneyStep == old(store.currentJourneyStep) && store.activeTests == old(store.activeTests)
        invariant store.performanceMetrics == old(store.performanceMetrics) && store.feedbackWidgetVisible == old(store.feedbackWidgetVisible)
        invariant store.accessibilityAudits == old(store.accessibilityAudits) && store.accessibilityScore == old(store.accessibilityScore)
      {
        var test := ActiveTests[i];
        var variant := store.GetActiveVariant(test.id);
        if variant.None? {
          var saved := Saved(storage, test.id);
          var chosen;
          if saved.Some? {
            chosen := saved.value;
          } else {
            chosen := Bucket(draws[i], test.trafficSplit);
          }
          store.SetABTestVariant(test.id, chosen);
        }
        assert ActiveTests[..i + 1][..i] == ActiveTests[..i];
        assert draws[..i + 1][..i] == draws[..i];
        i := i + 1;
      }
      assert ActiveTests[..i] == ActiveTests;
      assert draws[..i] == draws;
      testsInitialized := true;
    }
  }
}
