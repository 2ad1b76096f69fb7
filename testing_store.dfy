/** The testing store: the journey step reached, the A/B variant each test assigned, and the
    append-only logs of performance metrics, feedback, accessibility audits and error reports. */
module TestingStore {
  import opened Common

  datatype TestType = HeadlineTest | CtaTest | PopupTest | PricingTest | LayoutTest

  datatype ABTest = ABTest(
    id: string,
    name: string,
    kind: TestType,
    element: string,
    originalValue: string,
    testValue: string,
    trafficSplit: int,
    conversions: int,
    visitors: int,
    conversionRate: real,
    isActive: bool,
    startDate: string,
    endDate: Option<string>)

  datatype DeviceType = Mobile | Desktop

  datatype PerformanceMetric = PerformanceMetric(
    pageUrl: string, lcp: real, fid: real, cls: real, ttfb: real,
    deviceType: DeviceType, persona: Option<string>, timestamp: string)

  datatype FeedbackType = Thumbs | Bug | Feature | Satisfaction
  datatype FeedbackStatus = New | Reviewed | Resolved

  /** What a caller submits: a feedback item without its id and timestamp. */
  datatype FeedbackDraft = FeedbackDraft(
    kind: FeedbackType, rating: Option<int>, message: Option<string>, pageUrl: string,
    persona: Option<string>, screenshot: Option<string>, status: FeedbackStatus)

  datatype Feedback = Feedback(
    id: string, kind: FeedbackType, rating: Option<int>, message: Option<string>, pageUrl: string,
    persona: Option<string>, screenshot: Option<string>, timestamp: string, status: FeedbackStatus)

  datatype WcagLevel = A | AA | AAA
  datatype Impact = Minor | Moderate | Serious | CriticalImpact
  datatype Violation = Violation(id: string, impact: Impact, description: string, help: string, helpUrl: string, nodes: int)
  datatype Audit = Audit(pageUrl: string, score: int, violations: seq<Violation>, timestamp: string, wcagLevel: WcagLevel)

  datatype Severity = LowSeverity | MediumSeverity | HighSeverity | CriticalSeverity
  {
    function Slug(): string
    {
      match this
      case LowSeverity => "low"
      case MediumSeverity => "medium"
      case HighSeverity => "high"
      case CriticalSeverity => "critical"
    }
  }

  /** What a caller reports: an error report without its id and timestamp. */
  datatype ErrorDraft = ErrorDraft(
    message: string, stack: string, url: string, lineNumber: int, columnNumber: int,
    userAgent: string, persona: Option<string>, severity: Severity, resolved: bool)

  datatype ErrorReport = ErrorReport(
    id: string, message: string, stack: string, url: string, lineNumber: int, columnNumber: int,
    userAgent: string, persona: Option<string>, timestamp: string, severity: Severity, resolved: bool)

  /** `userVariants[testId] || null`: an assigned empty string reads as no variant. */
  function ActiveVariant(userVariants: map<string, string>, testId: string): (r: Option<string>)
    ensures r.Some? <==> testId in userVariants && userVariants[testId] != ""
    ensures r.Some? ==> r.value == userVariants[testId]
  {
    if testId in userVariants && userVariants[testId] != "" then Some(userVariants[testId]) else None
  }

  /** Reading a test back after assigning it a non-empty variant gives that variant, an empty
      one reads as none, and every other test reads as before. */
  lemma VariantRoundTrip(userVariants: map<string, string>, testId: string, variant: string, other: string)
    requires other != testId
    ensures variant != "" ==> ActiveVariant(userVariants[testId := variant], testId) == Some(variant)
    ensures variant == "" ==> ActiveVariant(userVariants[testId := variant], testId) == None
    ensures ActiveVariant(userVariants[testId := variant], other) == ActiveVariant(userVariants, other)
  {
  }

  /** A submitted draft becomes an item with the clock's id and time, whatever status the
      draft carried it is new, and every other field is the draft's. */
  function Submitted(d: FeedbackDraft, id: string, now: string): (f: Feedback)
    ensures f.status == New && f.id == id && f.timestamp == now
    ensures f.kind == d.kind && f.rating == d.rating && f.message == d.message && f.pageUrl == d.pageUrl
    ensures f.persona == d.persona && f.screenshot == d.screenshot
  {
    Feedback(id, d.kind, d.rating, d.message, d.pageUrl, d.persona, d.screenshot, now, New)
  }

  /** A reported draft becomes an unresolved report with the clock's id and time; every other
      field is the draft's. */
  function Reported(d: ErrorDraft, id: string, now: string): (e: ErrorReport)
    ensures !e.resolved && e.id == id && e.timestamp == now
    ensures e.message == d.message && e.stack == d.stack && e.url == d.url && e.lineNumber == d.lineNumber
    ensures e.columnNumber == d.columnNumber && e.userAgent == d.userAgent && e.persona == d.persona
    ensures e.severity == d.severity
  {
    ErrorReport(id, d.message, d.stack, d.url, d.lineNumber, d.columnNumber, d.userAgent, d.persona, now, d.severity, false)
  }

  class TestingStore {
    var currentJourneyStep: Option<string>
    var activeTests: seq<ABTest>
    var userVariants: map<string, string>
    var performanceMetrics: seq<PerformanceMetric>
    var feedbackItems: seq<Feedback>
    var feedbackWidgetVisible: bool
    var accessibilityAudits: seq<Audit>
    var accessibilityScore: int
    var errorReports: seq<ErrorReport>

    constructor()
      ensures currentJourneyStep == None && activeTests == [] && userVariants == map[]
      ensures performanceMetrics == [] && feedbackItems == [] && !feedbackWidgetVisible
      ensures accessibilityAudits == [] && accessibilityScore == 0 && errorReports == []
    {
      currentJourneyStep := None;
      activeTests := [];
      userVariants := map[];
      performanceMetrics := [];
      feedbackItems := [];
      feedbackWidgetVisible := false;
      accessibilityAudits := [];
      accessibilityScore := 0;
      errorReports := [];
    }

    /** Records the step reached; the analytics call is not modelled. */
    method TrackJourneyStep(persona: string, stepId: string)
      modifies this
      ensures currentJourneyStep == Some(stepId)
      ensures activeTests == old(activeTests) && userVariants == old(userVariants)
      ensures performanceMetrics == old(performanceMetrics) && feedbackItems == old(feedbackItems)
      ensures feedbackWidgetVisible == old(feedbackWidgetVisible) && accessibilityAudits == old(accessibilityAudits)
      ensures accessibilityScore == old(accessibilityScore) && errorReports == old(errorReports)
    {
      currentJourneyStep := Some(stepId);
    }

    /** Assigns a variant to one test; the copy kept in the browser's storage is not modelled. */
    method SetABTestVariant(testId: string, variant: string)
      modifies this
      ensures userVariants == old(userVariants)[testId := variant]
      ensures currentJourneyStep == old(currentJourneyStep) && activeTests == old(activeTests)
      ensures performanceMetrics == old(performanceMetrics) && feedbackItems == old(feedbackItems)
      ensures feedbackWidgetVisible == old(feedbackWidgetVisible) && accessibilityAudits == old(accessibilityAudits)
      ensures accessibilityScore == old(accessibilityScore) && errorReports == old(errorReports)
    {
      userVariants := userVariants[testId := variant];
    }

    method GetActiveVariant(testId: string) returns (r: Option<string>)
      ensures r == ActiveVariant(userVariants, testId)
    {
      r := ActiveVariant(userVariants, testId);
    }

    method RecordPerformanceMetric(metric: PerformanceMetric)
      modifies this
      ensures performanceMetrics == old(performanceMetrics) + [metric]
      ensures currentJourneyStep == old(currentJourneyStep) && activeTests == old(activeTests)
      ensures userVariants == old(userVariants) && feedbackItems == old(feedbackItems)
      ensures feedbackWidgetVisible == old(feedbackWidgetVisible) && accessibilityAudits == old(accessibilityAudits)
      ensures accessibilityScore == old(accessibilityScore) && errorReports == old(errorReports)
    {
      performanceMetrics := performanceMetrics + [metric];
    }

    /** Appends one item built from the draft; `id` and `now` stand for the clock. */
    method SubmitFeedback(draft: FeedbackDraft, id: string, now: string)
      modifies this
      ensures feedbackItems == old(feedbackItems) + [Submitted(draft, id, now)]
      ensures currentJourneyStep == old(currentJourneyStep) && activeTests == old(activeTests)
      ensures userVariants == old(userVariants) && performanceMetrics == old(performanceMetrics)
      ensures feedbackWidgetVisible == old(feedbackWidgetVisible) && accessibilityAudits == old(accessibilityAudits)
      ensures accessibilityScore == old(accessibilityScore) && errorReports == old(errorReports)
    {
      feedbackItems := feedbackItems + [Submitted(draft, id, now)];
    }

    method ToggleFeedbackWidget()
      modifies this
      ensures feedbackWidgetVisible == !old(feedbackWidgetVisible)
      ensures currentJourneyStep == old(currentJourneyStep) && activeTests == old(activeTests)
      ensures userVariants == old(userVariants) && performanceMetrics == old(performanceMetrics)
      ensures feedbackItems == old(feedbackItems) && accessibilityAudits == old(accessibilityAudits)
      ensures accessibilityScore == old(accessibilityScore) && errorReports == old(errorReports)
    {
      feedbackWidgetVisible := !feedbackWidgetVisible;
    }

    method RecordAccessibilityAudit(audit: Audit)
      modifies this
      ensures accessibilityAudits == old(accessibilityAudits) + [audit]
      ensures accessibilityScore == audit.score
      ensures currentJourneyStep == old(currentJourneyStep) && activeTests == old(activeTests)
      ensures userVariants == old(userVariants) && performanceMetrics == old(performanceMetrics)
      ensures feedbackItems == old(feedbackItems) && feedbackWidgetVisible == old(feedbackWidgetVisible)
      ensures errorReports == old(errorReports)
    {
      accessibilityAudits := accessibilityAudits + [audit];
      accessibilityScore := audit.score;
    }

    /** Appends one unresolved report built from the draft; the error service call is not
        modelled. */
    method ReportError(draft: ErrorDraft, id: string, now: string)
      modifies this
      ensures errorReports == old(errorReports) + [Reported(draft, id, now)]
      ensures currentJourneyStep == old(currentJourneyStep) && activeTests == old(activeTests)
      ensures userVariants == old(userVariants) && performanceMetrics == old(performanceMetrics)
      ensures feedbackItems == old(feedbackItems) && feedbackWidgetVisible == old(feedbackWidgetVisible)
      ensures accessibilityAudits == old(accessibilityAudits) && accessibilityScore == old(accessibilityScore)
    {
      errorReports := errorReports + [Reported(draft, id, now)];
    }
  }

  /** Two toggles in a row restore the widget's visibility and leave the rest alone. */
  method ToggleTwice(store: TestingStore)
    modifies store
    ensures store.feedbackWidgetVisible == old(store.feedbackWidgetVisible)
    ensures store.feedbackItems == old(store.feedbackItems) && store.userVariants == old(store.userVariants)
  {
    store.ToggleFeedbackWidget();
    store.ToggleFeedbackWidget();
  }
}
