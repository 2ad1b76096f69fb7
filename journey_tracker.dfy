/** The persona journey tracker: the journey step a page address, a form submission, a tracked
    button or a site event stands for, recorded in the testing store while a persona is known. */
module JourneyTracker {
  import opened Common
  import opened PersonalizationTypes
  import opened TestingStore

  /** The step of a page: the home page exactly, otherwise the first of the known path
      fragments the address contains, otherwise "unknown". */
  function StepForPath(path: string): (step: string)
    ensures path == "/" ==> step == "homepage_visit"
    ensures path != "/" && Contains(path, "/quiz") ==> step == "quiz_started"
    ensures path != "/" && !Contains(path, "/quiz") && Contains(path, "/email-capture") ==> step == "email_capture"
    ensures (path != "/" && !Contains(path, "/quiz") && !Contains(path, "/email-capture")
             && Contains(path, "/services")) ==> step == "services_viewed"
    ensures (path != "/" && !Contains(path, "/quiz") && !Contains(path, "/email-capture")
             && !Contains(path, "/services") && Contains(path, "/pricing")) ==> step == "pricing_viewed"
    ensures (path != "/" && !Contains(path, "/quiz") && !Contains(path, "/email-capture")
             && !Contains(path, "/services") && !Contains(path, "/pricing")
             && Contains(path, "/contact")) ==> step == "contact_initiated"
  {
    if path == "/" then "homepage_visit"
    else if Contains(path, "/quiz") then "quiz_started"
    else if Contains(path, "/email-capture") then "email_capture"
    else if Contains(path, "/services") then "services_viewed"
    else if Contains(path, "/pricing") then "pricing_viewed"
    else if Contains(path, "/contact") then "contact_initiated"
    else "unknown"
  }

  /** A path that names none of the known fragments is an unknown step. */
  lemma UnknownPath(path: string)
    requires path != "/" && !Contains(path, "/quiz") && !Contains(path, "/email-capture")
    requires !Contains(path, "/services") && !Contains(path, "/pricing") && !Contains(path, "/contact")
    ensures StepForPath(path) == "unknown"
  {
  }

  /** The first fragment wins: a path starting with "/quiz" is a started quiz, whatever
      follows it, a pricing fragment included. */
  lemma QuizBeforePricing(rest: string)
    ensures StepForPath("/quiz" + rest) == "quiz_started"
  {
    assert ("/quiz" + rest)[..5] == "/quiz";
    assert StartsWith("/quiz" + rest, "/quiz");
  }

  /** What the tracker listens to. An attribute value of `None` is a missing attribute. */
  datatype JourneyEvent =
    | PageView(path: string)
    | FormSubmit(formType: Option<string>)
    | ButtonClick(buttonType: Option<string>)
    | QuizCompleted
    | EmailCaptured
    | ServiceInquiry

  /** The step an event records, if any: a form or button without a non-empty type records
      nothing. */
  function StepFor(event: JourneyEvent): (step: Option<string>)
    ensures event.PageView? ==> step == Some(StepForPath(event.path))
    ensures event.FormSubmit? ==>
              (step.Some? <==> event.formType.Some? && event.formType.value != "")
              && (step.Some? ==> step.value == event.formType.value + "_submitted")
    ensures event.ButtonClick? ==>
              (step.Some? <==> event.buttonType.Some? && event.buttonType.value != "")
              && (step.Some? ==> step.value == event.buttonType.value + "_clicked")
  {
    match event
    case PageView(path) => Some(StepForPath(path))
    case FormSubmit(t) => if t.Some? && t.value != "" then Some(t.value + "_submitted") else None
    case ButtonClick(t) => if t.Some? && t.value != "" then Some(t.value + "_clicked") else None
    case QuizCompleted => Some("quiz_completed")
    case EmailCaptured => Some("email_captured")
    case ServiceInquiry => Some("service_inquiry_submitted")
  }

  /** The type can be read back from a recorded form step. */
  lemma FormStepRecoversType(formType: string)
    requires formType != ""
    ensures var step := StepFor(FormSubmit(Some(formType)));
            step.Some? && |step.value| == |formType| + 10 && step.value[..|formType|] == formType
  {
  }

  /** Handles one event: with no persona known nothing is recorded; otherwise the event's
      step, if it has one, becomes the store's current step. */
  method Track(store: TestingStore, persona: Option<PersonaProfile>, event: JourneyEvent)
    modifies store
    ensures persona.None? || StepFor(event).None? ==> store.currentJourneyStep == old(store.currentJourneyStep)
    ensures persona.Some? && StepFor(event).Some? ==> store.currentJourneyStep == StepFor(event)
    ensures store.userVariants == old(store.userVariants) && store.feedbackItems == old(store.feedbackItems)
    ensures store.errorReports == old(store.errorReports) && store.performanceMetrics == old(store.performanceMetrics)
    ensures store.activeTests == old(store.activeTests) && store.feedbackWidgetVisible == old(store.feedbackWidgetVisible)
    ensures store.accessibilityAudits == old(store.accessibilityAudits) && store.accessibilityScore == old(store.accessibilityScore)
  {
    if persona.None? {
      return;
    }
    var step := StepFor(event);
    if step.Some? {
      store.TrackJourneyStep(persona.value.persona.Slug(), step.value);
    }
  }
}
