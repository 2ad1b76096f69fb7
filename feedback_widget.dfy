/** The feedback widget: the form's rating and message normalisation, when the message box
    shows and when submitting is allowed, and the submit handler that files the feedback and
    resets the form. */
module FeedbackWidget {
  import opened Common
  import opened PersonalizationTypes
  import opened TestingStore

  /** The rating sent: thumbs become 1 or -1 by sign (0 counts as down), satisfaction keeps
      its stars, bug reports and feature requests carry none. */
  function SentRating(kind: FeedbackType, rating: int): (r: Option<int>)
    ensures kind == Thumbs ==> r == Some(if rating > 0 then 1 else -1)
    ensures kind == Satisfaction ==> r == Some(rating)
    ensures kind == Bug || kind == Feature ==> r == None
  {
    if kind == Satisfaction then Some(rating)
    else if kind == Thumbs then (if rating > 0 then Some(1) else Some(-1))
    else None
  }

  /** `message.trim() || undefined`. */
  function SentMessage(message: string): (r: Option<string>)
    ensures r.None? <==> Blank(message)
    ensures r.Some? ==> r.value == Trim(message) && r.value != []
  {
    var t := Trim(message);
    if t == [] then None else Some(t)
  }

  /** A sent message never starts or ends with white space. */
  lemma SentMessageTrimmed(message: string)
    ensures SentMessage(message).Some? ==>
              !IsSpace(SentMessage(message).value[0])
              && !IsSpace(SentMessage(message).value[|SentMessage(message).value| - 1])
  {
  }

  /** The message box shows for bug reports and feature requests, for thumbs once one is
      chosen, and for satisfaction once a star is chosen. */
  predicate MessageVisible(kind: FeedbackType, rating: int)
  {
    kind == Bug || kind == Feature || (kind == Thumbs && rating != 0) || (kind == Satisfaction && rating > 0)
  }

  predicate SubmitDisabled(kind: FeedbackType, rating: int, message: string, isSubmitting: bool)
  {
    isSubmitting || (kind != Thumbs && Blank(message)) || (kind == Thumbs && rating == 0)
    || (kind == Satisfaction && rating == 0)
  }

  /** The handler's own early return: any kind other than thumbs needs a message. */
  predicate Accepted(kind: FeedbackType, message: string)
  {
    !(Blank(message) && kind != Thumbs)
  }

  /** An enabled button never meets the handler's early return, rated kinds then carry a
      non-zero rating, and non-thumbs feedback always carries a message. */
  lemma EnabledSubmitIsAccepted(kind: FeedbackType, rating: int, message: string, isSubmitting: bool)
    requires !SubmitDisabled(kind, rating, message, isSubmitting)
    ensures Accepted(kind, message)
    ensures kind == Thumbs || kind == Satisfaction ==> SentRating(kind, rating).Some? && SentRating(kind, rating).value != 0
    ensures kind != Thumbs ==> SentMessage(message).Some?
  {
  }

  /** While no thumbs-down is held (a rating of at least 0), a hidden message box always comes
      with a disabled button: nothing can be sent that the visitor cannot see. */
  lemma HiddenBoxDisablesSubmit(kind: FeedbackType, rating: int, message: string, isSubmitting: bool)
    requires rating >= 0 && !MessageVisible(kind, rating)
    ensures SubmitDisabled(kind, rating, message, isSubmitting)
    ensures kind == Thumbs || kind == Satisfaction
  {
  }

  /** Switching the type keeps the rating, so a thumbs-down (-1) carried over to the star
      rating hides the message box while the button stays enabled, and the filed satisfaction
      rating is -1. */
  lemma CarriedThumbsDown(message: string)
    requires !Blank(message)
    ensures !MessageVisible(Satisfaction, -1)
    ensures !SubmitDisabled(Satisfaction, -1, message, false)
    ensures SentRating(Satisfaction, -1) == Some(-1)
  {
  }

  /** The draft a submission files; its status is new. */
  function DraftFor(kind: FeedbackType, rating: int, message: string, pageUrl: string, persona: Option<PersonaProfile>): (d: FeedbackDraft)
    ensures d.kind == kind && d.rating == SentRating(kind, rating) && d.message == SentMessage(message)
    ensures d.pageUrl == pageUrl && d.status == New && d.screenshot == None
    ensures d.persona == (if persona.Some? then Some(persona.value.persona.Slug()) else None)
  {
    FeedbackDraft(kind, SentRating(kind, rating), SentMessage(message), pageUrl,
                  if persona.Some? then Some(persona.value.persona.Slug()) else None, None, New)
  }

  class Widget {
    var feedbackType: FeedbackType
    var rating: int
    var message: string
    var isSubmitting: bool

    constructor()
      ensures feedbackType == Thumbs && rating == 0 && message == "" && !isSubmitting
    {
      feedbackType := Thumbs;
      rating := 0;
      message := "";
      isSubmitting := false;
    }

    /** The type buttons change only the type; the rating and the message are kept. */
    method SelectType(kind: FeedbackType)
      modifies this
      ensures feedbackType == kind
      ensures rating == old(rating) && message == old(message) && isSubmitting == old(isSubmitting)
    {
      feedbackType := kind;
    }

    /** The thumbs buttons (1 and -1) and the star buttons (1 to 5). */
    method SetRating(r: int)
      modifies this
      ensures rating == r
      ensures feedbackType == old(feedbackType) && message == old(message) && isSubmitting == old(isSubmitting)
    {
      rating := r;
    }

    method EditMessage(m: string)
      modifies this
      ensures message == m
      ensures feedbackType == old(feedbackType) && rating == old(rating) && isSubmitting == old(isSubmitting)
    {
      message := m;
    }

    /** Back to an empty thumbs form. */
    method Reset()
      modifies this
      ensures feedbackType == Thumbs && rating == 0 && message == "" && !isSubmitting
    {
      message := "";
      rating := 0;
      feedbackType := Thumbs;
      isSubmitting := false;
    }

    /** Files the form as feedback, resets it and flips the widget's visibility; a blank
        message on anything but thumbs returns at once. `pageUrl`, `id` and `now` stand for
        the location and the clock. */
    method HandleSubmit(store: TestingStore, persona: Option<PersonaProfile>, pageUrl: string, id: string, now: string)
      modifies this, store
      ensures !Accepted(old(feedbackType), old(message)) ==>
                feedbackType == old(feedbackType) && rating == old(rating) && message == old(message)
                && isSubmitting == old(isSubmitting)
                && store.feedbackItems == old(store.feedbackItems)
                && store.feedbackWidgetVisible == old(store.feedbackWidgetVisible)
      ensures Accepted(old(feedbackType), old(message)) ==>
                store.feedbackItems == old(store.feedbackItems)
                  + [Submitted(DraftFor(old(feedbackType), old(rating), old(message), pageUrl, persona), id, now)]
                && store.feedbackWidgetVisible == !old(store.feedbackWidgetVisible)
                && feedbackType == Thumbs && rating == 0 && message == "" && !isSubmitting
      ensures store.errorReports == old(store.errorReports) && store.userVariants == old(store.userVariants)
      ensures store.currentJourneyStep == old(store.currentJourneyStep) && store.activeTests == old(store.activeTests)
      ensures store.performanceMetrics == old(store.performanceMetrics)
      ensures store.accessibilityAudits == old(store.accessibilityAudits) && store.accessibilityScore == old(store.accessibilityScore)
    {
      if !Accepted(feedbackType, message) {
        return;
      }
      isSubmitting := true;
      var draft := DraftFor(feedbackType, rating, message, pageUrl, persona);
      store.SubmitFeedback(draft, id, now);
      Reset();
      store.ToggleFeedbackWidget();
    }
  }
}
