/** The error tracker: the severity a JavaScript error message is given, and the reports built
    for uncaught errors and unhandled promise rejections. */
module ErrorTracker {
  import opened Common
  import opened TestingStore

  /** A message mentions a word when its lower-cased form contains it. */
  predicate Mentions(message: string, word: string)
  {
    Contains(Lower(message), word)
  }

  /** Network trouble outranks payment trouble, which outranks a null dereference; anything
      else is low. */
  function DetermineSeverity(message: string): (s: Severity)
    ensures s == MediumSeverity <==> Mentions(message, "network") || Mentions(message, "fetch")
    ensures s == CriticalSeverity <==>
              !(Mentions(message, "network") || Mentions(message, "fetch"))
              && (Mentions(message, "payment") || Mentions(message, "checkout"))
    ensures s == HighSeverity <==>
              !(Mentions(message, "network") || Mentions(message, "fetch"))
              && !(Mentions(message, "payment") || Mentions(message, "checkout"))
              && (Mentions(message, "cannot read") || Mentions(message, "undefined"))
  {
    var lower := Lower(message);
    if Contains(lower, "network") || Contains(lower, "fetch") then MediumSeverity
    else if Contains(lower, "payment") || Contains(lower, "checkout") then CriticalSeverity
    else if Contains(lower, "cannot read") || Contains(lower, "undefined") then HighSeverity
    else LowSeverity
  }

  /** The classification ignores case: lower-casing the message first changes nothing. */
  lemma SeverityIgnoresCase(message: string)
    ensures DetermineSeverity(Lower(message)) == DetermineSeverity(message)
  {
    LowerIdempotent(message);
  }

  /** A message naming the network in capitals, or capitalised, is rated medium even when
      it also names a payment. */
  lemma NetworkInAnyCase(message: string)
    requires Contains(message, "NETWORK") || Contains(message, "Network")
    ensures DetermineSeverity(message) == MediumSeverity
  {
    if Contains(message, "NETWORK") {
      ContainsLower(message, "NETWORK");
      LowerNetwork("NETWORK");
    } else {
      ContainsLower(message, "Network");
      LowerNetwork("Network");
    }
  }

  /** Any capitalisation of "network" lower-cases to "network". */
  lemma LowerNetwork(w: string)
    requires |w| == 7
    requires w[0] in "nN" && w[1] in "eE" && w[2] in "tT" && w[3] in "wW"
    requires w[4] in "oO" && w[5] in "rR" && w[6] in "kK"
    ensures Lower(w) == "network"
  {
    var r := Lower(w);
    assert r[0] == 'n' && r[1] == 'e' && r[2] == 't' && r[3] == 'w';
    assert r[4] == 'o' && r[5] == 'r' && r[6] == 'k';
  }

  /** What the page knows when an error arrives: its address, the browser's user agent and
      the current persona slug, if any. */
  datatype Environment = Environment(href: string, userAgent: string, persona: Option<string>)

  /** An uncaught error event; `stack` is the stack of the attached error, if any. */
  datatype ErrorEvent = ErrorEvent(message: string, stack: Option<string>, filename: string,
                                   lineno: Option<int>, colno: Option<int>)

  /** `x || d` on an optional value: an absent value and a falsy one both give the default. */
  function OrString(x: Option<string>, d: string): string
  {
    if x.Some? && x.value != "" then x.value else d
  }

  function OrNumber(x: Option<int>, d: int): int
  {
    if x.Some? && x.value != 0 then x.value else d
  }

  function ErrorDraftFor(event: ErrorEvent, env: Environment): (d: ErrorDraft)
    ensures d.message == event.message && d.severity == DetermineSeverity(event.message) && !d.resolved
    ensures d.url == (if event.filename != "" then event.filename else env.href)
    ensures d.lineNumber == (if event.lineno.Some? then event.lineno.value else 0)
    ensures d.columnNumber == (if event.colno.Some? then event.colno.value else 0)
    ensures d.stack == (if event.stack.Some? then event.stack.value else "")
    ensures d.userAgent == env.userAgent && d.persona == env.persona
  {
    ErrorDraft(event.message, OrString(event.stack, ""), if event.filename != "" then event.filename else env.href,
               OrNumber(event.lineno, 0), OrNumber(event.colno, 0), env.userAgent, env.persona,
               DetermineSeverity(event.message), false)
  }

  /** A rejection is always rated medium, at line and column 0 of the current page, with the
      reason (as text) after a fixed prefix. */
  function RejectionDraftFor(reason: string, reasonStack: Option<string>, env: Environment): (d: ErrorDraft)
    ensures d.severity == MediumSeverity && !d.resolved
    ensures d.message == "Unhandled Promise Rejection: " + reason
    ensures d.lineNumber == 0 && d.columnNumber == 0 && d.url == env.href
    ensures d.stack == (if reasonStack.Some? then reasonStack.value else "")
    ensures d.userAgent == env.userAgent && d.persona == env.persona
  {
    ErrorDraft("Unhandled Promise Rejection: " + reason, OrString(reasonStack, ""), env.href, 0, 0,
               env.userAgent, env.persona, MediumSeverity, false)
  }

  /** The rejection prefix can be stripped again: the reason is recoverable from the message. */
  lemma RejectionReasonRecoverable(reason: string, reasonStack: Option<string>, env: Environment)
    ensures var m := RejectionDraftFor(reason, reasonStack, env).message;
            |m| >= 29 && m[29..] == reason
  {
  }

  /** The error handler: one unresolved report per uncaught error. */
  method HandleError(store: TestingStore, event: ErrorEvent, env: Environment, id: string, now: string)
    modifies store
    ensures store.errorReports == old(store.errorReports) + [Reported(ErrorDraftFor(event, env), id, now)]
    ensures !store.errorReports[|store.errorReports| - 1].resolved
    ensures store.feedbackItems == old(store.feedbackItems) && store.userVariants == old(store.userVariants)
    ensures store.currentJourneyStep == old(store.currentJourneyStep) && store.activeTests == old(store.activeTests)
    ensures store.performanceMetrics == old(store.performanceMetrics)
    ensures store.feedbackWidgetVisible == old(store.feedbackWidgetVisible)
    ensures store.accessibilityAudits == old(store.accessibilityAudits)
    ensures store.accessibilityScore == old(store.accessibilityScore)
  {
    store.ReportError(ErrorDraftFor(event, env), id, now);
  }

  method HandleUnhandledRejection(store: TestingStore, reason: string, reasonStack: Option<string>, env: Environment, id: string, now: string)
    modifies store
    ensures store.errorReports == old(store.errorReports) + [Reported(RejectionDraftFor(reason, reasonStack, env), id, now)]
    ensures store.errorReports[|store.errorReports| - 1].severity == MediumSeverity
    ensures store.feedbackItems == old(store.feedbackItems) && store.userVariants == old(store.userVariants)
    ensures store.currentJourneyStep == old(store.currentJourneyStep) && store.activeTests == old(store.activeTests)
    ensures store.performanceMetrics == old(store.performanceMetrics)
    ensures store.feedbackWidgetVisible == old(store.feedbackWidgetVisible)
    ensures store.accessibilityAudits == old(store.accessibilityAudits)
    ensures store.accessibilityScore == old(store.accessibilityScore)
  {
    store.ReportError(RejectionDraftFor(reason, reasonStack, env), id, now);
  }
}
