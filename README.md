# Ecommerce Outset — a verified model of its state stores and page rules

Ecommerce Outset is a marketing and client site for Amazon sellers. It is written in
TypeScript and React: zustand stores hold the visitor's personalization state and the
state of the automation, testing, Facebook-group and client-portal panels. Next to them,
a set of small pure rules decides what a page shows. This project models that core in
Dafny and proves what each piece promises.

- **Personalization** (`personalization_types`, `personalization_store`, `rule_engine`).
  - The store is a class. Its engagement score is clamped to 0–100 and its three-level
    engagement level is derived from the score.
  - `TrackBehavior` is gated on consent and adds points from the event table.
  - The store keeps a bounded, newest-first recommendation list and a list of applied rules
    with no duplicate ids.
  - The rule engine evaluates conditions and selects the active rules whose conditions all
    hold. It applies them in priority order, in a loop that drives the store.
- **Scoring tables** (`scoring_tables`): the quiz questions and their option weights, the
  lead-score points and caps, the lead-stage thresholds and the key coverage of the content
  tables. These are constants with lemmas about them.
- **State containers** (`automation_store`, `testing_store`, `facebook_store`, `portal_store`):
  classes whose methods state their whole new state.
- **Component rules.** Each component's logic is a function or a method with its partner
  lemmas:
  - A/B bucketing and variant precedence (`ab_testing`);
  - error severity (`error_tracker`) and the journey step of a path (`journey_tracker`);
  - feedback normalisation (`feedback_widget`) and the dashboard counts (`testing_dashboard`);
  - the recommendation pipeline (`smart_recommendations`, with `sorting`);
  - subject and CTA personalisation (`content_optimizer`);
  - persona evolution (`evolution_tracker`) and the dashboard toggle (`personalization_dashboard`);
  - scroll milestones (`behavioral_tracker`);
  - search filters (`template_library`, `communication_hub`);
  - syndication drafts (`syndication_manager`);
  - "time ago" (`group_bridge`) and badges (`member_journey`);
  - totals and first-wins reductions (`analytics_dashboard`, `persona_performance`);
  - hash routing and the once-per-session exit popup (`app_shell`).
  - Shared string and list helpers (trim, split, ASCII case folding, filter, sum) are in
    `common`.

Timestamps, generated ids, random draws, the viewport width, the scroll percentage and the
browser's storage are parameters of the model.

`trackBehavior` (store/personalization-store.ts:65-91) raises the score and stamps the
session's last activity; it keeps no record of the events themselves, and neither does the
model.

The recommendation filter compares the store's low/medium/high engagement level with the
catalogue's beginner/intermediate/advanced levels. These never match, so the model proves that
the list stays empty. The feedback form keeps its rating when the type is switched; the
lemma `FeedbackWidget.CarriedThumbsDown` states what follows from that.

## Model

| member | source | states |
|---|---|---|
| PersonalizationTypes.LevelNeverMatchesRecLevel | types/personalization.ts:44 | no low/medium/high level is spelled like a beginner/intermediate/advanced recommendation level |
| PersonalizationStore.Clamp | store/personalization-store.ts:50 | the new score always lies in [0, 100] and equals the input when the input is already in range |
| PersonalizationStore.LevelOf | store/personalization-store.ts:51 | low exactly below 30, high exactly from 70, medium between |
| PersonalizationStore.LevelOfMonotone | store/personalization-store.ts:50-51 | a higher score never gives a lower engagement level |
| PersonalizationStore.Increment | store/personalization-store.ts:70-79 | every event adds at least one point; an event missing from the table adds exactly one |
| PersonalizationStore.ScoreAfter | store/personalization-store.ts:79-80 | tracking never lowers the score, keeps it within 100, and leaves it unchanged only at 100 |
| PersonalizationStore.WithRecommendation | store/personalization-store.ts:55-58 | the new recommendation comes first, at most ten are kept, and the rest are the newest old ones in order |
| PersonalizationStore.TenNewRecommendationsReplaceAll | store/personalization-store.ts:57 | ten additions in a row replace the whole list, newest first |
| PersonalizationStore.AddAllShape | store/personalization-store.ts:57 | after up to ten additions the list is the additions newest first followed by the surviving prefix of the old list |
| PersonalizationStore.WithRuleProperties | store/personalization-store.ts:60-63 | applying a rule keeps rule ids distinct, keeps every rule with another id, and leaves the new rule as the only one with its id |
| PersonalizationStore.WithRuleIdempotent | store/personalization-store.ts:62 | applying the same rule twice equals applying it once |
| PersonalizationStore.PersonalizedContent | store/personalization-store.ts:105-115 | no persona gives nothing; otherwise only stored recommendations of the asked type for that persona and level |
| PersonalizationStore.PersonalizedContentAlwaysEmpty | store/personalization-store.ts:113 | because the store's low/medium/high level never equals a beginner/intermediate/advanced recommendation level, the result is always empty |
| PersonalizationStore.Store.constructor | store/personalization-store.ts:34-41 | the initial state: no persona, score 0, level low, personalization on, no consent |
| PersonalizationStore.Store.SetPersona | store/personalization-store.ts:43-47 | sets the persona and changes nothing else |
| PersonalizationStore.Store.UpdateEngagementScore | store/personalization-store.ts:49-53 | stores the clamped score and its level together |
| PersonalizationStore.Store.AddRecommendation | store/personalization-store.ts:55-58 | the list becomes the bounded newest-first list; nothing else changes |
| PersonalizationStore.Store.ApplyRule | store/personalization-store.ts:60-63 | the rules become the de-duplicated list with the rule last; nothing else changes |
| PersonalizationStore.Store.TrackBehavior | store/personalization-store.ts:65-91 | without consent or with personalization off nothing changes; otherwise the score becomes the clamped sum with the event's increment and the session's last activity is stamped |
| PersonalizationStore.Store.SetConsentGiven | store/personalization-store.ts:93 | sets consent and changes nothing else |
| PersonalizationStore.Store.ResetPersonalization | store/personalization-store.ts:95-103 | clears persona, session, lists and score (level low) and keeps the consent and enable switches |
| RuleEngine.PredefinedRulesDistinct | components/personalization/rule-engine.tsx:10-76 | the five predefined rules have distinct ids |
| RuleEngine.CompareValues | components/personalization/rule-engine.tsx:128-139 | equals, greater_than and less_than compare numerically; any other operator fails |
| RuleEngine.DeviceType | components/personalization/rule-engine.tsx:141-144 | "mobile" exactly when there is a window narrower than 768 pixels, otherwise "desktop" |
| RuleEngine.EvaluateCondition | components/personalization/rule-engine.tsx:112-126 | persona conditions compare the persona slug, engagement conditions compare the score, behaviour conditions always hold, device conditions compare the device type, time and page conditions never hold |
| RuleEngine.SelectRulesSpec | components/personalization/rule-engine.tsx:97-105 | a round selects exactly the active rules whose every condition holds, in non-increasing priority |
| RuleEngine.ReturnVisitorAlwaysApplies | components/personalization/rule-engine.tsx:65-75 | the return-visitor rule has only a behaviour condition, so every round selects it |
| RuleEngine.AtMostOnePersonaRule | components/personalization/rule-engine.tsx:10-53 | at most one of the three persona rules is selected in a round |
| RuleEngine.StartupSamOnMobile | components/personalization/rule-engine.tsx:93-110 | a startup-sam visitor at 80 points on a 400-pixel screen gets the launch rule, the return-visitor rule and the mobile rule, in that order |
| RuleEngine.StartupSamOnMobileMatches | components/personalization/rule-engine.tsx:97-101 | for that visitor the filter keeps the launch, mobile and return-visitor rules in list order |
| RuleEngine.SortLaunchMobileReturn | components/personalization/rule-engine.tsx:104-105 | the priority sort puts priority 6 before priority 5 |
| RuleEngine.ApplyAllDistinct | components/personalization/rule-engine.tsx:106-109 | applying rules one after another keeps applied rule ids distinct |
| RuleEngine.ApplyAllEndsWithLast | components/personalization/rule-engine.tsx:106-109 | after a round the last rule applied is last in the applied list |
| RuleEngine.ApplyAllSnoc | components/personalization/rule-engine.tsx:106-109 | applying a list and then one more rule equals applying the extended list |
| RuleEngine.RoundScore | components/personalization/rule-engine.tsx:106-109 | one round raises the score by at least one point, capped at 100 |
| RuleEngine.IterateClimbs | components/personalization/rule-engine.tsx:110 | a step that always gains a point reaches 100 within 100 steps and stays in range |
| RuleEngine.RoundsReachMax | components/personalization/rule-engine.tsx:93-110 | the effect re-runs whenever the score changes, so with consent the score reaches 100 after at most 100 rounds |
| RuleEngine.ApplyInOrder | components/personalization/rule-engine.tsx:106-109 | applies each rule in order and tracks a one-point event after each |
| RuleEngine.RunRound | components/personalization/rule-engine.tsx:93-110 | without consent or with personalization off nothing happens; otherwise the rules selected from the state at the start of the round are applied in priority order and the score rises by their number |
| ScoringTables.CrmKnownWithinCap | constants.ts:413-418 | a CRM mapping for business-stage fit (at most 10) or budget fit (at most 15) names a demographic category and stays within that category's points |
| ScoringTables.ScoresWellFormedEach | constants.ts:277-394 | a well-formed persona-points list gives every entry non-negative points for a concrete persona |
| ScoringTables.CrmWellFormedEach | constants.ts:277-394 | a well-formed CRM list names only the two known demographic categories, each within its points |
| ScoringTables.Q1WellFormed | constants.ts:278-289 | the status question's options are numbered a1, a2, … and give non-negative points to concrete personas with known CRM mappings |
| ScoringTables.Q2WellFormed | constants.ts:290-301 | the revenue question's options are numbered b1 to b5 and are well formed |
| ScoringTables.Q3WellFormed | constants.ts:302-312 | the learning-style question's options are numbered c1, c2, … and are well formed |
| ScoringTables.Q4WellFormed | constants.ts:313-324 | the biggest-challenge question's options are numbered d1, d2, … and are well formed |
| ScoringTables.Q5WellFormed | constants.ts:325-338 | the capital question's options are numbered e1 to e6 and are well formed |
| ScoringTables.Q6WellFormed | constants.ts:339-349 | the role-preference question's options are numbered f1, f2, … and are well formed |
| ScoringTables.Q7WellFormed | constants.ts:350-360 | the decision-making question's options are numbered g1, g2, … and are well formed |
| ScoringTables.Q8WellFormed | constants.ts:361-371 | the timeline question's options are numbered h1, h2, … and are well formed |
| ScoringTables.Q9WellFormed | constants.ts:372-382 | the support-preference question's options are numbered i1, i2, … and are well formed |
| ScoringTables.Q10WellFormed | constants.ts:383-393 | the long-term-goal question's options are numbered j1, j2, … and are well formed |
| ScoringTables.QuizWellFormed | constants.ts:277-394 | the k-th question of the quiz is well formed under the k-th letter |
| ScoringTables.OptionWellFormedAt | constants.ts:277-394 | every option of every question gives non-negative points to one of the five concrete personas, never to a fallback id, and every CRM mapping stays within its demographic category's cap |
| ScoringTables.ShapedIdsDiffer | constants.ts:277-394 | two options of well-formed questions differ in id when their letters or their positions differ |
| ScoringTables.OptionIdsDistinct | constants.ts:277-394 | no two options of the whole quiz share an id |
| ScoringTables.QuestionIdsDistinct | constants.ts:277-394 | the ten question ids are pairwise distinct |
| ScoringTables.SkippableAndSensitive | constants.ts:299-337 | a question is skippable exactly when it is the revenue or the capital question, and sensitive exactly when it is the capital question |
| ScoringTables.LeadScoringCaps | constants.ts:396-425 | the behavioural, demographic and engagement-quality caps add up to 100, and no item of a table is worth more than that table's cap |
| ScoringTables.StageThresholdsOrdered | constants.ts:427-436 | stage thresholds never decrease along the stage order, start at 0, give the two sales stages the same 81, and no score reaches the customer or advocate stage; meeting a later stage's threshold means meeting every earlier one |
| ScoringTables.KeyCoverage | constants.ts:556-595 | the exit-offer table has every persona id, the headline table every persona id plus "default" and "returning", and the CTA table every engagement level |
| ScoringTables.HeadlineKeysNameTheirEntry | constants.ts:566-576 | the headline shown for a persona id carries the key "headline_" followed by that id |
| ScoringTables.ConcreteHeadlineKeys | constants.ts:569-573 | the same for the five concrete personas |
| ScoringTables.FirstHeadlineKeys | constants.ts:569-570 | the same for launch and scale |
| ScoringTables.LaterHeadlineKeys | constants.ts:571-573 | the same for master, invest and connect |
| ScoringTables.FallbackHeadlineKeys | constants.ts:574-575 | the same for the unknown and default-exit ids |
| ScoringTables.CtaKeysNameTheirEntry | constants.ts:578-595 | the hero and quiz-prompt CTAs of an engagement level carry the keys "cta_hero_" and "cta_quiz_" followed by that level |
| ScoringTables.CtaHeroKeys | constants.ts:578-595 | the hero CTA key of each level ends in the level |
| ScoringTables.CtaQuizKeys | constants.ts:578-595 | the quiz-prompt CTA key of each level ends in the level |
| TestingStore.ActiveVariant | store/testing-store.ts:169-172 | a test has a variant exactly when one is assigned and it is not the empty string, and then it is the assigned one |
| TestingStore.VariantRoundTrip | store/testing-store.ts:79-86 | reading a test back after assigning a non-empty variant gives that variant, an empty one reads as none, and other tests read as before |
| TestingStore.Submitted | store/testing-store.ts:110-116 | a submitted item takes the clock's id and time, is always new whatever the draft said, and keeps every other field of the draft |
| TestingStore.Reported | store/testing-store.ts:145-151 | a reported error takes the clock's id and time, is unresolved, and keeps every other field of the draft |
| TestingStore.TestingStore.constructor | store/testing-store.ts:51-62 | the store starts with no journey step, no variants, empty logs, a hidden widget and an accessibility score of 0 |
| TestingStore.TestingStore.TrackJourneyStep | store/testing-store.ts:64-77 | the current journey step becomes the given step; nothing else changes |
| TestingStore.TestingStore.SetABTestVariant | store/testing-store.ts:79-91 | the test's variant is overwritten with the given one; no other field changes |
| TestingStore.TestingStore.GetActiveVariant | store/testing-store.ts:169-172 | returns the test's active variant and changes nothing |
| TestingStore.TestingStore.RecordPerformanceMetric | store/testing-store.ts:93-108 | the metric is appended to the performance log; nothing else changes |
| TestingStore.TestingStore.SubmitFeedback | store/testing-store.ts:110-130 | exactly one new item built from the draft is appended to the feedback log; nothing else changes |
| TestingStore.TestingStore.ToggleFeedbackWidget | store/testing-store.ts:132-136 | the widget's visibility flips; nothing else changes |
| TestingStore.TestingStore.RecordAccessibilityAudit | store/testing-store.ts:138-143 | the audit is appended and its score becomes the current accessibility score; nothing else changes |
| TestingStore.TestingStore.ReportError | store/testing-store.ts:145-167 | exactly one unresolved report built from the draft is appended to the error log; nothing else changes |
| TestingStore.ToggleTwice | store/testing-store.ts:132-136 | two toggles restore the widget's visibility and leave the feedback log and the variants alone |
| AutomationStore.WithEvent | store/automation-store.ts:46 | the new event comes first, followed by the newest earlier events, and the log holds at most 100 |
| AutomationStore.WithEventDropsOldest | store/automation-store.ts:46 | a log below the bound only gains the event; a full log loses exactly its oldest event |
| AutomationStore.WithWorkflowStatus | store/automation-store.ts:51-54 | length and order are kept; a workflow with the id gets the new status and nothing else, every other workflow is unchanged |
| AutomationStore.WithWorkflowStatusIdempotent | store/automation-store.ts:61-67 | setting a status twice equals setting it once, so pausing a paused workflow or resuming an active one changes nothing more |
| AutomationStore.WithWorkflowStatusKeepsIds | store/automation-store.ts:51-54 | every logged event that named a known workflow still does after a status update |
| AutomationStore.WithPlatformStatus | store/automation-store.ts:56-59 | length and order are kept; a platform with the id gets the new status and nothing else, every other platform is unchanged |
| AutomationStore.Deployed | store/automation-store.ts:77-85 | the deployed workflow carries the template's workflow fields, the new id and time, status active, no runs, a zero success rate and a zero average processing time |
| AutomationStore.Triggered | store/automation-store.ts:100-108 | the logged run names the workflow and is processing, with zero processing time, zero retries and no error |
| AutomationStore.AutomationStore.constructor | store/automation-store.ts:35-42 | the store starts empty, not loading, with no selected workflow |
| AutomationStore.AutomationStore.SetPlatforms | store/automation-store.ts:44 | replaces the platforms and nothing else |
| AutomationStore.AutomationStore.SetWorkflows | store/automation-store.ts:45 | replaces the workflows and nothing else |
| AutomationStore.AutomationStore.SetTemplates | store/automation-store.ts:47 | replaces the templates and nothing else |
| AutomationStore.AutomationStore.SetSelectedWorkflow | store/automation-store.ts:49 | replaces the selected workflow and nothing else |
| AutomationStore.AutomationStore.AddEvent | store/automation-store.ts:46 | the log becomes the bounded newest-first log with the event added; the log stays within 100 events and nothing else changes |
| AutomationStore.AutomationStore.UpdateWorkflowStatus | store/automation-store.ts:51-54 | the workflows become their status-updated list; nothing else changes |
| AutomationStore.AutomationStore.UpdatePlatformStatus | store/automation-store.ts:56-59 | the platforms become their status-updated list; nothing else changes |
| AutomationStore.AutomationStore.PauseWorkflow | store/automation-store.ts:61-63 | the matching workflows become paused; nothing else changes |
| AutomationStore.AutomationStore.ResumeWorkflow | store/automation-store.ts:65-67 | the matching workflows become active; nothing else changes |
| AutomationStore.AutomationStore.DeployTemplate | store/automation-store.ts:69-94 | a known template appends exactly one workflow deployed from the first template with that id, an unknown one changes no workflow, and loading is off afterwards |
| AutomationStore.AutomationStore.TriggerWorkflow | store/automation-store.ts:96-110 | an unknown workflow logs nothing; a known one logs exactly one processing run, newest first, within the bound |
| PortalStore.WithRead | store/portal-store.ts:35-38 | length and order are kept; notifications with the id become read and are otherwise unchanged, every other notification is unchanged |
| PortalStore.WithReadIdempotent | store/portal-store.ts:35-38 | marking twice equals marking once, and no read notification becomes unread |
| PortalStore.WithReadUnreadCount | store/portal-store.ts:35-38 | the unread count drops by exactly the number of unread notifications with the id, so it never rises |
| PortalStore.WithIntegrationStatus | store/portal-store.ts:40-43 | length and order are kept; integrations of the platform get the new status, every other integration is unchanged |
| PortalStore.PortalStore.constructor | store/portal-store.ts:20-24 | the store starts with no client, no integrations, no metrics, no notifications and not loading |
| PortalStore.PortalStore.SetCurrentClient | store/portal-store.ts:26 | the client becomes current; nothing else changes |
| PortalStore.PortalStore.UpdateProgressMetrics | store/portal-store.ts:28 | the metrics are replaced; nothing else changes |
| PortalStore.PortalStore.AddNotification | store/portal-store.ts:30-33 | the notification is put first and the rest keep their order; nothing else changes |
| PortalStore.PortalStore.MarkNotificationRead | store/portal-store.ts:35-38 | the notifications become their marked list and the unread count does not rise; nothing else changes |
| PortalStore.PortalStore.UpdateIntegrationStatus | store/portal-store.ts:40-43 | the integrations become their status-updated list; nothing else changes |
| FacebookStore.PersonaFilteredPosts | store/facebook-integration-store.ts:121-124 | every returned post is a recent post tagged with the persona, and every tagged recent post is returned |
| FacebookStore.PersonaFilteredPostsOrdered | store/facebook-integration-store.ts:121-124 | the result keeps the original order, and no post without a persona list is in it |
| FacebookStore.WithSyndicationStatus | store/facebook-integration-store.ts:52-55 | length and order are kept; items with the id get the new status, every other item is unchanged |
| FacebookStore.UnknownSyndicationUnchanged | store/facebook-integration-store.ts:52-55 | an id no item carries changes nothing |
| FacebookStore.FacebookStore.constructor | store/facebook-integration-store.ts:29-38 | the store starts with no stats, no posts, no members, no syndications, not connected and never synced |
| FacebookStore.FacebookStore.SetGroupStats | store/facebook-integration-store.ts:40 | replaces the group statistics and nothing else |
| FacebookStore.FacebookStore.SetRecentPosts | store/facebook-integration-store.ts:41 | replaces the recent posts and nothing else |
| FacebookStore.FacebookStore.SetFeaturedPosts | store/facebook-integration-store.ts:42 | replaces the featured posts and nothing else |
| FacebookStore.FacebookStore.SetGroupMembers | store/facebook-integration-store.ts:43 | replaces the group members and nothing else |
| FacebookStore.FacebookStore.SetIsGroupMember | store/facebook-integration-store.ts:44 | replaces the membership flag and nothing else |
| FacebookStore.FacebookStore.SetUserFacebookId | store/facebook-integration-store.ts:45 | replaces the user's Facebook id and nothing else |
| FacebookStore.FacebookStore.SetIsConnected | store/facebook-integration-store.ts:57 | replaces the connection flag and nothing else |
| FacebookStore.FacebookStore.AddContentSyndication | store/facebook-integration-store.ts:47-50 | the item is put first and the rest keep their order; nothing else changes |
| FacebookStore.FacebookStore.UpdateSyndicationStatus | store/facebook-integration-store.ts:52-55 | the syndications become their status-updated list; nothing else changes |
| FacebookStore.FacebookStore.GetPersonaFilteredPosts | store/facebook-integration-store.ts:121-124 | returns the persona-filtered recent posts and changes no field |
| ABTesting.Bucket | components/testing/ab-testing-framework.tsx:68-77 | the draw lands in the first test variant exactly below the split, in the second exactly from the split to below twice the split, and in the control otherwise |
| ABTesting.BucketThirds | components/testing/ab-testing-framework.tsx:68-77 | with the 33 split, draws below 33 give the first test variant, draws from 33 to below 66 the second, and the rest the control |
| ABTesting.ActiveTestsSplit | components/testing/ab-testing-framework.tsx:13-47 | every running test splits 33 and the three test ids are distinct |
| ABTesting.Saved | components/testing/ab-testing-framework.tsx:63-64 | a stored copy counts exactly when it exists under the test's storage key and is not empty, and then it is that copy |
| ABTesting.StepPrecedence | components/testing/ab-testing-framework.tsx:57-81 | a variant the store holds is kept; otherwise the stored copy wins over a fresh draw, and only then is the draw bucketed; other tests are left alone |
| ABTesting.AssignAllKeeps | components/testing/ab-testing-framework.tsx:58-61 | a test that already has a variant keeps it through the whole loop |
| ABTesting.AssignAllComplete | components/testing/ab-testing-framework.tsx:57-85 | after the loop every running test has a non-empty variant |
| ABTesting.Framework.constructor | components/testing/ab-testing-framework.tsx:51 | the framework starts uninitialised |
| ABTesting.Framework.Initialize | components/testing/ab-testing-framework.tsx:53-88 | a second run changes no variant; a first run leaves the store's variants equal to the loop's assignment over the three tests and changes no other store field; either way the framework is initialised afterwards |
| ErrorTracker.DetermineSeverity | components/testing/error-tracker.tsx:74-88 | medium exactly when the lower-cased message mentions network or fetch; critical exactly when it does not but mentions payment or checkout; high exactly when it mentions neither but mentions cannot read or undefined; low otherwise |
| ErrorTracker.SeverityIgnoresCase | components/testing/error-tracker.tsx:75 | lower-casing the message first never changes its severity |
| ErrorTracker.NetworkInAnyCase | components/testing/error-tracker.tsx:75-79 | a message containing "NETWORK" or "Network" is medium, even when it also mentions a payment |
| ErrorTracker.LowerNetwork | components/testing/error-tracker.tsx:75 | every capitalisation of "network" lower-cases to "network" |
| ErrorTracker.ErrorDraftFor | components/testing/error-tracker.tsx:19-31 | the report of an uncaught error keeps its message, is unresolved, takes its severity from the message, falls back to the page address for a missing file name, to an empty stack and to line and column 0 |
| ErrorTracker.RejectionDraftFor | components/testing/error-tracker.tsx:34-46 | the report of a rejection is medium and unresolved, at line and column 0 of the current page, with the reason after the fixed prefix |
| ErrorTracker.RejectionReasonRecoverable | components/testing/error-tracker.tsx:36 | the reason is exactly what follows the 29-character prefix of the message |
| ErrorTracker.HandleError | components/testing/error-tracker.tsx:19-31 | appends exactly one unresolved report built from the event and leaves every other store field unchanged |
| ErrorTracker.HandleUnhandledRejection | components/testing/error-tracker.tsx:34-46 | appends exactly one medium report built from the reason and leaves every other store field unchanged |
| JourneyTracker.StepForPath | components/testing/persona-journey-tracker.tsx:21-31 | the home page is a homepage visit; any other address is the step of the first of quiz, email capture, services, pricing and contact it contains |
| JourneyTracker.UnknownPath | components/testing/persona-journey-tracker.tsx:23 | an address naming none of the known fragments is the unknown step |
| JourneyTracker.QuizBeforePricing | components/testing/persona-journey-tracker.tsx:27 | an address starting with the quiz path is a started quiz whatever follows it |
| JourneyTracker.StepFor | components/testing/persona-journey-tracker.tsx:37-69 | a page view records its path's step; a form or button records a step exactly when it carries a non-empty type, and then the type followed by "_submitted" or "_clicked" |
| JourneyTracker.FormStepRecoversType | components/testing/persona-journey-tracker.tsx:42 | the form type is the prefix of its step and the step is ten characters longer |
| JourneyTracker.Track | components/testing/persona-journey-tracker.tsx:17-89 | without a persona nothing is recorded; with one, an event that has a step makes it the current step and one without leaves the step alone; no other store field changes |
| FeedbackWidget.SentRating | components/testing/user-feedback-widget.tsx:27 | thumbs send 1 for a positive rating and -1 otherwise, satisfaction sends its rating, bug reports and feature requests send none |
| FeedbackWidget.SentMessage | components/testing/user-feedback-widget.tsx:28 | a blank message is sent as none; any other is sent trimmed and non-empty |
| FeedbackWidget.SentMessageTrimmed | components/testing/user-feedback-widget.tsx:28 | a sent message neither starts nor ends with white space |
| FeedbackWidget.EnabledSubmitIsAccepted | components/testing/user-feedback-widget.tsx:173-180 | whenever the button is enabled the handler's early return is not taken, thumbs and satisfaction carry a non-zero rating, and every other kind carries a message |
| FeedbackWidget.DraftFor | components/testing/user-feedback-widget.tsx:25-32 | the draft carries the form's kind, its sent rating and message, the page, the current persona's slug if any, no screenshot and the new status |
| FeedbackWidget.Widget.constructor | components/testing/user-feedback-widget.tsx:15-18 | the form starts as an empty thumbs form with no rating and not submitting |
| FeedbackWidget.Widget.Reset | components/testing/user-feedback-widget.tsx:35-38 | the form returns to an empty thumbs form with no rating and not submitting |
| FeedbackWidget.Widget.HandleSubmit | components/testing/user-feedback-widget.tsx:20-45 | a blank message on anything but thumbs changes nothing; otherwise exactly one item built from the form is filed, the form is reset and the widget's visibility flips |
| FeedbackWidget.HiddenBoxDisablesSubmit | components/testing/user-feedback-widget.tsx:151-180 | without a carried thumbs-down, a hidden message box means a thumbs or star form whose button is disabled |
| FeedbackWidget.CarriedThumbsDown | components/testing/user-feedback-widget.tsx:99-180 | a thumbs-down carried into the star form hides the message box, leaves the button enabled and files a satisfaction rating of -1 |
| FeedbackWidget.Widget.SelectType | components/testing/user-feedback-widget.tsx:99 | a type button changes the type and keeps the rating and the message |
| FeedbackWidget.Widget.SetRating | components/testing/user-feedback-widget.tsx:114-138 | a thumbs or star button sets the rating and nothing else |
| FeedbackWidget.Widget.EditMessage | components/testing/user-feedback-widget.tsx:165 | typing replaces the message and nothing else |
| TestingDashboard.PositiveFeedback | components/testing/testing-dashboard.tsx:20 | the number of items with a present, positive rating, never more than the items |
| TestingDashboard.ActiveBugs | components/testing/testing-dashboard.tsx:21 | the number of unresolved reports, never more than the reports |
| TestingDashboard.RunningTests | components/testing/testing-dashboard.tsx:22 | the number of active tests, never more than the tests |
| TestingDashboard.CountAppend | components/testing/testing-dashboard.tsx:20-22 | appending an item raises a count by one exactly when the item passes the test |
| TestingDashboard.ReportedErrorIsActive | components/testing/testing-dashboard.tsx:21 | a newly reported error is always an open bug: reporting raises the count by exactly one |
| TestingDashboard.PositivePercentage | components/testing/testing-dashboard.tsx:64 | the percentage lies in [0, 100] and is 0 without feedback |
| TestingDashboard.PercentageRounds | components/testing/testing-dashboard.tsx:64 | the percentage is the exact positive share times 100 rounded to the nearest integer, halves up |
| TestingDashboard.PercentageNearestOffHalves | components/testing/testing-dashboard.tsx:64 | away from half-way values the percentage is the one integer strictly within half a point of the positive share |
| TestingDashboard.PercentageExtremes | components/testing/testing-dashboard.tsx:64 | all feedback positive gives 100, none gives 0 |
| SmartRecommendations.Shown | components/personalization/smart-recommendations.tsx:74-83 | every entry shown is a catalogue entry that lists the persona, has the store's level and was not dismissed; they come highest priority first; for a non-negative limit exactly the limit or all the matches are shown, whichever is fewer |
| SmartRecommendations.ShownAreTopPriorities | components/personalization/smart-recommendations.tsx:82-83 | no match left out by the limit has a higher priority than any entry shown |
| SmartRecommendations.ShownAlwaysEmpty | components/personalization/smart-recommendations.tsx:21-78 | the store's low/medium/high never equal the catalogue's beginner/intermediate/advanced, so nothing is ever shown |
| SmartRecommendations.AddAllSnoc | components/personalization/smart-recommendations.tsx:88 | adding a list one entry at a time ends where adding all but the last and then the last ends |
| SmartRecommendations.Widget.constructor | components/personalization/smart-recommendations.tsx:67-68 | the widget starts with nothing shown and nothing dismissed |
| SmartRecommendations.Widget.Refresh | components/personalization/smart-recommendations.tsx:70-89 | without a persona nothing changes; otherwise the shown list is recomputed and each entry is added to the store in order; no other store field changes |
| SmartRecommendations.Widget.HandleRecommendationClick | components/personalization/smart-recommendations.tsx:91-97 | with consent and personalization on the score rises by one point up to 100 and the session's last activity is stamped, otherwise score and session are unchanged; persona, recommendations, rules and both switches are kept |
| SmartRecommendations.Widget.HandleDismiss | components/personalization/smart-recommendations.tsx:99-102 | the id is remembered after the earlier ones, and when tracking is allowed the score rises by one point up to 100 and the session's last activity is stamped, otherwise score and session are unchanged; persona, recommendations, rules and both switches are kept |
| SmartRecommendations.AddEach | components/personalization/smart-recommendations.tsx:88 | the store's recommendations become those after adding each entry in order; no other store field changes |
| Sorting.InsertDesc | components/personalization/smart-recommendations.tsx:82 | inserting keeps every element and adds exactly the new one |
| Sorting.InsertDescSorted | components/personalization/smart-recommendations.tsx:82 | inserting into a descending list keeps it descending |
| Sorting.SortDesc | components/personalization/smart-recommendations.tsx:82 | the result is a permutation of the input in descending key order |
| Sorting.InsertDescStable | components/personalization/smart-recommendations.tsx:82 | inserting puts the new element first among the elements sharing its key and keeps their order |
| Sorting.SortDescStable | components/personalization/smart-recommendations.tsx:82 | elements with equal keys keep their original order, as the language's sort guarantees |
| Sorting.SortDescMembers | components/personalization/smart-recommendations.tsx:82 | an element is in the sorted list exactly when it is in the input |
| Sorting.PrefixKeepsTop | components/personalization/smart-recommendations.tsx:82-83 | whatever a cut of a sorted list drops has a key no higher than anything kept |
| ContentOptimizer.OptimizeEmailSubject | components/personalization/ai-content-optimizer.tsx:13-24 | a known persona slug puts its prefix before the subject; any other slug leaves the subject as it was |
| ContentOptimizer.SubjectKept | components/personalization/ai-content-optimizer.tsx:15-23 | the original subject always ends the result, and each of the five persona slugs has a prefix |
| ContentOptimizer.PersonalizedCta | components/personalization/ai-content-optimizer.tsx:26-56 | a known persona and context give that persona's text for the context; anything else gives "Learn More" |
| ContentOptimizer.CtaTemplatesComplete | components/personalization/ai-content-optimizer.tsx:27-53 | each of the five personas has a text for service, content and pricing |
| ContentOptimizer.CtaContext | components/personalization/ai-content-optimizer.tsx:77 | a present, non-empty attribute is the context; otherwise it is "service" |
| ContentOptimizer.HiddenBands | components/personalization/ai-content-optimizer.tsx:84-92 | nothing is hidden from a visitor between 30 and 70 points, nor content of any other level than beginner or advanced |
| ContentOptimizer.OptimizePage | components/personalization/ai-content-optimizer.tsx:62-96 | the pass runs exactly when consent is given, personalization is on and a persona is known; each subject, CTA and level element then gets the subject, text and hidden flag its rule gives |
| EvolutionTracker.Predictions | components/personalization/persona-evolution-tracker.tsx:43 | exactly the predictions that start from the persona, each taken from the data |
| EvolutionTracker.PredictionsOrdered | components/personalization/persona-evolution-tracker.tsx:43 | the predictions keep the data's order |
| EvolutionTracker.PredictionsPerPersona | components/personalization/persona-evolution-tracker.tsx:18-43 | startup-sam and learning-larry have one prediction each; the other three personas have none |
| EvolutionTracker.PersonaIcon | components/personalization/persona-evolution-tracker.tsx:61-70 | a listed persona gets its icon, anything else the default figure |
| EvolutionTracker.IconsDistinct | components/personalization/persona-evolution-tracker.tsx:62-69 | no persona gets the default icon and no two personas share one |
| EvolutionTracker.GrowthStage | components/personalization/persona-evolution-tracker.tsx:152 | Early exactly below 30, Growing exactly from 30 to below 70, Advanced exactly from 70 |
| EvolutionTracker.BadgeVariant | components/personalization/persona-evolution-tracker.tsx:103 | the badge is highlighted exactly above 70 percent, otherwise secondary |
| EvolutionTracker.TwoWordDisplayName | components/personalization/persona-evolution-tracker.tsx:54-59 | a two-word slug reads as its two words capitalised with a space between |
| EvolutionTracker.RunsReachMax | components/personalization/persona-evolution-tracker.tsx:39-52 | with consent the effect re-runs on the score it raises, so after n runs the score has risen by n, and it settles at 100 |
| EvolutionTracker.Tracker.constructor | components/personalization/persona-evolution-tracker.tsx:37 | the tracker starts with no predictions |
| EvolutionTracker.Tracker.Refresh | components/personalization/persona-evolution-tracker.tsx:39-52 | without a persona nothing changes; otherwise the predictions are recomputed and, when tracking is allowed, the score rises by one up to 100 and the session's last activity is stamped; persona, recommendations, rules and both switches are kept |
| PersonalizationDashboard.HandleTogglePersonalization | components/personalization/personalization-dashboard.tsx:29-34 | consent becomes the switch's value; switching off also clears the score, level, rules, recommendations, persona and session, switching on keeps them |
| PersonalizationDashboard.SwitchOffThenTrack | components/personalization/personalization-dashboard.tsx:29-34 | after switching off, a further event leaves the score at 0 and the level low |
| PersonalizationDashboard.EngagementColor | components/personalization/personalization-dashboard.tsx:36-45 | green exactly for high, yellow exactly for medium, grey for anything else |
| PersonalizationDashboard.LevelColorsDistinct | components/personalization/personalization-dashboard.tsx:36-45 | the store's three levels get three different colours, low the grey one |
| PersonalizationDashboard.PersonaLabel | components/personalization/personalization-dashboard.tsx:89-95 | without a persona the label is "Not Identified"; with one it has the slug's length and each character is the slug's, capitalised at the start of a word and with dashes as spaces |
| PersonalizationDashboard.DisplayNameHasNoDash | components/personalization/personalization-dashboard.tsx:89-95 | a display name keeps the slug's length and turns every dash into a space, so none is left |
| BehavioralTracker.Fired | components/personalization/behavioral-tracker.tsx:43-54 | a scroll records, in order and each once, exactly the milestones whose threshold the percentage strictly exceeds and that were not yet recorded |
| BehavioralTracker.FreshScrollPastThreeQuarters | components/personalization/behavioral-tracker.tsx:43-54 | on a fresh mount one scroll past 75 percent records 25, 50 and 75 in that order |
| BehavioralTracker.RecordedNeverRefires | components/personalization/behavioral-tracker.tsx:43-54 | once all three milestones are recorded, no scroll records anything |
| BehavioralTracker.Tracker.constructor | components/personalization/behavioral-tracker.tsx:14-16 | the tracker starts with no milestones recorded, no listener and scroll position 0 |
| BehavioralTracker.Tracker.Mount | components/personalization/behavioral-tracker.tsx:18-25 | the listener is installed exactly when consent is given and personalization is on, and then the page view adds one point up to 100 and stamps the session; otherwise score and session are unchanged; persona, recommendations, rules and both switches are kept |
| BehavioralTracker.Tracker.Milestone | components/personalization/behavioral-tracker.tsx:43-46 | a milestone fires exactly when the percentage exceeds its threshold and it was not recorded; it is then recorded and, when tracking is allowed, worth 3 points up to 100 and stamps the session; persona, recommendations, rules and both switches are kept |
| BehavioralTracker.Tracker.HandleScroll | components/personalization/behavioral-tracker.tsx:37-57 | the recorded milestones grow by exactly those the scroll fires, the score by 3 points for each up to 100 when tracking is allowed, and the session is stamped when one fires; the last scroll position is stored, no name is ever recorded twice, and persona, recommendations, rules and both switches are kept |
| BehavioralTracker.ScoreSteps | components/personalization/behavioral-tracker.tsx:43-54 | three capped three-point steps add three points per step taken, capped once at 100 |
| BehavioralTracker.FiredSteps | components/personalization/behavioral-tracker.tsx:43-54 | the three milestone tests in a row record exactly the fired milestones, one per test that fired |
| TemplateLibrary.FilteredTemplates | components/automation/workflow-template-library.tsx:136-144 | exactly the templates whose name or description matches the search and whose category and persona pass their choices |
| TemplateLibrary.FilteredTemplatesOrdered | components/automation/workflow-template-library.tsx:136-144 | the filtered list keeps the catalogue's order |
| TemplateLibrary.NoFilterShowsAll | components/automation/workflow-template-library.tsx:137-141 | an empty search with both choices on "all" lists every template |
| TemplateLibrary.SearchIgnoresCase | components/automation/workflow-template-library.tsx:138-139 | lower-casing the typed term never changes the list |
| CommunicationHub.FilteredMessages | components/communication/communication-hub.tsx:68-74 | exactly the messages whose subject or content matches the search and whose platform passes the choice |
| CommunicationHub.FilteredMessagesOrdered | components/communication/communication-hub.tsx:68-74 | the filtered list keeps the inbox order, and an empty search on "all" keeps every message |
| CommunicationHub.PriorityColor | components/communication/communication-hub.tsx:91-100 | red exactly for high, yellow exactly for medium, grey for anything else |
| CommunicationHub.PriorityColorsDistinct | components/communication/communication-hub.tsx:91-100 | the three priorities get three different colours |
| Common.MatchesTermProperties | components/communication/communication-hub.tsx:69-71 | a case-insensitive search: the empty term matches every text, the case of neither side matters, and a plain substring always matches |
| Common.ContainsIffOccurs | components/communication/communication-hub.tsx:70 | the substring test holds exactly when the term occurs at some position |
| Common.Lower | components/testing/error-tracker.tsx:75 | lower-casing keeps the length and lower-cases each ASCII letter, leaving other characters alone |
| Common.LowerIdempotent | components/testing/error-tracker.tsx:75 | lower-casing twice is lower-casing once |
| Common.Trim | components/testing/user-feedback-widget.tsx:21-28 | the trimmed text neither starts nor ends with white space, and it is empty exactly when the text is blank |
| Common.Split | components/personalization/persona-evolution-tracker.tsx:56 | splitting gives one more piece than there are separators, none containing the separator |
| Common.JoinSplit | components/personalization/persona-evolution-tracker.tsx:56-58 | joining the pieces of a split with the separator gives the string back |
| Common.Capitalize | components/personalization/persona-evolution-tracker.tsx:57 | the first character is upper-cased and the rest kept |
| Common.Filter | store/facebook-integration-store.ts:123 | everything kept passes the test and comes from the input, and everything in the input that passes is kept |
| Common.FilterIsSubsequence | store/facebook-integration-store.ts:123 | filtering keeps the survivors in their original order |
| Common.SliceTo | store/automation-store.ts:46 | the prefix of the requested length, no longer than the input, with a negative end counting from the back |
| Common.MapWhere | store/automation-store.ts:53 | the length is kept, and each element passing the test is replaced by its image while the others stay |
| Common.MapWhereIdempotent | store/portal-store.ts:37 | an update that keeps its own test and is idempotent leaves a second run with nothing to change |
| Common.Find | store/automation-store.ts:75 | none exactly when no element passes; otherwise the element at the first passing position |
| Common.FindIndex | store/automation-store.ts:75 | the first position whose element passes, or the length when there is none |
| SyndicationManager.TrimKeepsChars | components/facebook/content-syndication-manager.tsx:41 | trimming only removes characters: whatever is in the result was in the input |
| SyndicationManager.TrimPieces | components/facebook/content-syndication-manager.tsx:41 | trimming comma-free pieces gives trimmed, comma-free tags |
| SyndicationManager.Hashtags | components/facebook/content-syndication-manager.tsx:41 | the field gives one more tag than it has commas, the i-th tag being the i-th comma-separated piece trimmed |
| SyndicationManager.HashtagsEdgeCases | components/facebook/content-syndication-manager.tsx:41 | an empty field still gives one empty tag, and a field without commas gives its trimmed self |
| SyndicationManager.SingleTag | components/facebook/content-syndication-manager.tsx:41 | a field without commas gives exactly one tag, itself trimmed |
| SyndicationManager.NewSyndication | components/facebook/content-syndication-manager.tsx:36-44 | the new item is a draft with the clock's id, no performance, the form's title, content and personas, its hashtags, and a schedule only when one was typed |
| SyndicationManager.TogglePersona | components/facebook/content-syndication-manager.tsx:143-155 | checking appends the id; unchecking removes every occurrence, keeps the order and every other id |
| SyndicationManager.CheckThenUncheck | components/facebook/content-syndication-manager.tsx:143-155 | unchecking what was just checked restores a list that did not hold the id |
| SyndicationManager.FilterDropLast | components/facebook/content-syndication-manager.tsx:153 | removing an id from a list ending in it is removing it from the rest |
| SyndicationManager.Manager.constructor | components/facebook/content-syndication-manager.tsx:27-33 | the form starts empty |
| SyndicationManager.Manager.HandleCreateSyndication | components/facebook/content-syndication-manager.tsx:35-54 | the draft built from the form goes first in the store's list, the form is cleared, and every other store field is untouched |
| SyndicationManager.Manager.EditTitle | components/facebook/content-syndication-manager.tsx:121 | the title field is replaced and the rest of the form kept |
| SyndicationManager.Manager.EditContent | components/facebook/content-syndication-manager.tsx:131 | the content field is replaced and the rest of the form kept |
| SyndicationManager.Manager.EditHashtags | components/facebook/content-syndication-manager.tsx:171 | the hashtag field is replaced and the rest of the form kept |
| SyndicationManager.Manager.EditScheduledTime | components/facebook/content-syndication-manager.tsx:182 | the schedule field is replaced and the rest of the form kept |
| SyndicationManager.Manager.HandleTogglePersona | components/facebook/content-syndication-manager.tsx:143-155 | only the checked personas change, as the checkbox rule says |
| SyndicationManager.HandlePostToGroup | components/facebook/content-syndication-manager.tsx:56-60 | the item is marked posted and then no longer offers "Post Now"; every other store field is untouched |
| GroupBridge.HoursBetween | components/facebook/group-bridge-interface.tsx:52 | the hour count is the floor of the elapsed milliseconds over an hour |
| GroupBridge.DaysOfHours | components/facebook/group-bridge-interface.tsx:56 | flooring whole hours to days is flooring the elapsed time to days |
| GroupBridge.Labelled | components/facebook/group-bridge-interface.tsx:55-56 | a count followed by a unit suffix ends in the suffix and reads back as the count |
| GroupBridge.FormatTimeAgo | components/facebook/group-bridge-interface.tsx:49-57 | under an hour reads "Just now", under a day the decimal hour count followed by "h ago", otherwise the decimal day count followed by "d ago" |
| GroupBridge.JustNowIffUnderAnHour | components/facebook/group-bridge-interface.tsx:54 | "Just now" is shown exactly when less than an hour has passed |
| MemberJourney.Badge | components/facebook/member-journey-integration.tsx:195-199 | the badge is Expert Contributor from 80, Active Member from 60, Growing Member below, each both ways |
| MemberJourney.BadgeMonotone | components/facebook/member-journey-integration.tsx:195-199 | a higher score never earns a lower badge |
| MemberJourney.ShareText | components/facebook/member-journey-integration.tsx:96 | the shared text opens with the emoji and quote, closes with the thanks and hashtags, and holds the title, then " - ", then the description, between them |
| MemberJourney.TakeUntil | components/facebook/member-journey-integration.tsx:96 | the characters before the first given character are a prefix without it |
| MemberJourney.TakeUntilPrefix | components/facebook/member-journey-integration.tsx:96 | reading up to a separator returns exactly the part before it |
| MemberJourney.SharedTitleRoundTrip | components/facebook/member-journey-integration.tsx:96 | a title without a double quote is read back exactly from the shared text |
| MemberJourney.OfferedAchievements | components/facebook/member-journey-integration.tsx:38-66 | of the three achievements only the first and third offer "Share to Group" |
| AnalyticsDashboard.TotalConversions | analytics-dashboard.tsx:22-24 | 0 for missing or empty stage data; with CardTotalsAppend, the sum of the stages' conversions, a missing count as 0 |
| AnalyticsDashboard.TotalShadowTouchpoints | analytics-dashboard.tsx:33-35 | 0 for missing or empty touchpoint data; with CardTotalsAppend, the sum of the counts, a missing count as 0 |
| AnalyticsDashboard.TotalRevenue | analytics-dashboard.tsx:37-39 | 0 for missing or empty revenue data; with CardTotalsAppend, the sum of the revenues, a missing figure as 0 |
| AnalyticsDashboard.CardTotalsAppend | analytics-dashboard.tsx:22-39 | each card total grows by exactly the appended entry's figure, a missing figure adding 0 |
| AnalyticsDashboard.AveragePersonaScore | analytics-dashboard.tsx:26-31 | 0 without personas, otherwise the value that times the persona count gives the score total |
| AnalyticsDashboard.AverageWithinScale | analytics-dashboard.tsx:26-31 | with every score between 0 and 100 the average is too |
| AnalyticsDashboard.InitialFigures | store/analytics-store.ts:12-48 | on the store's initial data the cards show 2350 conversions, an 85 average score, 3520 touchpoints and 280000 revenue |
| PersonaPerformance.PersonaConfigComplete | components/analytics/persona-performance.tsx:13-44 | every persona of the system has a name, colour, icon and description |
| PersonaPerformance.SharesWithinTotal | components/analytics/persona-performance.tsx:49-66 | with no negative figures no persona exceeds the revenue or visitor total, so neither share exceeds 100 |
| PersonaPerformance.TotalsAppend | components/analytics/persona-performance.tsx:49-50 | adding a persona adds its revenue and visitors to the totals |
| PersonaPerformance.AverageValue | components/analytics/persona-performance.tsx:99 | revenue per enrollment, and 0 for a persona without enrollments |
| PersonaPerformance.BestFrom | components/analytics/persona-performance.tsx:148-149 | the reduction from a running best yields the first index holding the largest key |
| PersonaPerformance.Highest | components/analytics/persona-performance.tsx:148-149 | none exactly for an empty list, otherwise the first index whose key no other exceeds |
| PersonaPerformance.FirstMaximumUnique | components/analytics/persona-performance.tsx:148-149 | the first maximal index is the only answer the reduction can give |
| PersonaPerformance.HighestName | components/analytics/persona-performance.tsx:146-162 | the winner's configured name, present exactly when there is a winner the configuration knows |
| PersonaPerformance.TieGoesToFirst | components/analytics/persona-performance.tsx:160 | of two personas tied on revenue the first is reported |
| AppShell.RemoveFirstSpec | App.tsx:45 | only the first '#' is removed: a hash without one is unchanged, otherwise the text around the first one is kept |
| AppShell.Route | App.tsx:44-71 | a "-hub" hash opens the hub named before the first dash; the dashboard, integrations and quiz hashes set their view and title; any other keeps the view, titled for the landing page on the landing view or an empty hash |
| AppShell.RouteSettles | App.tsx:73-77 | re-running the handler after the view it set changes nothing |
| AppShell.HubLink | App.tsx:48-51 | a link to a hub name without a dash opens that hub, titled with its capitalised name |
| AppShell.RenderView | App.tsx:121-130 | the five hubs, the dashboard and integrations have their own page and every other view renders the landing page |
| AppShell.UnknownHubShowsLanding | App.tsx:48-51 | a "-hub" hash naming no known hub sets that view and so renders the landing page |
| AppShell.HeadlineFor | App.tsx:36 | the determined persona's headline, otherwise the default one at low engagement and the returning one above |
| AppShell.ExitKeyFor | App.tsx:40 | the determined persona, otherwise the default exit key |
| AppShell.ContentKeysDefined | App.tsx:36-41 | every visitor profile selects a headline, a hero CTA and an exit offer that the content tables define |
| AppShell.ExitStep | App.tsx:81-93 | a qualifying mouse-out shows the popup and sets the flag; any other mouse-out changes nothing; close and submit hide it |
| AppShell.OncePerSession | App.tsx:83-92 | whatever the events, the popup opens at most once, never once the session flag is set, and the flag stays set |
| AppShell.Shell.constructor | App.tsx:27-30 | a page load starts on the landing view with no popup and the session's flag |
| AppShell.Shell.HandleHashChange | App.tsx:44-71 | the view and title become what the routing rule gives; the popup state is untouched |
| AppShell.Shell.HandleMouseOut | App.tsx:81-93 | the popup state moves by the exit rule and the tracking call is recorded exactly when the popup opens |
| AppShell.Shell.CloseExitIntent | App.tsx:107-112 | the popup is hidden and nothing else changes |

## Left out

- DOM writes (attribute, class and text changes in the rule engine, the A/B framework, the content optimizer and the document title) are not modelled. The model returns the rule, variant or title that would be written.
- Event listeners, effect re-runs and timers are not modelled. One run of a handler is one call. The `setTimeout` delay of `deployTemplate` is not modelled; its effect after the delay is.
- `triggerWorkflow` is modelled only up to its synchronous part. The simulated completion and its random success are random, timed and not modelled. So are the untyped trigger payloads.
- Randomness is not modelled: the A/B draw is a parameter. The random reach and engagement figures of the syndication manager (components/facebook/content-syndication-manager.tsx:314-316) are not modelled.
- `syncGroupData`, `refreshData` and the async fetch of the analytics store are mock I/O and are not modelled. The analytics store's initial data is used only as test data. `setMetrics` and its metrics field are not modelled.
- gtag, Intercom, Sentry, `alert`, `window.open`, `encodeURIComponent` and the visitor store's `logInteraction` are foreign calls and are not modelled.
  - `trackExitIntentShown` is recorded as an entry in the shell's `trackedExits` log.
  - The visitor-store update on an exit-intent submit is not modelled.
- The quiz store and the visitor store are not part of this model. Quiz scoring and lead-score aggregation are not modelled; only the constant tables are.
- `localStorage`, `sessionStorage`, `window.location` and `window.innerWidth` are inputs. The persistence middleware is not modelled.
- Case folding is ASCII only: JavaScript's Unicode `toLowerCase` and `toUpperCase` are not modelled. `trim` strips JavaScript's full white-space and line-terminator set: tab, line feed, vertical tab, form feed, carriage return, space, U+00A0, U+1680, U+2000 to U+200A, U+2028, U+2029, U+202F, U+205F, U+3000 and U+FEFF.
- AnalyticsDashboard.TotalRevenue: the stage conversions, touchpoint counts and revenue figures are JavaScript numbers (types/analytics.ts:7, 29, 40), but the model takes them as integers, so a fractional revenue or count is not modelled. The same holds for `AnalyticsDashboard.TotalConversions` and `AnalyticsDashboard.TotalShadowTouchpoints`.
- `toFixed`, `toLocaleString` and the persona-performance share percentages are display formatting and are not modelled. So are the progress ratios of the detailed views.
- JavaScript prototype keys in `scoreIncrements[event] || 1` and `personaOptimizations[persona]` are not modelled. For example, "constructor" would look up an inherited member. The model treats every name outside the table as unknown.
- `store/testing-store.ts` names `personaJourneys` and `coreWebVitals`, but no action updates them. They are not modelled.
- TestingDashboard.PositivePercentage: the model rounds the exact fraction. The source rounds the floating-point product `(positive / total) * 100`, which at some half-way values lies just below the half. For 23 of 40 the source shows 57 where the model gives 58. Away from half-way values both give the nearest integer.
- TestingDashboard.PercentageRounds: states half-up rounding of the exact fraction, so at half-way values it can be one point above the source's floating-point result.
- RuleEngine.CompareValues: a string expected value always fails. JavaScript would coerce it in `>` and `<` (`80 > "70"` holds). No predefined rule compares against a string.
- Statuses are free strings in the source and enumerations in the model: the automation status, the `status` argument of `updateSyndicationStatus` (store/facebook-integration-store.ts:23, modelled by `FacebookStore.FacebookStore.UpdateSyndicationStatus`) and that of `updateIntegrationStatus` (store/portal-store.ts:16, modelled by `PortalStore.PortalStore.UpdateIntegrationStatus`). A status outside the enumeration cannot be written in the model.
- The persona-performance panel reads `personaMetrics`, which the analytics store does not define. The model takes the metrics as a parameter.
- PersonaPerformance.HighestName: the argmax reduction without an initial value throws on an empty list, and reading `.name` throws a TypeError when the winning persona has no `personaConfig` entry (components/analytics/persona-performance.tsx:147-151, 159-160). The model returns none in both cases.
- `handleReactError` in the error tracker is never registered, so it is not modelled.
- Only the score-bumping effect of the other behavioural-tracker listeners (unload, click, form, video, download) is modelled, through the store's `TrackBehavior`. Their listener wiring is not modelled.
- `getComplexityColor`, `getCategoryIcon`, `getPlatformIcon`, the recommendation `getIcon` and the mock message list are pure presentation and are not modelled.
- TestingDashboard.PositiveFeedback: its own ensures gives only a bound. Which items count is the `Positive` predicate it is defined by: a present rating above 0.
- TestingDashboard.ActiveBugs: its own ensures gives only a bound. `ReportedErrorIsActive` gives how a report changes it.
- TestingDashboard.RunningTests: its own ensures gives only a bound. Which tests count is the `Running` predicate it is defined by.
