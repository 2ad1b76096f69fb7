/** The application shell: hash routing with the document title it sets, the fallback of the
    view switch to the landing page, the content keys chosen from the visitor profile, and the
    exit-intent popup that opens at most once per browser session. */
module AppShell {
  import opened Common
  import opened ScoringTables

  // ---------------------------------------------------------------- routing

  /** `s.replace('#', '')`: a string pattern replaces its first occurrence only. */
  function RemoveFirst(s: string, c: char): string
  {
    if s == [] then []
    else if s[0] == c then s[1..]
    else [s[0]] + RemoveFirst(s[1..], c)
  }

  /** Only the first occurrence goes: a string without `c` is unchanged, and otherwise the
      text before and after that occurrence is kept. */
  lemma {:induction false} RemoveFirstSpec(s: string, c: char)
    ensures c !in s ==> RemoveFirst(s, c) == s
    ensures c in s ==> RemoveFirst(s, c) == s[..IndexOf(s, c)] + s[IndexOf(s, c) + 1..]
  {
    if s != [] && s[0] != c {
      RemoveFirstSpec(s[1..], c);
      if c in s {
        assert c in s[1..];
        var t, k := s[1..], IndexOf(s[1..], c);
        assert IndexOf(s, c) == k + 1;
        assert [s[0]] + t[..k] == s[..k + 1];
        assert t[k + 1..] == s[k + 2..];
      }
    }
  }

  const BaseTitle := "Ecommerce Outset"
  const LandingTitle := "Ecommerce Outset - Amazon Seller Ecosystem"
  const DashboardTitle := "Analytics Dashboard - Ecommerce Outset"
  const IntegrationsTitle := "Integrations Dashboard - Ecommerce Outset"
  const QuizTitle := "Persona Quiz - Ecommerce Outset"

  /** The view and the document title after a hash change. */
  datatype Routed = Routed(view: string, title: string)

  /** The hub a hash ending in "-hub" names: its text before the first dash. */
  function HubName(hash: string): string
  {
    Split(hash, '-')[0]
  }

  function HubTitle(hubName: string): string
  {
    Capitalize(hubName) + " Hub - Ecommerce Outset"
  }

  /** The hash-change handler, given the current view and `window.location.hash`. */
  function Route(currentView: string, locationHash: string): (r: Routed)
    ensures EndsWith(RemoveFirst(locationHash, '#'), "-hub") ==>
              r == Routed(HubName(RemoveFirst(locationHash, '#')), HubTitle(HubName(RemoveFirst(locationHash, '#'))))
    ensures RemoveFirst(locationHash, '#') == "dashboard" ==> r == Routed("dashboard", DashboardTitle)
    ensures RemoveFirst(locationHash, '#') == "integrations-dashboard" ==> r == Routed("integrations", IntegrationsTitle)
    ensures RemoveFirst(locationHash, '#') == "quiz-modal" ==> r == Routed(currentView, QuizTitle)
    ensures !EndsWith(RemoveFirst(locationHash, '#'), "-hub") && RemoveFirst(locationHash, '#') !in {"dashboard", "integrations-dashboard", "quiz-modal"} ==>
              r.view == currentView &&
              r.title == (if currentView == "landing" || RemoveFirst(locationHash, '#') == "" then LandingTitle else BaseTitle)
  {
    var hash := RemoveFirst(locationHash, '#');
    if EndsWith(hash, "-hub") then
      var hubName := HubName(hash);
      Routed(hubName, HubTitle(hubName))
    else if hash == "dashboard" then Routed("dashboard", DashboardTitle)
    else if hash == "integrations-dashboard" then Routed("integrations", IntegrationsTitle)
    else if hash == "quiz-modal" then Routed(currentView, QuizTitle)
    else Routed(currentView, if currentView == "landing" || hash == "" then LandingTitle else BaseTitle)
  }

  /** The handler runs again whenever the view changes, with the same hash; that second run
      changes neither the view nor the title, so the effect settles after one re-run. */
  lemma RouteSettles(currentView: string, locationHash: string)
    ensures Route(Route(currentView, locationHash).view, locationHash) == Route(currentView, locationHash)
  {
    var hash := RemoveFirst(locationHash, '#');
    if !EndsWith(hash, "-hub") && hash !in {"dashboard", "integrations-dashboard", "quiz-modal"} {
      assert hash != "dashboard" && hash != "integrations-dashboard" && hash != "quiz-modal";
    }
  }

  /** A link `#<name>-hub` to a hub whose name has no dash opens that hub, titled with the
      capitalised name. */
  lemma {:induction false} HubLink(currentView: string, name: string)
    requires '-' !in name && '#' !in name
    ensures Route(currentView, "#" + name + "-hub") == Routed(name, HubTitle(name))
  {
    var hash := name + "-hub";
    var locationHash := "#" + hash;
    assert locationHash[1..] == hash;
    assert RemoveFirst(locationHash, '#') == hash;
    assert EndsWith(hash, "-hub") by {
      assert hash[|hash| - 4..] == "-hub";
    }
    assert hash == name + ['-'] + "hub";
    SplitWordThenSep(name, "hub", '-');
    assert HubName(hash) == name;
    assert "#" + name + "-hub" == locationHash;
  }

  /** The pages the view switch renders. */
  datatype Page = LaunchHub | ScaleHub | MasterHub | InvestHub | ConnectHub | AnalyticsPage | IntegrationsPage | Landing

  const HubViews: seq<string> := ["launch", "scale", "master", "invest", "connect"]

  /** The view switch: the seven named views have their own page and every other view,
      "landing" included, renders the landing page. */
  function RenderView(view: string): (p: Page)
    ensures p == Landing <==> view !in HubViews + ["dashboard", "integrations"]
    ensures p == AnalyticsPage <==> view == "dashboard"
    ensures p == IntegrationsPage <==> view == "integrations"
  {
    match view
    case "launch" => LaunchHub
    case "scale" => ScaleHub
    case "master" => MasterHub
    case "invest" => InvestHub
    case "connect" => ConnectHub
    case "dashboard" => AnalyticsPage
    case "integrations" => IntegrationsPage
    case _ => Landing
  }

  /** A "-hub" hash whose name is not one of the five hubs, such as "#-hub" or "#shop-hub",
      still sets that view and a hub title, and then shows the landing page. */
  lemma UnknownHubShowsLanding(currentView: string, name: string)
    requires '-' !in name && '#' !in name && name !in HubViews && name != "dashboard" && name != "integrations"
    ensures Route(currentView, "#" + name + "-hub").view == name
    ensures RenderView(Route(currentView, "#" + name + "-hub").view) == Landing
  {
    HubLink(currentView, name);
  }

  // ---------------------------------------------------------------- content keys

  /** `determinedPersonaId || (engagementLevel === 'low' ? 'default' : 'returning')`. */
  function HeadlineFor(determined: Option<PersonaId>, level: EngagementLevel): (k: HeadlineKey)
    ensures determined.Some? ==> k == ForPersona(determined.value)
    ensures determined.None? && level == LowEngagement ==> k == DefaultHeadline
    ensures determined.None? && level != LowEngagement ==> k == ReturningHeadline
  {
    if determined.Some? then ForPersona(determined.value)
    else if level == LowEngagement then DefaultHeadline
    else ReturningHeadline
  }

  /** `determinedPersonaId || 'default_exit'`. */
  function ExitKeyFor(determined: Option<PersonaId>): (k: PersonaId)
    ensures determined.Some? ==> k == determined.value
    ensures determined.None? ==> k == DefaultExit
  {
    if determined.Some? then determined.value else DefaultExit
  }

  /** The exit offer: the keyed entry, or the default one when the key has none. */
  function ExitOffer(determined: Option<PersonaId>): ExitContent
  {
    var k := ExitKeyFor(determined);
    if k in PersonaExitContent then PersonaExitContent[k] else PersonaExitContent[DefaultExit]
  }

  /** Every profile selects a headline, a hero CTA and an exit offer that the tables define,
      so the fallback to the default exit offer is never taken. */
  lemma ContentKeysDefined(determined: Option<PersonaId>, level: EngagementLevel)
    ensures HeadlineFor(determined, level) in HeroHeadlineVariants
    ensures level in SmartCtaVariants
    ensures ExitKeyFor(determined) in PersonaExitContent
    ensures ExitOffer(determined) == PersonaExitContent[ExitKeyFor(determined)]
  {
    KeyCoverage(ExitKeyFor(determined), level, HeadlineFor(determined, level));
  }

  // ---------------------------------------------------------------- exit intent

  /** The popup's visibility and the session's "exitIntentShown" flag. */
  datatype ExitState = ExitState(showing: bool, flagged: bool)

  /** A mouse-out (leaving through the top edge, or leaving the document from an element other
      than the body), closing the popup, or submitting its e-mail form. */
  datatype ExitEvent = MouseOut(clientY: int, leftDocument: bool) | Close | Submit

  /** Whether the event opens the popup. */
  predicate Opens(s: ExitState, e: ExitEvent)
  {
    e.MouseOut? && !s.showing && (e.clientY <= 0 || e.leftDocument) && !s.flagged
  }

  function ExitStep(s: ExitState, e: ExitEvent): (t: ExitState)
    ensures Opens(s, e) ==> t == ExitState(true, true)
    ensures e.MouseOut? && !Opens(s, e) ==> t == s
    ensures !e.MouseOut? ==> t == s.(showing := false)
  {
    match e
    case MouseOut(clientY, leftDocument) =>
      if s.showing then s
      else if (clientY <= 0 || leftDocument) && !s.flagged then ExitState(true, true)
      else s
    case Close => s.(showing := false)
    case Submit => s.(showing := false)
  }

  function Run(s: ExitState, es: seq<ExitEvent>): ExitState
    decreases |es|
  {
    if es == [] then s else Run(ExitStep(s, es[0]), es[1..])
  }

  /** How many of the events open the popup. */
  function OpenCount(s: ExitState, es: seq<ExitEvent>): nat
    decreases |es|
  {
    if es == [] then 0
    else (if Opens(s, es[0]) then 1 else 0) + OpenCount(ExitStep(s, es[0]), es[1..])
  }

  /** Whatever the visitor does, the popup opens at most once per session, never once the
      session flag is set, and the flag stays set. */
  lemma {:induction false} OncePerSession(s: ExitState, es: seq<ExitEvent>)
    ensures OpenCount(s, es) <= 1
    ensures s.flagged ==> OpenCount(s, es) == 0 && Run(s, es).flagged
    ensures OpenCount(s, es) == 1 ==> Run(s, es).flagged
    decreases |es|
  {
    if es != [] {
      OncePerSession(ExitStep(s, es[0]), es[1..]);
    }
  }

  /** The shell's state: the routed view, the document title, the popup and the session
      flag, and the personas the shown popups were tracked for. */
  class Shell {
    var currentView: string
    var title: string
    var showExitIntent: bool
    var exitIntentShown: bool
    var trackedExits: seq<PersonaId>

    /** The popup is only ever visible in a session whose flag is set, and it was tracked at
        most once. */
    predicate Valid()
      reads this
    {
      (showExitIntent ==> exitIntentShown) && |trackedExits| <= 1 && (trackedExits != [] ==> exitIntentShown)
    }

    /** A fresh page load: the landing view, no popup, and whatever flag the session holds. */
    constructor(sessionFlag: bool)
      ensures Valid()
      ensures currentView == "landing" && title == BaseTitle && !showExitIntent
      ensures exitIntentShown == sessionFlag && trackedExits == []
    {
      currentView := "landing";
      title := BaseTitle;
      showExitIntent := false;
      exitIntentShown := sessionFlag;
      trackedExits := [];
    }

    method HandleHashChange(locationHash: string)
      requires Valid()
      modifies this
      ensures Valid()
      ensures Routed(currentView, title) == Route(old(currentView), locationHash)
      ensures showExitIntent == old(showExitIntent) && exitIntentShown == old(exitIntentShown)
      ensures trackedExits == old(trackedExits)
    {
      var r := Route(currentView, locationHash);
      currentView := r.view;
      title := r.title;
    }

    /** The mouse-out listener; showing the popup records the tracking call for the exit key. */
    method HandleMouseOut(clientY: int, leftDocument: bool, determined: Option<PersonaId>)
      requires Valid()
      modifies this
      ensures Valid()
      ensures ExitState(showExitIntent, exitIntentShown) ==
              ExitStep(ExitState(old(showExitIntent), old(exitIntentShown)), MouseOut(clientY, leftDocument))
      ensures Opens(ExitState(old(showExitIntent), old(exitIntentShown)), MouseOut(clientY, leftDocument)) ==>
                trackedExits == old(trackedExits) + [ExitKeyFor(determined)]
      ensures !Opens(ExitState(old(showExitIntent), old(exitIntentShown)), MouseOut(clientY, leftDocument)) ==>
                trackedExits == old(trackedExits)
      ensures currentView == old(currentView) && title == old(title)
    {
      if showExitIntent {
        return;
      }
      if clientY <= 0 || leftDocument {
        if !exitIntentShown {
          showExitIntent := true;
          exitIntentShown := true;
          trackedExits := trackedExits + [ExitKeyFor(determined)];
        }
      }
    }

    /** Closing the popup, by its close button or by submitting its form. The visitor-store
        updates of a submission are not modelled. */
    method CloseExitIntent()
      requires Valid()
      modifies this
      ensures Valid()
      ensures !showExitIntent && exitIntentShown == old(exitIntentShown)
      ensures currentView == old(currentView) && title == old(title) && trackedExits == old(trackedExits)
    {
      showExitIntent := false;
    }
  }
}
