/** The personalization dashboard: the consent switch, the engagement-level colours and the
    persona label. */
module PersonalizationDashboard {
  import opened Common
  import opened PersonalizationTypes
  import opened PersonalizationStore

  /** The switch handler: records the choice, and switching off also forgets everything the
      store had learnt about the visitor. */
  method HandleTogglePersonalization(store: Store, enabled: bool)
    requires store.Valid()
    modifies store
    ensures store.Valid()
    ensures store.consentGiven == enabled
    ensures store.isPersonalizationEnabled == old(store.isPersonalizationEnabled)
    ensures !enabled ==> store.behaviorScore == 0 && store.engagementLevel == Low
                         && store.appliedRules == [] && store.recommendations == []
                         && store.currentPersona == None && store.session == None
    ensures enabled ==> store.behaviorScore == old(store.behaviorScore) && store.engagementLevel == old(store.engagementLevel)
                        && store.appliedRules == old(store.appliedRules) && store.recommendations == old(store.recommendations)
                        && store.currentPersona == old(store.currentPersona) && store.session == old(store.session)
  {
    store.SetConsentGiven(enabled);
    if !enabled {
      store.ResetPersonalization();
    }
  }

  /** After switching off, no further event moves the score until consent is given again. */
  method SwitchOffThenTrack(store: Store, event: string, now: string)
    requires store.Valid()
    modifies store
    ensures store.Valid()
    ensures !store.consentGiven && store.behaviorScore == 0 && store.engagementLevel == Low
  {
    HandleTogglePersonalization(store, false);
    store.TrackBehavior(event, now);
  }

  /** The badge colours of an engagement level name. */
  function EngagementColor(level: string): (r: string)
    ensures r == "text-green-600 bg-green-100" <==> level == "high"
    ensures r == "text-yellow-600 bg-yellow-100" <==> level == "medium"
    ensures level != "high" && level != "medium" ==> r == "text-gray-600 bg-gray-100"
  {
    match level
    case "high" => "text-green-600 bg-green-100"
    case "medium" => "text-yellow-600 bg-yellow-100"
    case _ => "text-gray-600 bg-gray-100"
  }

  /** The store's three levels get three different colours. */
  lemma LevelColorsDistinct(a: Level, b: Level)
    ensures a != b ==> EngagementColor(a.Slug()) != EngagementColor(b.Slug())
    ensures EngagementColor(Low.Slug()) == "text-gray-600 bg-gray-100"
  {
  }

  /** The persona card: the display name of the persona's slug, or "Not Identified". */
  function PersonaLabel(persona: Option<PersonaProfile>): (r: string)
    ensures persona.None? ==> r == "Not Identified"
    ensures persona.Some? ==> |r| == |persona.value.persona.Slug()|
    ensures persona.Some? ==> forall i :: 0 <= i < |r| ==> r[i] == DisplayChar(persona.value.persona.Slug(), i)
  {
    if persona.None? then "Not Identified"
    else
      DisplayNameChars(persona.value.persona.Slug());
      DisplayName(persona.value.persona.Slug())
  }

  /** A display name has no dash left in it: every dash became a space. */
  lemma {:induction false} DisplayNameHasNoDash(s: string)
    ensures '-' !in DisplayName(s)
    ensures |DisplayName(s)| == |s|
    ensures forall i :: 0 <= i < |s| && s[i] == '-' ==> DisplayName(s)[i] == ' '
  {
    DisplayNameChars(s);
    var r := DisplayName(s);
    forall i | 0 <= i < |r|
      ensures r[i] != '-'
    {
      assert r[i] == DisplayChar(s, i);
    }
  }
}
