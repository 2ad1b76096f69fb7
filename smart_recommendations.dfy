/** The smart-recommendation widget: the catalogue entries that list the visitor's persona,
    are written for the store's engagement level and were not dismissed, highest priority
    first and at most `maxRecommendations` of them; each one shown is also added to the store. */
module SmartRecommendations {
  import opened Common
  import opened Sorting
  import opened PersonalizationTypes
  import opened PersonalizationStore

  const Catalogue: seq<Recommendation> := [
    Recommendation("1", "Product Research Masterclass", "Learn advanced techniques for finding profitable products",
      "/courses/product-research", Course, ["startup-sam", "learning-larry"], 10, Beginner),
    Recommendation("2", "Scaling Your Amazon Business", "Strategies for growing from 6 to 7 figures",
      "/guides/scaling-strategies", Article, ["scaling-sarah"], 9, Intermediate),
    Recommendation("3", "Investment Due Diligence Checklist", "Complete checklist for evaluating Amazon businesses",
      "/tools/due-diligence", Tool, ["investor-ian"], 8, Advanced),
    Recommendation("4", "Building Your Service Portfolio", "How to position yourself as an Amazon expert",
      "/guides/service-portfolio", Article, ["provider-priya"], 7, Intermediate)]

  const DefaultMaxRecommendations: int := 3

  function RecPriority(r: Recommendation): int
  {
    r.priority
  }

  /** The three tests of the filter: the persona is listed, the level is the store's (compared
      by name) and the visitor has not dismissed it. */
  predicate Matches(rec: Recommendation, persona: Persona, level: Level, dismissed: seq<string>)
  {
    persona.Slug() in rec.personas && rec.level.Slug() == level.Slug() && rec.id !in dismissed
  }

  function Matching(catalogue: seq<Recommendation>, persona: Persona, level: Level, dismissed: seq<string>): seq<Recommendation>
  {
    Filter(catalogue, (rec: Recommendation) => Matches(rec, persona, level, dismissed))
  }

  /** `filter(...).sort((a, b) => b.priority - a.priority).slice(0, max)`. */
  function Shown(catalogue: seq<Recommendation>, persona: Persona, level: Level, dismissed: seq<string>, max: int): (r: seq<Recommendation>)
    ensures forall i :: 0 <= i < |r| ==> r[i] in catalogue && Matches(r[i], persona, level, dismissed)
    ensures SortedDesc(r, RecPriority)
    ensures max >= 0 ==> |r| == Min(max, |Matching(catalogue, persona, level, dismissed)|)
    ensures max >= 0 ==> |r| <= max
  {
    var sorted := SortDesc(Matching(catalogue, persona, level, dismissed), RecPriority);
    SortDescMembers(Matching(catalogue, persona, level, dismissed), RecPriority);
    assert |sorted| == |Matching(catalogue, persona, level, dismissed)| by {
      assert |multiset(sorted)| == |multiset(Matching(catalogue, persona, level, dismissed))|;
    }
    SliceTo(sorted, max)
  }

  /** The cut keeps the best: every match left out has a priority no higher than any shown. */
  lemma ShownAreTopPriorities(catalogue: seq<Recommendation>, persona: Persona, level: Level, dismissed: seq<string>, max: int)
    ensures forall y: Recommendation, i :: y in multiset(Matching(catalogue, persona, level, dismissed)) - multiset(Shown(catalogue, persona, level, dismissed, max))
                           && 0 <= i < |Shown(catalogue, persona, level, dismissed, max)|
                           ==> y.priority <= Shown(catalogue, persona, level, dismissed, max)[i].priority
  {
    var m := Matching(catalogue, persona, level, dismissed);
    var s := SortDesc(m, RecPriority);
    var r := Shown(catalogue, persona, level, dismissed, max);
    assert r == s[..|r|];
    PrefixKeepsTop(s, RecPriority, |r|);
  }

  /** The store's levels are named low, medium and high and the catalogue's beginner,
      intermediate and advanced, so nothing ever matches and the widget never shows anything. */
  lemma {:induction false} ShownAlwaysEmpty(catalogue: seq<Recommendation>, persona: Persona, level: Level, dismissed: seq<string>, max: int)
    ensures Shown(catalogue, persona, level, dismissed, max) == []
  {
    var m := Matching(catalogue, persona, level, dismissed);
    if m != [] {
      LevelNeverMatchesRecLevel(level, m[0].level);
      assert false;
    }
  }

  /** Adding a list one item at a time ends where adding all but the last and then the last
      ends. */
  lemma {:induction false} AddAllSnoc(recs: seq<Recommendation>, added: seq<Recommendation>, x: Recommendation)
    ensures AddAll(recs, added + [x]) == WithRecommendation(AddAll(recs, added), x)
    decreases |added|
  {
    if added != [] {
      assert (added + [x])[1..] == added[1..] + [x];
      AddAllSnoc(WithRecommendation(recs, added[0]), added[1..], x);
    } else {
      assert ([] + [x])[1..] == [];
    }
  }

  class Widget {
    var recommendations: seq<Recommendation>
    var dismissedIds: seq<string>

    constructor()
      ensures recommendations == [] && dismissedIds == []
    {
      recommendations := [];
      dismissedIds := [];
    }

    /** One run of the effect. Without a persona it returns at once; otherwise the list is
        recomputed and each entry is added to the store in order. */
    method Refresh(store: Store, max: int)
      requires store.Valid()
      modifies this, store
      ensures store.Valid()
      ensures old(store.currentPersona).None? ==>
                recommendations == old(recommendations) && store.recommendations == old(store.recommendations)
      ensures old(store.currentPersona).Some? ==>
                recommendations == Shown(Catalogue, old(store.currentPersona).value.persona, old(store.engagementLevel), old(dismissedIds), max)
                && store.recommendations == AddAll(old(store.recommendations), recommendations)
      ensures dismissedIds == old(dismissedIds)
      ensures store.currentPersona == old(store.currentPersona) && store.session == old(store.session)
      ensures store.appliedRules == old(store.appliedRules) && store.behaviorScore == old(store.behaviorScore)
      ensures store.engagementLevel == old(store.engagementLevel) && store.consentGiven == old(store.consentGiven)
      ensures store.isPersonalizationEnabled == old(store.isPersonalizationEnabled)
    {
      if store.currentPersona.None? {
        return;
      }
      var shown := Shown(Catalogue, store.currentPersona.value.persona, store.engagementLevel, dismissedIds, max);
      recommendations := shown;
      AddEach(store, shown);
    }

    /** A click tracks a `recommendation_click` event, worth the one point of an event
        without an entry; the widget's own state is untouched. */
    method HandleRecommendationClick(store: Store, rec: Recommendation, now: string)
      requires store.Valid()
      modifies store
      ensures store.Valid()
      ensures old(store.consentGiven) && old(store.isPersonalizationEnabled) ==>
                store.behaviorScore == Min(MaxScore, old(store.behaviorScore) + 1)
      ensures !old(store.consentGiven) || !old(store.isPersonalizationEnabled) ==>
                store.behaviorScore == old(store.behaviorScore)
      ensures store.recommendations == old(store.recommendations) && store.appliedRules == old(store.appliedRules)
      ensures store.currentPersona == old(store.currentPersona)
      ensures store.consentGiven == old(store.consentGiven) && store.isPersonalizationEnabled == old(store.isPersonalizationEnabled)
      ensures store.session == (if old(store.consentGiven) && old(store.isPersonalizationEnabled)
                                then (if old(store.session).Some? then Some(old(store.session).value.(lastActivity := now)) else None) else old(store.session))
    {
      store.TrackBehavior("recommendation_click", now);
    }

    /** Dismissing remembers the id, which every later run then filters out, and tracks a
        `recommendation_dismiss` event, worth the one point of an event without an entry. */
    method HandleDismiss(store: Store, id: string, now: string)
      requires store.Valid()
      modifies this, store
      ensures store.Valid()
      ensures dismissedIds == old(dismissedIds) + [id]
      ensures recommendations == old(recommendations)
      ensures old(store.consentGiven) && old(store.isPersonalizationEnabled) ==>
                store.behaviorScore == Min(MaxScore, old(store.behaviorScore) + 1)
      ensures !old(store.consentGiven) || !old(store.isPersonalizationEnabled) ==>
                store.behaviorScore == old(store.behaviorScore)
      ensures store.recommendations == old(store.recommendations) && store.appliedRules == old(store.appliedRules)
      ensures store.currentPersona == old(store.currentPersona)
      ensures store.consentGiven == old(store.consentGiven) && store.isPersonalizationEnabled == old(store.isPersonalizationEnabled)
      ensures store.session == (if old(store.consentGiven) && old(store.isPersonalizationEnabled)
                                then (if old(store.session).Some? then Some(old(store.session).value.(lastActivity := now)) else None) else old(store.session))
    {
      dismissedIds := dismissedIds + [id];
      store.TrackBehavior("recommendation_dismiss", now);
    }
  }


  /** The `forEach` that adds every shown recommendation to the store, in order. */
  method AddEach(store: Store, recs: seq<Recommendation>)
    requires store.Valid()
    modifies store
    ensures store.Valid()
    ensures store.recommendations == AddAll(old(store.recommendations), recs)
    ensures store.currentPersona == old(store.currentPersona) && store.session == old(store.session)
    ensures store.appliedRules == old(store.appliedRules) && store.behaviorScore == old(store.behaviorScore)
    ensures store.engagementLevel == old(store.engagementLevel) && store.consentGiven == old(store.consentGiven)
    ensures store.isPersonalizationEnabled == old(store.isPersonalizationEnabled)
  {
    var i := 0;
    while i < |recs|
      invariant 0 <= i <= |recs|
      invariant store.Valid()
      invariant store.recommendations == AddAll(old(store.recommendations), recs[..i])
      invariant store.currentPersona == old(store.currentPersona) && store.session == old(store.session)
      invariant store.appliedRules == old(store.appliedRules) && store.behaviorScore == old(store.behaviorScore)
      invariant store.engagementLevel == old(store.engagementLevel) && store.consentGiven == old(store.consentGiven)
      invariant store.isPersonalizationEnabled == old(store.isPersonalizationEnabled)
    {
      store.AddRecommendation(recs[i]);
      assert recs[..i + 1] == recs[..i] + [recs[i]];
      AddAllSnoc(old(store.recommendations), recs[..i], recs[i]);
      i := i + 1;
    }
    assert recs[..i] == recs;
  }
}
