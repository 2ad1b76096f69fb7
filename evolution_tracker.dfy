/** The persona-evolution tracker: the predicted moves out of the visitor's current persona,
    persona display names and icons, and the growth-stage and likelihood labels. */
module EvolutionTracker {
  import opened Common
  import opened PersonalizationTypes
  import opened PersonalizationStore
  import RuleEngine

  datatype Evolution = Evolution(
    fromPersona: string, toPersona: string, probability: int, indicators: seq<string>, timeframe: string)

  const EvolutionData: seq<Evolution> := [
    Evolution("startup-sam", "scaling-sarah", 75,
      ["High engagement with scaling content", "Multiple product launches", "Revenue growth"], "3-6 months"),
    Evolution("learning-larry", "provider-priya", 60,
      ["Expert-level knowledge", "Community contributions", "Teaching behavior"], "6-12 months")]

  predicate From(e: Evolution, persona: string)
  {
    e.fromPersona == persona
  }

  /** `filter((evo) => evo.fromPersona === persona)`. */
  function Predictions(data: seq<Evolution>, persona: string): (r: seq<Evolution>)
    ensures forall i :: 0 <= i < |r| ==> r[i] in data && r[i].fromPersona == persona
    ensures forall i :: 0 <= i < |data| && data[i].fromPersona == persona ==> data[i] in r
  {
    Filter(data, (e: Evolution) => From(e, persona))
  }

  /** The predictions keep the order of the data. */
  lemma PredictionsOrdered(data: seq<Evolution>, persona: string)
    ensures IsSubsequence(Predictions(data, persona), data)
  {
    FilterIsSubsequence(data, (e: Evolution) => From(e, persona));
  }

  /** Of the five personas only startup-sam and learning-larry have a predicted move, one
      each; for the other three the tracker renders nothing. */
  lemma PredictionsPerPersona()
    ensures Predictions(EvolutionData, "startup-sam") == [EvolutionData[0]]
    ensures Predictions(EvolutionData, "learning-larry") == [EvolutionData[1]]
    ensures Predictions(EvolutionData, "scaling-sarah") == []
    ensures Predictions(EvolutionData, "investor-ian") == []
    ensures Predictions(EvolutionData, "provider-priya") == []
  {
    assert EvolutionData[1..][1..] == [];
  }

  const Icons: map<string, string> := map[
    "startup-sam" := "\U{1F680}", "scaling-sarah" := "\U{1F4C8}", "learning-larry" := "\U{1F393}",
    "investor-ian" := "\U{1F4BC}", "provider-priya" := "\U{1F91D}"]

  const DefaultIcon: string := "\U{1F464}"

  /** `icons[persona] || "👤"`. */
  function PersonaIcon(persona: string): (r: string)
    ensures persona in Icons ==> r == Icons[persona]
    ensures persona !in Icons ==> r == DefaultIcon
  {
    if persona in Icons && Icons[persona] != "" then Icons[persona] else DefaultIcon
  }

  /** Every persona slug has its own icon, and the fallback icon is none of theirs. */
  lemma IconsDistinct(p: Persona, q: Persona)
    ensures PersonaIcon(p.Slug()) != DefaultIcon
    ensures p != q ==> PersonaIcon(p.Slug()) != PersonaIcon(q.Slug())
  {
  }

  /** The growth-stage label of an engagement score. */
  function GrowthStage(score: int): (r: string)
    ensures r == "Early" <==> score < 30
    ensures r == "Growing" <==> 30 <= score < 70
    ensures r == "Advanced" <==> score >= 70
  {
    if score < 30 then "Early" else if score < 70 then "Growing" else "Advanced"
  }

  /** The likelihood badge is highlighted only above seventy percent. */
  function BadgeVariant(probability: int): (r: string)
    ensures r == "default" <==> probability > 70
    ensures r != "default" ==> r == "secondary"
  {
    if probability > 70 then "default" else "secondary"
  }

  /** The tracker renders only with a persona and at least one prediction. */
  predicate Renders(persona: Option<PersonaProfile>, predictions: seq<Evolution>)
  {
    persona.Some? && |predictions| > 0
  }

  /** A two-word slug reads as its two words, capitalised, with a space between: "startup-sam"
      reads "Startup Sam". */
  lemma TwoWordDisplayName(w: string, t: string)
    requires '-' !in w && '-' !in t
    ensures DisplayName(w + "-" + t) == Capitalize(w) + " " + Capitalize(t)
  {
    DisplayNameFirstWord(w, t);
    SplitNoSep(t, '-');
    assert MapStrings(Capitalize, [t]) == [Capitalize(t)];
  }

  /** The score change of one run with consent: a one-point event, capped at 100. */
  function RunStep(s: int): int
  {
    Min(MaxScore, s + 1)
  }

  /** The effect depends on the score it raises, so with consent it runs again after every
      run: after `n` runs the score has climbed by `n`, and it stops changing at 100. */
  lemma {:induction false} RunsReachMax(score: int, n: nat)
    requires 0 <= score <= MaxScore
    ensures RuleEngine.Iterate(RunStep, score, n) == Min(MaxScore, score + n)
    ensures n >= MaxScore ==> RuleEngine.Iterate(RunStep, score, n) == MaxScore
    decreases n
  {
    if n > 0 {
      RunsReachMax(RunStep(score), n - 1);
    }
  }

  class Tracker {
    var evolutionPredictions: seq<Evolution>

    constructor()
      ensures evolutionPredictions == []
    {
      evolutionPredictions := [];
    }

    /** One run of the effect: without a persona nothing happens; otherwise the predictions
        are recomputed and a `persona_evolution_analysis` event, worth one point, is tracked. */
    method Refresh(store: Store, now: string)
      requires store.Valid()
      modifies this, store
      ensures store.Valid()
      ensures old(store.currentPersona).None? ==>
                evolutionPredictions == old(evolutionPredictions) && store.behaviorScore == old(store.behaviorScore)
      ensures old(store.currentPersona).Some? ==>
                evolutionPredictions == Predictions(EvolutionData, old(store.currentPersona).value.persona.Slug())
      ensures old(store.currentPersona).Some? && old(store.consentGiven) && old(store.isPersonalizationEnabled) ==>
                store.behaviorScore == Min(MaxScore, old(store.behaviorScore) + 1)
      ensures old(store.currentPersona).Some? && !(old(store.consentGiven) && old(store.isPersonalizationEnabled)) ==>
                store.behaviorScore == old(store.behaviorScore) && store.session == old(store.session)
      ensures old(store.currentPersona).Some? && old(store.consentGiven) && old(store.isPersonalizationEnabled) ==>
                store.session == (if old(store.session).Some? then Some(old(store.session).value.(lastActivity := now)) else None)
      ensures old(store.currentPersona).None? ==>
                store.engagementLevel == old(store.engagementLevel) && store.session == old(store.session)
      ensures store.currentPersona == old(store.currentPersona) && store.recommendations == old(store.recommendations)
      ensures store.appliedRules == old(store.appliedRules)
      ensures store.consentGiven == old(store.consentGiven) && store.isPersonalizationEnabled == old(store.isPersonalizationEnabled)
    {
      if store.currentPersona.None? {
        return;
      }
      evolutionPredictions := Predictions(EvolutionData, store.currentPersona.value.persona.Slug());
      store.TrackBehavior("persona_evolution_analysis", now);
    }
  }
}
