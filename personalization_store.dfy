/** The personalization store: the visitor's persona, engagement score and level, the
    recommendations and rules applied so far, and the consent and enable switches. */
module PersonalizationStore {
  import opened Common
  import opened PersonalizationTypes

  const MaxScore: int := 100
  const MaxRecommendations: nat := 10

  // ---------------------------------------------------------------- pure rules

  /** `Math.max(0, Math.min(100, score))`. */
  function Clamp(score: int): (r: int)
    ensures 0 <= r <= MaxScore
    ensures 0 <= score <= MaxScore ==> r == score
    ensures score < 0 ==> r == 0
    ensures score > MaxScore ==> r == MaxScore
  {
    Max(0, Min(MaxScore, score))
  }

  /** The level band of a clamped score: below 30 low, below 70 medium, otherwise high. */
  function LevelOf(score: int): (l: Level)
    ensures l == Low <==> score < 30
    ensures l == High <==> score >= 70
  {
    if score < 30 then Low else if score < 70 then Medium else High
  }

  /** A higher score never gives a lower level. */
  lemma LevelOfMonotone(a: int, b: int)
    requires a <= b
    ensures LevelOf(a).Rank() <= LevelOf(b).Rank()
  {
  }

  /** Points a tracked event adds: the six named events have their own value, any other event
      adds one point. */
  function Increment(event: string): (r: int)
    ensures r >= 1
    ensures event == "service_inquiry" ==> r == 15
    ensures event !in {"page_view", "content_engagement", "video_watch", "download", "form_submit", "service_inquiry"} ==> r == 1
  {
    match event
    case "page_view" => 1
    case "content_engagement" => 3
    case "video_watch" => 5
    case "download" => 7
    case "form_submit" => 10
    case "service_inquiry" => 15
    case _ => 1
  }

  /** The score after tracking `event` from `score`. */
  function ScoreAfter(score: int, event: string): (r: int)
    requires 0 <= score <= MaxScore
    ensures score <= r <= MaxScore
    ensures r == score <==> score == MaxScore
    ensures r == Min(MaxScore, score + Increment(event))
  {
    Clamp(score + Increment(event))
  }

  /** `[rec, ...recs.slice(0, 9)]`: the newest recommendation first, at most ten kept. */
  function WithRecommendation(recs: seq<Recommendation>, rec: Recommendation): (r: seq<Recommendation>)
    ensures |r| == Min(MaxRecommendations, |recs| + 1)
    ensures r[0] == rec && r[1..] == recs[..|r| - 1]
  {
    [rec] + SliceTo(recs, 9)
  }

  /** Every recommendation beyond the newest nine drops out once a new one is added, and the
      ones that stay keep their order; adding ten in a row replaces the whole list. */
  lemma {:induction false} TenNewRecommendationsReplaceAll(recs: seq<Recommendation>, added: seq<Recommendation>)
    requires |added| == MaxRecommendations
    ensures AddAll(recs, added) == Reverse(added)
  {
    AddAllShape(recs, added);
    assert AddAll(recs, added) == Reverse(added) + recs[..0];
  }

  /** Adding the given recommendations one after another. */
  function AddAll(recs: seq<Recommendation>, added: seq<Recommendation>): seq<Recommendation>
    decreases |added|
  {
    if added == [] then recs else AddAll(WithRecommendation(recs, added[0]), added[1..])
  }

  function Reverse<T>(s: seq<T>): (r: seq<T>)
    ensures |r| == |s|
    ensures forall i :: 0 <= i < |s| ==> r[i] == s[|s| - 1 - i]
  {
    if s == [] then [] else Reverse(s[1..]) + [s[0]]
  }

  /** After up to ten additions the list is the additions, newest first, followed by what is
      left of the old list. */
  lemma {:induction false} AddAllShape(recs: seq<Recommendation>, added: seq<Recommendation>)
    requires |added| <= MaxRecommendations
    requires added != [] || |recs| <= MaxRecommendations
    ensures AddAll(recs, added)
         == Reverse(added) + recs[..Min(|recs|, MaxRecommendations - |added|)]
    decreases |added|
  {
    if added != [] {
      var once := WithRecommendation(recs, added[0]);
      AddAllShape(once, added[1..]);
      var k := Min(|once|, MaxRecommendations - |added[1..]|);
      assert once[..k] == [added[0]] + recs[..Min(|recs|, MaxRecommendations - |added|)];
      assert Reverse(added) == Reverse(added[1..]) + [added[0]];
      var tail := recs[..Min(|recs|, MaxRecommendations - |added|)];
      calc {
        AddAll(recs, added);
        Reverse(added[1..]) + once[..k];
        Reverse(added[1..]) + ([added[0]] + tail);
        (Reverse(added[1..]) + [added[0]]) + tail;
        Reverse(added) + tail;
      }
    }
  }

  /** No two rules in the list share an id. */
  predicate DistinctIds(rules: seq<Rule>)
  {
    forall i, j :: 0 <= i < j < |rules| ==> rules[i].id != rules[j].id
  }

  /** `[...rules.filter(r => r.id !== rule.id), rule]`: the rule is moved to (or put at) the end,
      replacing any earlier rule with its id. */
  function WithRule(rules: seq<Rule>, rule: Rule): seq<Rule>
  {
    Filter(rules, (x: Rule) => x.id != rule.id) + [rule]
  }

  /** Applying a rule keeps ids distinct, keeps every other rule, and leaves exactly one rule
      with that id: the new one, at the end. */
  lemma {:induction false} WithRuleProperties(rules: seq<Rule>, rule: Rule)
    requires DistinctIds(rules)
    ensures DistinctIds(WithRule(rules, rule))
    ensures forall x :: x in rules && x.id != rule.id ==> x in WithRule(rules, rule)
    ensures forall x :: x in WithRule(rules, rule) && x.id == rule.id ==> x == rule
    ensures IsSubsequence(WithRule(rules, rule)[..|WithRule(rules, rule)| - 1], rules)
  {
    var p := (x: Rule) => x.id != rule.id;
    var kept := Filter(rules, p);
    FilterIsSubsequence(rules, p);
    SubsequenceDistinct(kept, rules);
    var r := WithRule(rules, rule);
    assert r[..|r| - 1] == kept;
    forall x | x in rules && x.id != rule.id
      ensures x in r
    {
      var i :| 0 <= i < |rules| && rules[i] == x;
      assert rules[i] in kept;
    }
  }

  /** Dropping elements keeps ids distinct. */
  lemma {:induction false} SubsequenceDistinct(a: seq<Rule>, b: seq<Rule>)
    requires IsSubsequence(a, b) && DistinctIds(b)
    ensures DistinctIds(a)
    decreases |b|
  {
    if a != [] {
      assert |b| > 0;
      if a[0] == b[0] && IsSubsequence(a[1..], b[1..]) {
        SubsequenceDistinct(a[1..], b[1..]);
        SubsequenceElements(a[1..], b[1..]);
        forall i, j | 0 <= i < j < |a|
          ensures a[i].id != a[j].id
        {
          if i > 0 {
            assert a[i] == a[1..][i - 1] && a[j] == a[1..][j - 1];
          } else {
            assert a[j] == a[1..][j - 1];
            assert a[j] in a[1..];
            var k :| 0 <= k < |b[1..]| && b[1..][k] == a[j];
            assert b[k + 1] == a[j];
          }
        }
      } else {
        SubsequenceDistinct(a, b[1..]);
      }
    }
  }

  /** Every element of a subsequence occurs in the sequence. */
  lemma {:induction false} SubsequenceElements<T>(a: seq<T>, b: seq<T>)
    requires IsSubsequence(a, b)
    ensures forall x :: x in a ==> x in b
    decreases |b|
  {
    if a != [] {
      if a[0] == b[0] && IsSubsequence(a[1..], b[1..]) {
        SubsequenceElements(a[1..], b[1..]);
        assert forall x :: x in a ==> x == a[0] || x in a[1..];
      } else {
        SubsequenceElements(a, b[1..]);
      }
    }
  }

  /** Applying the same rule twice is the same as applying it once. */
  lemma WithRuleIdempotent(rules: seq<Rule>, rule: Rule)
    ensures WithRule(WithRule(rules, rule), rule) == WithRule(rules, rule)
  {
    var p := (x: Rule) => x.id != rule.id;
    var kept := Filter(rules, p);
    FilterAll(kept, p);
    FilterAppendRejected(kept, rule, p);
  }

  /** Filtering a list extended by a rejected element is filtering the list. */
  lemma {:induction false} FilterAppendRejected(s: seq<Rule>, x: Rule, p: Rule -> bool)
    requires !p(x)
    ensures Filter(s + [x], p) == Filter(s, p)
  {
    if s != [] {
      FilterAppendRejected(s[1..], x, p);
      assert (s + [x])[1..] == s[1..] + [x];
    } else {
      assert Filter([x], p) == Filter([x][1..], p);
    }
  }

  /** `getPersonalizedContent`: with no persona nothing; otherwise the stored recommendations of
      the given type, for the current persona, whose level is spelled like the store's level. */
  function PersonalizedContent(persona: Option<PersonaProfile>, recs: seq<Recommendation>,
                               level: Level, contentType: string): (r: seq<Recommendation>)
    ensures persona.None? ==> r == []
    ensures forall x :: x in r ==> x in recs && x.kind.Slug() == contentType
  {
    if persona.None? then []
    else
      Filter(recs, (rec: Recommendation) =>
        rec.kind.Slug() == contentType && persona.value.persona.Slug() in rec.personas
        && rec.level.Slug() == level.Slug())
  }

  /** The level test compares a low/medium/high level with a beginner/intermediate/advanced one,
      so no recommendation is ever returned. */
  lemma {:induction false} PersonalizedContentAlwaysEmpty(persona: Option<PersonaProfile>,
                                                          recs: seq<Recommendation>, level: Level, contentType: string)
    ensures PersonalizedContent(persona, recs, level, contentType) == []
  {
    if persona.Some? {
      var r := PersonalizedContent(persona, recs, level, contentType);
      if r != [] {
        assert r[0] in r;
        assert r[0].level.Slug() == level.Slug() by {
          var i :| 0 <= i < |recs| && recs[i] == r[0];
        }
        LevelNeverMatchesRecLevel(level, r[0].level);
      }
    }
  }

  // ---------------------------------------------------------------- the store

  class Store {
    var currentPersona: Option<PersonaProfile>
    var session: Option<Session>
    var recommendations: seq<Recommendation>
    var appliedRules: seq<Rule>
    var behaviorScore: int
    var engagementLevel: Level
    var isPersonalizationEnabled: bool
    var consentGiven: bool

    /** The score stays in range, the level matches it, at most ten recommendations are kept
        and no rule is applied twice. */
    ghost predicate Valid()
      reads this
    {
      0 <= behaviorScore <= MaxScore && engagementLevel == LevelOf(behaviorScore)
      && |recommendations| <= MaxRecommendations && DistinctIds(appliedRules)
    }

    constructor()
      ensures Valid()
      ensures currentPersona == None && session == None
      ensures recommendations == [] && appliedRules == []
      ensures behaviorScore == 0 && engagementLevel == Low
      ensures isPersonalizationEnabled && !consentGiven
    {
      currentPersona := None;
      session := None;
      recommendations := [];
      appliedRules := [];
      behaviorScore := 0;
      engagementLevel := Low;
      isPersonalizationEnabled := true;
      consentGiven := false;
    }

    /** Sets the persona; the rule hook it then calls does nothing. */
    method SetPersona(persona: PersonaProfile)
      requires Valid()
      modifies this
      ensures Valid()
      ensures currentPersona == Some(persona)
      ensures session == old(session) && recommendations == old(recommendations)
      ensures appliedRules == old(appliedRules) && behaviorScore == old(behaviorScore)
      ensures engagementLevel == old(engagementLevel)
      ensures isPersonalizationEnabled == old(isPersonalizationEnabled) && consentGiven == old(consentGiven)
    {
      currentPersona := Some(persona);
    }

    method UpdateEngagementScore(score: int)
      requires Valid()
      modifies this
      ensures Valid()
      ensures behaviorScore == Clamp(score) && engagementLevel == LevelOf(Clamp(score))
      ensures currentPersona == old(currentPersona) && session == old(session)
      ensures recommendations == old(recommendations) && appliedRules == old(appliedRules)
      ensures isPersonalizationEnabled == old(isPersonalizationEnabled) && consentGiven == old(consentGiven)
    {
      behaviorScore := Clamp(score);
      engagementLevel := LevelOf(behaviorScore);
    }

    method AddRecommendation(rec: Recommendation)
      requires Valid()
      modifies this
      ensures Valid()
      ensures recommendations == WithRecommendation(old(recommendations), rec)
      ensures currentPersona == old(currentPersona) && session == old(session)
      ensures appliedRules == old(appliedRules) && behaviorScore == old(behaviorScore)
      ensures engagementLevel == old(engagementLevel)
      ensures isPersonalizationEnabled == old(isPersonalizationEnabled) && consentGiven == old(consentGiven)
    {
      recommendations := WithRecommendation(recommendations, rec);
    }

    method ApplyRule(rule: Rule)
      requires Valid()
      modifies this
      ensures Valid()
      ensures appliedRules == WithRule(old(appliedRules), rule)
      ensures currentPersona == old(currentPersona) && session == old(session)
      ensures recommendations == old(recommendations) && behaviorScore == old(behaviorScore)
      ensures engagementLevel == old(engagementLevel)
      ensures isPersonalizationEnabled == old(isPersonalizationEnabled) && consentGiven == old(consentGiven)
    {
      WithRuleProperties(appliedRules, rule);
      appliedRules := WithRule(appliedRules, rule);
    }

    /** Without consent, or with personalization switched off, nothing changes. Otherwise the
        score grows by the event's points (capped at 100), the level follows, and an open
        session records `now` as its last activity. */
    method TrackBehavior(event: string, now: string)
      requires Valid()
      modifies this
      ensures Valid()
      ensures !old(consentGiven) || !old(isPersonalizationEnabled) ==>
                behaviorScore == old(behaviorScore) && session == old(session)
      ensures old(consentGiven) && old(isPersonalizationEnabled) ==>
                behaviorScore == ScoreAfter(old(behaviorScore), event)
                && session == (if old(session).Some? then Some(old(session).value.(lastActivity := now)) else None)
      ensures engagementLevel == LevelOf(behaviorScore)
      ensures currentPersona == old(currentPersona) && recommendations == old(recommendations)
      ensures appliedRules == old(appliedRules)
      ensures isPersonalizationEnabled == old(isPersonalizationEnabled) && consentGiven == old(consentGiven)
    {
      if !consentGiven || !isPersonalizationEnabled {
        return;
      }
      var previous := session;
      UpdateEngagementScore(behaviorScore + Increment(event));
      if previous.Some? {
        session := Some(previous.value.(lastActivity := now));
      }
    }

    method SetConsentGiven(consent: bool)
      requires Valid()
      modifies this
      ensures Valid()
      ensures consentGiven == consent
      ensures currentPersona == old(currentPersona) && session == old(session)
      ensures recommendations == old(recommendations) && appliedRules == old(appliedRules)
      ensures behaviorScore == old(behaviorScore) && engagementLevel == old(engagementLevel)
      ensures isPersonalizationEnabled == old(isPersonalizationEnabled)
    {
      consentGiven := consent;
    }

    /** Forgets the persona, session, recommendations, applied rules and score; the consent and
        enable switches stay as they were. */
    method ResetPersonalization()
      modifies this
      ensures Valid()
      ensures currentPersona == None && session == None
      ensures recommendations == [] && appliedRules == []
      ensures behaviorScore == 0 && engagementLevel == Low
      ensures isPersonalizationEnabled == old(isPersonalizationEnabled) && consentGiven == old(consentGiven)
    {
      currentPersona := None;
      session := None;
      recommendations := [];
      appliedRules := [];
      behaviorScore := 0;
      engagementLevel := Low;
    }

  }
}
