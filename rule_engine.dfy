/** The rule engine component: five predefined personalization rules, the evaluation of their
    conditions against the visitor's state, and one round of the effect that applies every
    matching rule in descending priority. */
module RuleEngine {
  import opened Common
  import opened Sorting
  import opened PersonalizationTypes
  import opened PersonalizationStore

  // ---------------------------------------------------------------- the rules

  function Cond(kind: ConditionType, op: Operator, value: Value, weight: real): Condition
  {
    Condition(kind, op, value, weight)
  }

  function Act(kind: ActionType, target: string, value: string): Action
  {
    Action(kind, target, Str(value), None)
  }

  const StartupSamRule: Rule := Rule(
    "startup-sam-high-engagement",
    "Startup Sam High Engagement → Launch Program Focus",
    [Cond(PersonaCond, EqualsOp, Str("startup-sam"), 1.0),
     Cond(EngagementCond, GreaterThan, Num(70), 0.8)],
    [Act(ContentAction, "hero-section", "launch-program-focused"),
     Act(CtaAction, "primary-cta", "Start Your Launch Journey"),
     Act(RecommendationAction, "sidebar", "launch-program-preview")],
    10, true, None)

  const ScalingSarahRule: Rule := Rule(
    "scaling-sarah-pricing-visits",
    "Scaling Sarah + Pricing Visits → Scale Consultation",
    [Cond(PersonaCond, EqualsOp, Str("scaling-sarah"), 1.0),
     Cond(BehaviorCond, ContainsOp, Str("pricing-page-visit"), 0.9)],
    [Act(CtaAction, "pricing-cta", "Book Scale Strategy Call"),
     Act(ContentAction, "testimonials", "scaling-success-stories")],
    9, true, None)

  const LearningLarryRule: Rule := Rule(
    "learning-larry-video-completion",
    "Learning Larry + Video Completion → Master Program",
    [Cond(PersonaCond, EqualsOp, Str("learning-larry"), 1.0),
     Cond(BehaviorCond, ContainsOp, Str("video-completion"), 0.8)],
    [Act(RecommendationAction, "next-content", "master-program-preview"),
     Act(ContentAction, "sidebar", "advanced-learning-path")],
    8, true, None)

  const MobileRule: Rule := Rule(
    "mobile-users-simplified",
    "Mobile Users → Simplified Interface",
    [Cond(DeviceCond, EqualsOp, Str("mobile"), 1.0)],
    [Act(NavigationAction, "main-nav", "simplified"),
     Act(ContentAction, "hero", "mobile-optimized")],
    5, true, None)

  const ReturnVisitorRule: Rule := Rule(
    "return-visitor-advanced",
    "Return Visitors → Advanced Content Priority",
    [Cond(BehaviorCond, GreaterThan, Num(1), 1.0)],
    [Act(ContentAction, "content-priority", "advanced-first"),
     Act(NavigationAction, "quick-access", "show-advanced")],
    6, true, None)

  const PersonalizationRules: seq<Rule> :=
    [StartupSamRule, ScalingSarahRule, LearningLarryRule, MobileRule, ReturnVisitorRule]

  /** The predefined rules have distinct ids. */
  lemma PredefinedRulesDistinct()
    ensures DistinctIds(PersonalizationRules)
  {
  }

  // ---------------------------------------------------------------- evaluation

  /** `compareValues`: a numeric comparison by operator; any other operator, or a non-numeric
      expected value, fails. */
  function CompareValues(actual: int, op: Operator, expected: Value): (b: bool)
    ensures b ==> expected.Num? && op in {EqualsOp, GreaterThan, LessThan}
    ensures expected.Num? && op == EqualsOp ==> (b <==> actual == expected.n)
    ensures expected.Num? && op == GreaterThan ==> (b <==> actual > expected.n)
    ensures expected.Num? && op == LessThan ==> (b <==> actual < expected.n)
  {
    match expected
    case Str(_) => false
    case Num(n) =>
      match op
      case EqualsOp => actual == n
      case GreaterThan => actual > n
      case LessThan => actual < n
      case _ => false
  }

  /** `checkDeviceType`: "desktop" when there is no window (`None`), otherwise "mobile" below a
      width of 768 pixels and "desktop" from there on. */
  function DeviceType(width: Option<int>): (d: string)
    ensures d == "mobile" <==> width.Some? && width.value < 768
    ensures d == "mobile" || d == "desktop"
  {
    if width.None? then "desktop" else if width.value < 768 then "mobile" else "desktop"
  }

  /** What a round of the effect reads: the persona and score captured when it ran, and the
      window width (`None` when there is no window). */
  datatype Context = Context(persona: Option<PersonaProfile>, score: int, width: Option<int>)

  /** `evaluateCondition`: persona conditions compare the persona slug, engagement conditions
      compare the score, behaviour conditions always hold, device conditions compare the device
      type, and time and page conditions never hold. */
  function EvaluateCondition(c: Condition, ctx: Context): (b: bool)
    ensures c.kind == BehaviorCond ==> b
    ensures c.kind in {TimeCond, PageCond} ==> !b
    ensures c.kind == PersonaCond ==> (b <==> ctx.persona.Some? && c.value == Str(ctx.persona.value.persona.Slug()))
    ensures c.kind == DeviceCond ==> (b <==> c.value == Str(DeviceType(ctx.width)))
    ensures c.kind == EngagementCond ==> (b <==> CompareValues(ctx.score, c.op, c.value))
  {
    match c.kind
    case PersonaCond => ctx.persona.Some? && c.value == Str(ctx.persona.value.persona.Slug())
    case EngagementCond => CompareValues(ctx.score, c.op, c.value)
    case BehaviorCond => true
    case DeviceCond => c.value == Str(DeviceType(ctx.width))
    case _ => false
  }

  /** An active rule all of whose conditions hold. */
  predicate RuleApplies(rule: Rule, ctx: Context)
  {
    rule.active && forall i :: 0 <= i < |rule.conditions| ==> EvaluateCondition(rule.conditions[i], ctx)
  }

  // ---------------------------------------------------------------- priority order

  /** The key of `sort((a, b) => b.priority - a.priority)`. */
  function RulePriority(r: Rule): int
  {
    r.priority
  }

  /** Non-increasing priority. */
  predicate SortedByPriority(s: seq<Rule>)
  {
    SortedDesc(s, RulePriority)
  }

  /** The rules one round applies, in the order it applies them. */
  function SelectRules(rules: seq<Rule>, ctx: Context): seq<Rule>
  {
    SortDesc(Filter(rules, (x: Rule) => RuleApplies(x, ctx)), RulePriority)
  }

  /** A round applies exactly the active rules whose conditions all hold, in descending
      priority. */
  lemma SelectRulesSpec(rules: seq<Rule>, ctx: Context)
    ensures SortedByPriority(SelectRules(rules, ctx))
    ensures forall x :: x in SelectRules(rules, ctx) <==> x in rules && RuleApplies(x, ctx)
  {
    var applicable := Filter(rules, (x: Rule) => RuleApplies(x, ctx));
    SortDescMembers(applicable, RulePriority);
  }

  /** The return-visitor rule has only a behaviour condition, so every round over a rule list
      that holds it (as the predefined list does) applies it. */
  lemma ReturnVisitorAlwaysApplies(rules: seq<Rule>, ctx: Context)
    requires ReturnVisitorRule in rules
    ensures ReturnVisitorRule in SelectRules(rules, ctx)
    ensures ReturnVisitorRule in PersonalizationRules
  {
    SelectRulesSpec(rules, ctx);
    assert RuleApplies(ReturnVisitorRule, ctx);
    assert PersonalizationRules[4] == ReturnVisitorRule;
  }

  /** The rules keyed to a persona. */
  predicate IsPersonaRule(r: Rule)
  {
    r == StartupSamRule || r == ScalingSarahRule || r == LearningLarryRule
  }

  /** At most one of the three persona rules applies: a visitor has a single persona. */
  lemma AtMostOnePersonaRule(ctx: Context, x: Rule, y: Rule)
    requires x in SelectRules(PersonalizationRules, ctx) && y in SelectRules(PersonalizationRules, ctx)
    requires IsPersonaRule(x) && IsPersonaRule(y)
    ensures x == y
  {
    SelectRulesSpec(PersonalizationRules, ctx);
    assert RuleApplies(x, ctx) && RuleApplies(y, ctx);
    assert EvaluateCondition(x.conditions[0], ctx) && EvaluateCondition(y.conditions[0], ctx);
  }

  /** A startup-sam visitor above 70 points on a narrow screen gets the launch rule, then the
      return-visitor rule, then the mobile rule. */
  lemma StartupSamOnMobile(profile: PersonaProfile)
    requires profile.persona == StartupSam
    ensures SelectRules(PersonalizationRules, Context(Some(profile), 80, Some(400)))
         == [StartupSamRule, ReturnVisitorRule, MobileRule]
  {
    StartupSamOnMobileMatches(profile);
    SortLaunchMobileReturn();
  }

  lemma StartupSamOnMobileMatches(profile: PersonaProfile)
    requires profile.persona == StartupSam
    ensures Filter(PersonalizationRules, (x: Rule) => RuleApplies(x, Context(Some(profile), 80, Some(400))))
         == [StartupSamRule, MobileRule, ReturnVisitorRule]
  {
    var ctx := Context(Some(profile), 80, Some(400));
    var p := (x: Rule) => RuleApplies(x, ctx);
    assert p(StartupSamRule);
    assert !EvaluateCondition(ScalingSarahRule.conditions[0], ctx);
    assert !EvaluateCondition(LearningLarryRule.conditions[0], ctx);
    assert p(MobileRule);
    assert p(ReturnVisitorRule);
    FilterKeepsFirstAndLastTwo(PersonalizationRules, p);
  }

  lemma FilterKeepsFirstAndLastTwo(rs: seq<Rule>, p: Rule -> bool)
    requires |rs| == 5 && p(rs[0]) && !p(rs[1]) && !p(rs[2]) && p(rs[3]) && p(rs[4])
    ensures Filter(rs, p) == [rs[0], rs[3], rs[4]]
  {
    assert rs[4..][1..] == [];
    assert Filter(rs[4..], p) == [rs[4]];
    assert rs[3..][1..] == rs[4..];
    assert Filter(rs[3..], p) == [rs[3], rs[4]];
    assert rs[2..][1..] == rs[3..];
    assert Filter(rs[2..], p) == [rs[3], rs[4]];
    assert rs[1..][1..] == rs[2..];
    assert Filter(rs[1..], p) == [rs[3], rs[4]];
  }

  lemma SortLaunchMobileReturn()
    ensures SortDesc([StartupSamRule, MobileRule, ReturnVisitorRule], RulePriority)
         == [StartupSamRule, ReturnVisitorRule, MobileRule]
  {
    var s := [StartupSamRule, MobileRule, ReturnVisitorRule];
    assert s[1..] == [MobileRule, ReturnVisitorRule] && s[1..][1..] == [ReturnVisitorRule];
    assert SortDesc([ReturnVisitorRule], RulePriority) == [ReturnVisitorRule];
    assert InsertDesc(MobileRule, [ReturnVisitorRule], RulePriority) == [ReturnVisitorRule, MobileRule];
    assert SortDesc(s[1..], RulePriority) == [ReturnVisitorRule, MobileRule];
  }

  // ---------------------------------------------------------------- one round

  /** Applying the given rules one after another, as the store's `applyRule` does. */
  function ApplyAll(applied: seq<Rule>, rules: seq<Rule>): seq<Rule>
    decreases |rules|
  {
    if rules == [] then applied else ApplyAll(WithRule(applied, rules[0]), rules[1..])
  }

  /** Applying rules one after another keeps ids distinct. */
  lemma {:induction false} ApplyAllDistinct(applied: seq<Rule>, rules: seq<Rule>)
    requires DistinctIds(applied)
    ensures DistinctIds(ApplyAll(applied, rules))
    decreases |rules|
  {
    if rules != [] {
      WithRuleProperties(applied, rules[0]);
      ApplyAllDistinct(WithRule(applied, rules[0]), rules[1..]);
    }
  }

  /** Applying a list of rules ends with the last of them. */
  lemma {:induction false} ApplyAllEndsWithLast(applied: seq<Rule>, rules: seq<Rule>)
    requires rules != []
    ensures ApplyAll(applied, rules) != []
    ensures ApplyAll(applied, rules)[|ApplyAll(applied, rules)| - 1] == rules[|rules| - 1]
  {
    var init := rules[..|rules| - 1];
    assert rules == init + [rules[|rules| - 1]];
    ApplyAllSnoc(applied, init, rules[|rules| - 1]);
  }

  lemma ApplyAllSnoc(applied: seq<Rule>, rules: seq<Rule>, x: Rule)
    ensures ApplyAll(applied, rules + [x]) == WithRule(ApplyAll(applied, rules), x)
    decreases |rules|
  {
    if rules != [] {
      ApplyAllSnoc(WithRule(applied, rules[0]), rules[1..], x);
      assert (rules + [x])[1..] == rules[1..] + [x];
    } else {
      assert ApplyAll(WithRule(applied, x), []) == WithRule(applied, x);
    }
  }

  function Gain(rules: seq<Rule>, ctx: Context): (k: nat)
    requires ReturnVisitorRule in rules
    ensures k >= 1
  {
    ReturnVisitorAlwaysApplies(rules, ctx);
    |SelectRules(rules, ctx)|
  }

  /** The score after one round over `rules` from `score`: one point for every rule applied,
      capped at 100. */
  function RoundScore(rules: seq<Rule>, score: int, persona: Option<PersonaProfile>, width: Option<int>): (r: int)
    requires ReturnVisitorRule in rules && 0 <= score <= MaxScore
    ensures Min(MaxScore, score + 1) <= r <= MaxScore
  {
    ReturnVisitorAlwaysApplies(rules, Context(persona, score, width));
    Min(MaxScore, score + Gain(rules, Context(persona, score, width)))
  }

  /** The score after `n` applications of `step`. */
  function Iterate(step: int -> int, score: int, n: nat): int
    decreases n
  {
    if n == 0 then score else Iterate(step, step(score), n - 1)
  }

  /** A step that, from any score in range, gains at least one point and never passes 100. */
  ghost predicate Climbs(step: int -> int)
  {
    forall s :: 0 <= s <= MaxScore ==> Min(MaxScore, s + 1) <= step(s) <= MaxScore
  }

  /** A climbing step reaches 100 within 100 steps and stays in range on the way. */
  lemma {:induction false} IterateClimbs(step: int -> int, score: int, n: nat)
    requires Climbs(step) && 0 <= score <= MaxScore
    ensures Min(MaxScore, score + n) <= Iterate(step, score, n) <= MaxScore
    decreases n
  {
    if n > 0 {
      IterateClimbs(step, step(score), n - 1);
    }
  }

  /** One round as a step on scores, for a fixed visitor. */
  function RoundStep(rules: seq<Rule>, persona: Option<PersonaProfile>, width: Option<int>): int -> int
  {
    (s: int) => if ReturnVisitorRule in rules && 0 <= s <= MaxScore then RoundScore(rules, s, persona, width) else s
  }

  /** The effect runs again whenever the score changes, and every round applies at least the
      return-visitor rule: with consent the score climbs by at least one a round and is 100 after
      100 rounds, whatever the visitor does. */
  lemma RoundsReachMax(rules: seq<Rule>, score: int, persona: Option<PersonaProfile>, width: Option<int>, n: nat)
    requires ReturnVisitorRule in rules && 0 <= score <= MaxScore
    ensures Min(MaxScore, score + n) <= Iterate(RoundStep(rules, persona, width), score, n) <= MaxScore
    ensures n >= MaxScore ==> Iterate(RoundStep(rules, persona, width), score, n) == MaxScore
  {
    var step := RoundStep(rules, persona, width);
    assert Climbs(step) by {
      forall s | 0 <= s <= MaxScore
        ensures Min(MaxScore, s + 1) <= step(s) <= MaxScore
      {
        var r := RoundScore(rules, s, persona, width);
      }
    }
    IterateClimbs(step, score, n);
  }

  /** The `forEach` of a round: applies each rule in turn and tracks a `rule_applied` event,
      worth one point, after each. */
  method ApplyInOrder(store: Store, rules: seq<Rule>, now: string)
    requires store.Valid() && store.consentGiven && store.isPersonalizationEnabled
    modifies store
    ensures store.Valid()
    ensures store.appliedRules == ApplyAll(old(store.appliedRules), rules)
    ensures store.behaviorScore == Min(MaxScore, old(store.behaviorScore) + |rules|)
    ensures store.session == (if rules != [] && old(store.session).Some?
                              then Some(old(store.session).value.(lastActivity := now)) else old(store.session))
    ensures store.currentPersona == old(store.currentPersona) && store.recommendations == old(store.recommendations)
    ensures store.consentGiven && store.isPersonalizationEnabled
  {
    ghost var score0, session0, rules0 := store.behaviorScore, store.session, store.appliedRules;
    var i := 0;
    while i < |rules|
      invariant 0 <= i <= |rules|
      invariant store.Valid()
      invariant store.appliedRules == ApplyAll(rules0, rules[..i])
      invariant store.behaviorScore == Min(MaxScore, score0 + i)
      invariant store.session == (if i > 0 && session0.Some? then Some(session0.value.(lastActivity := now)) else session0)
      invariant store.currentPersona == old(store.currentPersona) && store.recommendations == old(store.recommendations)
      invariant store.consentGiven && store.isPersonalizationEnabled
    {
      store.ApplyRule(rules[i]);
      store.TrackBehavior("rule_applied", now);
      assert rules[..i + 1] == rules[..i] + [rules[i]];
      ApplyAllSnoc(rules0, rules[..i], rules[i]);
      i := i + 1;
    }
    assert rules[..i] == rules;
  }

  /** One run of the effect. Without consent, or with personalization off, nothing happens.
      Otherwise the rules that match the state as it was when the round started are applied in
      descending priority. */
  method RunRound(store: Store, width: Option<int>, now: string) returns (applied: seq<Rule>)
    requires store.Valid()
    modifies store
    ensures store.Valid()
    ensures !old(store.consentGiven) || !old(store.isPersonalizationEnabled) ==>
              applied == [] && store.appliedRules == old(store.appliedRules)
              && store.behaviorScore == old(store.behaviorScore) && store.session == old(store.session)
    ensures old(store.consentGiven) && old(store.isPersonalizationEnabled) ==>
              applied == SelectRules(PersonalizationRules, Context(old(store.currentPersona), old(store.behaviorScore), width))
              && store.behaviorScore == RoundScore(PersonalizationRules, old(store.behaviorScore), old(store.currentPersona), width)
              && store.session == (if old(store.session).Some? then Some(old(store.session).value.(lastActivity := now)) else None)
    ensures store.appliedRules == ApplyAll(old(store.appliedRules), applied)
    ensures store.currentPersona == old(store.currentPersona) && store.recommendations == old(store.recommendations)
    ensures store.consentGiven == old(store.consentGiven)
    ensures store.isPersonalizationEnabled == old(store.isPersonalizationEnabled)
  {
    if !store.consentGiven || !store.isPersonalizationEnabled {
      return [];
    }
    var ctx := Context(store.currentPersona, store.behaviorScore, width);
    applied := SelectRules(PersonalizationRules, ctx);
    ReturnVisitorAlwaysApplies(PersonalizationRules, ctx);
    ApplyInOrder(store, applied, now);
  }
}
