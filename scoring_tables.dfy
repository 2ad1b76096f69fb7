/** The scoring configuration: the ten quiz questions with their per-persona points and CRM
    mappings, the lead-scoring point tables with their caps, the lead-stage thresholds, and the
    persona- and engagement-keyed content tables (exit offers, hero headlines, smart CTAs).
    Option and question display texts are not part of this model. */
module ScoringTables {

  /** The quiz persona ids, including the two fallbacks. */
  datatype PersonaId = Launch | Scale | Master | Invest | Connect | Unknown | DefaultExit
  {
    function Slug(): string
    {
      match this
      case Launch => "launch"
      case Scale => "scale"
      case Master => "master"
      case Invest => "invest"
      case Connect => "connect"
      case Unknown => "unknown"
      case DefaultExit => "default_exit"
    }

    predicate IsConcrete()
    {
      this != Unknown && this != DefaultExit
    }
  }

  /** The four-step engagement scale of the visitor profile. */
  datatype EngagementLevel = LowEngagement | MediumEngagement | HighEngagement | VeryHighEngagement
  {
    function Slug(): string
    {
      match this
      case LowEngagement => "low"
      case MediumEngagement => "medium"
      case HighEngagement => "high"
      case VeryHighEngagement => "very_high"
    }
  }

  // ---------------------------------------------------------------- quiz

  datatype PersonaPoints = PersonaPoints(personaId: PersonaId, points: int)

  /** A CRM mapping names a demographic category by its key. */
  datatype CrmMapping = CrmMapping(category: string, points: int)

  datatype AnswerOption = AnswerOption(id: string, scores: seq<PersonaPoints>, crm: seq<CrmMapping>)

  datatype Question = Question(id: string, options: seq<AnswerOption>, skippable: bool, isSensitive: bool)

  function P(p: PersonaId, n: int): PersonaPoints { PersonaPoints(p, n) }
  function StageFit(n: int): CrmMapping { CrmMapping("businessStageAppropriate", n) }
  function BudgetFit(n: int): CrmMapping { CrmMapping("budgetIndicationPositive", n) }
  function Opt(id: string, scores: seq<PersonaPoints>, crm: seq<CrmMapping>): AnswerOption
  {
    AnswerOption(id, scores, crm)
  }

  const Q1: Question := Question("q1_status", [
    Opt("a1", [P(Launch, 5), P(Master, 1)], [StageFit(2)]),
    Opt("a2", [P(Launch, 3), P(Scale, 2)], [StageFit(4)]),
    Opt("a3", [P(Scale, 5), P(Invest, 1)], [StageFit(8)]),
    Opt("a4", [P(Master, 5)], []),
    Opt("a5", [P(Connect, 5)], []),
    Opt("a6", [P(Invest, 5)], [StageFit(10)])], false, false)

  const Q2: Question := Question("q2_revenue", [
    Opt("b1", [P(Launch, 4), P(Master, 2)], [BudgetFit(2)]),
    Opt("b2", [P(Launch, 2), P(Scale, 3)], [BudgetFit(5)]),
    Opt("b3", [P(Scale, 5)], [BudgetFit(10)]),
    Opt("b4", [P(Scale, 4), P(Invest, 3)], [BudgetFit(15)]),
    Opt("b5", [P(Connect, 3), P(Invest, 3)], [])], true, false)

  const Q3: Question := Question("q3_learning_style", [
    Opt("c1", [P(Launch, 4)], []),
    Opt("c2", [P(Master, 5)], []),
    Opt("c3", [P(Scale, 4)], []),
    Opt("c4", [P(Invest, 3), P(Scale, 2)], []),
    Opt("c5", [P(Connect, 4), P(Invest, 2)], [])], false, false)

  const Q4: Question := Question("q4_biggest_challenge", [
    Opt("d1", [P(Launch, 5)], []),
    Opt("d2", [P(Scale, 5)], []),
    Opt("d3", [P(Master, 5)], []),
    Opt("d4", [P(Invest, 5)], []),
    Opt("d5", [P(Connect, 5)], []),
    Opt("d6", [P(Launch, 2), P(Master, 2)], [])], false, false)

  const Q5: Question := Question("q5_capital", [
    Opt("e1", [P(Launch, 4), P(Master, 2)], [BudgetFit(3)]),
    Opt("e2", [P(Launch, 5)], [BudgetFit(7)]),
    Opt("e3", [P(Scale, 4)], [BudgetFit(10)]),
    Opt("e4", [P(Invest, 5), P(Scale, 2)], [BudgetFit(12)]),
    Opt("e5", [P(Invest, 5)], [BudgetFit(15)]),
    Opt("e6", [P(Connect, 2), P(Master, 1)], [])], true, true)

  const Q6: Question := Question("q6_role_preference", [
    Opt("f1", [P(Launch, 4), P(Master, 2)], []),
    Opt("f2", [P(Scale, 5)], []),
    Opt("f3", [P(Invest, 4)], []),
    Opt("f4", [P(Connect, 5)], []),
    Opt("f5", [P(Master, 4)], [])], false, false)

  const Q7: Question := Question("q7_decision_making", [
    Opt("g1", [P(Launch, 3), P(Invest, 3)], []),
    Opt("g2", [P(Scale, 4), P(Invest, 2)], []),
    Opt("g3", [P(Master, 4)], []),
    Opt("g4", [P(Connect, 3), P(Launch, 2)], []),
    Opt("g5", [P(Scale, 2)], [])], false, false)

  const Q8: Question := Question("q8_timeline", [
    Opt("h1", [P(Launch, 4)], []),
    Opt("h2", [P(Scale, 3), P(Invest, 3)], []),
    Opt("h3", [P(Scale, 2), P(Master, 3)], []),
    Opt("h4", [P(Master, 4)], []),
    Opt("h5", [P(Connect, 4)], [])], false, false)

  const Q9: Question := Question("q9_support_preference", [
    Opt("i1", [P(Launch, 4), P(Scale, 2)], []),
    Opt("i2", [P(Master, 3), P(Connect, 2)], []),
    Opt("i3", [P(Scale, 3), P(Invest, 3)], []),
    Opt("i4", [P(Master, 4)], []),
    Opt("i5", [P(Connect, 4), P(Invest, 2)], [])], false, false)

  const Q10: Question := Question("q10_long_term_goal", [
    Opt("j1", [P(Launch, 5)], []),
    Opt("j2", [P(Scale, 5)], []),
    Opt("j3", [P(Master, 5)], []),
    Opt("j4", [P(Invest, 5)], []),
    Opt("j5", [P(Connect, 5)], [])], false, false)

  const QuizQuestions: seq<Question> := [Q1, Q2, Q3, Q4, Q5, Q6, Q7, Q8, Q9, Q10]

  /** The letter that starts every option id of question `k` ('a' for the first, and so on). */
  function OptionLetter(k: nat): char
    requires k < 10
  {
    ['a', 'b', 'c', 'd', 'e', 'f', 'g', 'h', 'i', 'j'][k]
  }

  /** A CRM mapping names a demographic category and stays within that category's points. */
  predicate CrmWithinCap(m: CrmMapping)
  {
    m.category in DemographicPoints && m.category != "maxPoints"
    && 0 <= m.points <= DemographicPoints[m.category]
  }

  /** The two CRM categories the quiz uses, with their caps written out. */
  predicate CrmKnown(m: CrmMapping)
  {
    (m.category == "businessStageAppropriate" && 0 <= m.points <= 10)
    || (m.category == "budgetIndicationPositive" && 0 <= m.points <= 15)
  }

  lemma CrmKnownWithinCap(m: CrmMapping)
    requires CrmKnown(m)
    ensures CrmWithinCap(m)
  {
  }

  /** The digit character for 1 to 9. */
  function Digit(n: nat): char
    requires 1 <= n <= 9
  {
    ['1', '2', '3', '4', '5', '6', '7', '8', '9'][n - 1]
  }

  /** Every entry gives non-negative points to a concrete persona. */
  predicate ScoresWellFormed(s: seq<PersonaPoints>)
  {
    s == [] || (s[0].points >= 0 && s[0].personaId.IsConcrete() && ScoresWellFormed(s[1..]))
  }

  /** Every mapping is one of the known categories. */
  predicate CrmWellFormed(s: seq<CrmMapping>)
  {
    s == [] || (CrmKnown(s[0]) && CrmWellFormed(s[1..]))
  }

  /** Persona points are non-negative and name a concrete persona, and CRM mappings are known
      categories. */
  predicate OptionWellFormed(o: AnswerOption)
  {
    ScoresWellFormed(o.scores) && CrmWellFormed(o.crm)
  }

  lemma {:induction false} ScoresWellFormedEach(s: seq<PersonaPoints>)
    requires ScoresWellFormed(s)
    ensures forall e :: e in s ==> e.points >= 0 && e.personaId.IsConcrete()
  {
    if s != [] {
      ScoresWellFormedEach(s[1..]);
      assert forall e :: e in s ==> e == s[0] || e in s[1..];
    }
  }

  lemma {:induction false} CrmWellFormedEach(s: seq<CrmMapping>)
    requires CrmWellFormed(s)
    ensures forall m :: m in s ==> CrmKnown(m)
  {
    if s != [] {
      CrmWellFormedEach(s[1..]);
      assert forall m :: m in s ==> m == s[0] || m in s[1..];
    }
  }

  /** The options of a question are numbered from 1 after the question's letter ("a1", "a2",
      ...), there are at most nine of them, and each is well formed. */
  predicate QuestionWellFormed(q: Question, letter: char)
  {
    |q.options| <= 9
    && forall o :: 0 <= o < |q.options| ==> q.options[o].id == [letter, Digit(o + 1)] && OptionWellFormed(q.options[o])
  }

  lemma Q1WellFormed() ensures QuestionWellFormed(Q1, 'a') {}
  lemma Q2WellFormed() ensures QuestionWellFormed(Q2, 'b') {}
  lemma Q3WellFormed() ensures QuestionWellFormed(Q3, 'c') {}
  lemma Q4WellFormed() ensures QuestionWellFormed(Q4, 'd') {}
  lemma Q5WellFormed() ensures QuestionWellFormed(Q5, 'e') {}
  lemma Q6WellFormed() ensures QuestionWellFormed(Q6, 'f') {}
  lemma Q7WellFormed() ensures QuestionWellFormed(Q7, 'g') {}
  lemma Q8WellFormed() ensures QuestionWellFormed(Q8, 'h') {}
  lemma Q9WellFormed() ensures QuestionWellFormed(Q9, 'i') {}
  lemma Q10WellFormed() ensures QuestionWellFormed(Q10, 'j') {}

  /** Every question of the quiz is well formed under its own letter. */
  lemma QuizWellFormed()
    ensures forall k :: 0 <= k < |QuizQuestions| ==> QuestionWellFormed(QuizQuestions[k], OptionLetter(k))
  {
    Q1WellFormed(); Q2WellFormed(); Q3WellFormed(); Q4WellFormed(); Q5WellFormed();
    Q6WellFormed(); Q7WellFormed(); Q8WellFormed(); Q9WellFormed(); Q10WellFormed();
  }

  /** Every option's persona points are non-negative and name one of the five concrete
      personas (never "unknown" or "default_exit"), and every CRM mapping names a demographic
      category and gives at most that category's points. */
  lemma OptionWellFormedAt(k: nat, o: nat)
    requires k < |QuizQuestions| && o < |QuizQuestions[k].options|
    ensures forall e :: e in QuizQuestions[k].options[o].scores ==> e.points >= 0 && e.personaId.IsConcrete()
    ensures forall m :: m in QuizQuestions[k].options[o].crm ==> CrmWithinCap(m)
  {
    QuizWellFormed();
    var opt := QuizQuestions[k].options[o];
    assert OptionWellFormed(opt);
    ScoresWellFormedEach(opt.scores);
    CrmWellFormedEach(opt.crm);
    forall m | m in opt.crm ensures CrmWithinCap(m) {
      CrmKnownWithinCap(m);
    }
  }

  /** Two options of well-formed questions with different letters, or in different places of
      the same question, have different ids. */
  lemma ShapedIdsDiffer(q1: Question, l1: char, o1: nat, q2: Question, l2: char, o2: nat)
    requires QuestionWellFormed(q1, l1) && o1 < |q1.options|
    requires QuestionWellFormed(q2, l2) && o2 < |q2.options|
    requires l1 != l2 || o1 != o2
    ensures q1.options[o1].id != q2.options[o2].id
  {
    if l1 != l2 {
      assert q1.options[o1].id[0] != q2.options[o2].id[0];
    } else {
      assert q1.options[o1].id[1] != q2.options[o2].id[1];
    }
  }

  /** No two options of the whole quiz share an id: within a question the ids differ, and
      across questions their leading letters do. */
  lemma OptionIdsDistinct(k1: nat, o1: nat, k2: nat, o2: nat)
    requires k1 < |QuizQuestions| && o1 < |QuizQuestions[k1].options|
    requires k2 < |QuizQuestions| && o2 < |QuizQuestions[k2].options|
    requires (k1, o1) != (k2, o2)
    ensures QuizQuestions[k1].options[o1].id != QuizQuestions[k2].options[o2].id
  {
    QuizWellFormed();
    ShapedIdsDiffer(QuizQuestions[k1], OptionLetter(k1), o1, QuizQuestions[k2], OptionLetter(k2), o2);
  }

  /** The ten question ids are distinct. */
  lemma QuestionIdsDistinct()
    ensures forall i, j :: 0 <= i < j < |QuizQuestions| ==> QuizQuestions[i].id != QuizQuestions[j].id
  {
  }

  /** Only the revenue and capital questions may be skipped, and only the capital question is
      sensitive. */
  lemma SkippableAndSensitive()
    ensures forall q :: q in QuizQuestions ==> (q.skippable <==> q.id == "q2_revenue" || q.id == "q5_capital")
    ensures forall q :: q in QuizQuestions ==> (q.isSensitive <==> q.id == "q5_capital")
  {
  }

  // ---------------------------------------------------------------- lead scoring points

  const BehavioralPoints: map<string, int> := map[
    "maxPoints" := 50, "quizCompletion" := 15, "videoEngagement75Plus" := 10,
    "toolUsageCompleted" := 8, "multiplePageVisitsHighValue" := 5,
    "resourceDownloadedWithEmail" := 7, "pricingPageExtendedVisit" := 12,
    "serviceInquiryMade" := 20, "calendarBookingMade" := 25, "defaultInteraction" := 1]

  const DemographicPoints: map<string, int> := map[
    "maxPoints" := 30, "personaAlignmentStrong" := 15, "personaAlignmentMedium" := 7,
    "businessStageAppropriate" := 10, "budgetIndicationPositive" := 15]

  const EngagementQualityPoints: map<string, int> := map[
    "maxPoints" := 20, "emailInteractionPositive" := 8, "socialMediaEngagementHigh" := 5,
    "communityParticipationActive" := 7, "siteVisitFrequencyHigh" := 4,
    "sessionDurationLong" := 3, "emailSubscription" := 5]

  /** Every table has a cap, and no single item is worth more than its table's cap. */
  predicate ItemsWithinCap(table: map<string, int>)
  {
    "maxPoints" in table && forall k :: k in table ==> 0 <= table[k] <= table["maxPoints"]
  }

  /** The three sub-score caps are 50, 30 and 20, adding up to a 100-point lead score, and
      every item of each table is worth at most that table's cap. */
  lemma LeadScoringCaps()
    ensures BehavioralPoints["maxPoints"] + DemographicPoints["maxPoints"] + EngagementQualityPoints["maxPoints"] == 100
    ensures ItemsWithinCap(BehavioralPoints) && ItemsWithinCap(DemographicPoints) && ItemsWithinCap(EngagementQualityPoints)
  {
  }

  // ---------------------------------------------------------------- lead stages

  datatype LeadStage = AnonymousVisitor | IdentifiedProspect | EngagedLead | MarketingQualifiedLead
                     | SalesQualifiedLead | Opportunity | Customer | Advocate
  {
    /** Position in the declared order. */
    function Index(): nat
    {
      match this
      case AnonymousVisitor => 0
      case IdentifiedProspect => 1
      case EngagedLead => 2
      case MarketingQualifiedLead => 3
      case SalesQualifiedLead => 4
      case Opportunity => 5
      case Customer => 6
      case Advocate => 7
    }
  }

  /** A threshold is a score or `Infinity`. */
  datatype Threshold = Finite(n: int) | Infinity

  function StageThreshold(s: LeadStage): Threshold
  {
    match s
    case AnonymousVisitor => Finite(0)
    case IdentifiedProspect => Finite(21)
    case EngagedLead => Finite(41)
    case MarketingQualifiedLead => Finite(61)
    case SalesQualifiedLead => Finite(81)
    case Opportunity => Finite(81)
    case Customer => Infinity
    case Advocate => Infinity
  }

  predicate AtMost(a: Threshold, b: Threshold)
  {
    b.Infinity? || (a.Finite? && a.n <= b.n)
  }

  /** A score meets a threshold it is at least as large as; nothing meets `Infinity`. */
  predicate Meets(score: int, t: Threshold)
  {
    t.Finite? && score >= t.n
  }

  /** The thresholds never decrease along the stage order and start at 0; SalesQualifiedLead
      and Opportunity share 81; Customer and Advocate are out of reach of any score. */
  lemma StageThresholdsOrdered(a: LeadStage, b: LeadStage, score: int)
    ensures a.Index() <= b.Index() ==> AtMost(StageThreshold(a), StageThreshold(b))
    ensures StageThreshold(AnonymousVisitor) == Finite(0)
    ensures StageThreshold(SalesQualifiedLead) == StageThreshold(Opportunity) == Finite(81)
    ensures !Meets(score, StageThreshold(Customer)) && !Meets(score, StageThreshold(Advocate))
    ensures Meets(score, StageThreshold(b)) && a.Index() <= b.Index() ==> Meets(score, StageThreshold(a))
  {
  }

  // ---------------------------------------------------------------- keyed content

  datatype ExitContent = ExitContent(headline: string, offer: string, ctaText: string,
                                     accentColorClass: string, imageUrl: string)

  const PersonaExitContent: map<PersonaId, ExitContent> := map[
    Launch := ExitContent("Wait! Get Your Free Product Selection Risk Assessment",
      "Our comprehensive checklist helps prevent costly mistakes when selecting your first product. Essential for new launchers!",
      "Protect My Investment", "green", "https://picsum.photos/seed/exit_launch/100/100"),
    Scale := ExitContent("Before You Go - Get Your Business Bottleneck Analysis",
      "Pinpoint the top 3 growth blockers in your Amazon business with our free diagnostic framework.",
      "Find My Bottlenecks", "blue", "https://picsum.photos/seed/exit_scale/100/100"),
    Master := ExitContent("Complete Your Amazon Knowledge Gap Analysis",
      "Receive a personalized learning roadmap and discover key implementation bridges to turn theory into action.",
      "Get My Learning Path", "purple", "https://picsum.photos/seed/exit_master/100/100"),
    Invest := ExitContent("Get Your Amazon Investment Due Diligence Checklist",
      "Access our professional-grade evaluation framework to assess Amazon business opportunities like an expert.",
      "Access Due Diligence", "yellow", "https://picsum.photos/seed/exit_invest/100/100"),
    Connect := ExitContent("Discover Your Service Business Growth Opportunities",
      "Take our quick assessment to identify key areas for client acquisition and premium positioning.",
      "Analyze My Business", "teal", "https://picsum.photos/seed/exit_connect/100/100"),
    DefaultExit := ExitContent("Don't Leave Empty Handed!",
      "Get our FREE 'Top 5 Amazon Success Factors' checklist and start your journey right!",
      "Get My Free Checklist", "orange", "https://picsum.photos/seed/exit_default/100/100"),
    Unknown := ExitContent("Unlock Your Amazon Potential!",
      "Grab our exclusive guide to navigating the Amazon ecosystem effectively.",
      "Download Free Guide", "gray", "https://picsum.photos/seed/exit_unknown/100/100")]

  datatype ContentVariant = ContentVariant(key: string, content: string)

  /** The keys of the hero headline table: every persona id, plus "default" and "returning". */
  datatype HeadlineKey = ForPersona(p: PersonaId) | DefaultHeadline | ReturningHeadline

  const HeroHeadlineVariants: map<HeadlineKey, ContentVariant> := map[
    DefaultHeadline := ContentVariant("headline_default", "Transform Your Amazon Journey with Systematic Success"),
    ReturningHeadline := ContentVariant("headline_returning", "Welcome Back! Let's Continue Your Amazon Success"),
    ForPersona(Launch) := ContentVariant("headline_launch", "Launch Your First Amazon Product With Confidence"),
    ForPersona(Scale) := ContentVariant("headline_scale", "Break Revenue Plateaus & Scale to 7-Figures"),
    ForPersona(Master) := ContentVariant("headline_master", "Achieve True Amazon Ecosystem Mastery"),
    ForPersona(Invest) := ContentVariant("headline_invest", "Build & Optimize Your Amazon Business Portfolio"),
    ForPersona(Connect) := ContentVariant("headline_connect", "Connect with Premium Amazon Clients & Partners"),
    ForPersona(Unknown) := ContentVariant("headline_unknown", "Discover Your Unique Path in the Amazon Ecosystem"),
    ForPersona(DefaultExit) := ContentVariant("headline_default_exit", "One Last Thing Before You Go...")]

  datatype CtaContent = CtaContent(text: string, actionType: string)
  datatype CtaVariant = CtaVariant(key: string, content: CtaContent)
  datatype SmartCta = SmartCta(hero: CtaVariant, quizPrompt: CtaVariant)

  const SmartCtaVariants: map<EngagementLevel, SmartCta> := map[
    LowEngagement := SmartCta(
      CtaVariant("cta_hero_low", CtaContent("Discover Your Path", "quiz")),
      CtaVariant("cta_quiz_low", CtaContent("Take the Quiz", "quiz"))),
    MediumEngagement := SmartCta(
      CtaVariant("cta_hero_medium", CtaContent("Explore Solutions", "pathways")),
      CtaVariant("cta_quiz_medium", CtaContent("Get My Persona Insights", "quiz"))),
    HighEngagement := SmartCta(
      CtaVariant("cta_hero_high", CtaContent("View Program Details", "services")),
      CtaVariant("cta_quiz_high", CtaContent("Unlock My Roadmap", "quiz"))),
    VeryHighEngagement := SmartCta(
      CtaVariant("cta_hero_very_high", CtaContent("Book a Free Strategy Call", "consult")),
      CtaVariant("cta_quiz_very_high", CtaContent("Discuss My Results", "consult_after_quiz")))]

  /** Each keyed table has an entry for every key of its type: all seven persona ids for the
      exit offers, every persona id plus "default" and "returning" for the headlines, all four
      engagement levels for the smart CTAs. */
  lemma KeyCoverage(p: PersonaId, l: EngagementLevel, h: HeadlineKey)
    ensures p in PersonaExitContent
    ensures h in HeroHeadlineVariants
    ensures l in SmartCtaVariants
  {
    match h
    case ForPersona(q) => assert HeroHeadlineVariants.Keys >= {ForPersona(q)} by { match q { case Launch => case Scale => case Master => case Invest => case Connect => case Unknown => case DefaultExit => } }
    case DefaultHeadline =>
    case ReturningHeadline =>
  }

  /** The headline keys end in the persona id. */
  lemma HeadlineKeysNameTheirEntry(p: PersonaId)
    ensures HeroHeadlineVariants[ForPersona(p)].key == "headline_" + p.Slug()
  {
    if p.IsConcrete() {
      ConcreteHeadlineKeys(p);
    } else {
      FallbackHeadlineKeys(p);
    }
  }

  lemma ConcreteHeadlineKeys(p: PersonaId)
    requires p.IsConcrete()
    ensures HeroHeadlineVariants[ForPersona(p)].key == "headline_" + p.Slug()
  {
    if p in {Launch, Scale} {
      FirstHeadlineKeys(p);
    } else {
      LaterHeadlineKeys(p);
    }
  }

  lemma FirstHeadlineKeys(p: PersonaId)
    requires p == Launch || p == Scale
    ensures HeroHeadlineVariants[ForPersona(p)].key == "headline_" + p.Slug()
  {
    match p
    case Launch => case Scale =>
  }

  lemma LaterHeadlineKeys(p: PersonaId)
    requires p == Master || p == Invest || p == Connect
    ensures HeroHeadlineVariants[ForPersona(p)].key == "headline_" + p.Slug()
  {
    match p
    case Master => case Invest => case Connect =>
  }

  lemma FallbackHeadlineKeys(p: PersonaId)
    requires !p.IsConcrete()
    ensures HeroHeadlineVariants[ForPersona(p)].key == "headline_" + p.Slug()
  {
    match p
    case Unknown => case DefaultExit =>
  }

  /** The CTA keys end in the engagement level. */
  lemma CtaKeysNameTheirEntry(l: EngagementLevel)
    ensures SmartCtaVariants[l].hero.key == "cta_hero_" + l.Slug()
    ensures SmartCtaVariants[l].quizPrompt.key == "cta_quiz_" + l.Slug()
  {
    CtaHeroKeys(l);
    CtaQuizKeys(l);
  }

  lemma CtaHeroKeys(l: EngagementLevel)
    ensures SmartCtaVariants[l].hero.key == "cta_hero_" + l.Slug()
  {
    match l
    case LowEngagement => case MediumEngagement => case HighEngagement => case VeryHighEngagement =>
  }

  lemma CtaQuizKeys(l: EngagementLevel)
    ensures SmartCtaVariants[l].quizPrompt.key == "cta_quiz_" + l.Slug()
  {
    match l
    case LowEngagement => case MediumEngagement => case HighEngagement => case VeryHighEngagement =>
  }
}
