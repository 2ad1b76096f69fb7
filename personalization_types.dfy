/** The records of the personalization layer: persona profiles, rules with their conditions
    and actions, content recommendations and the browsing session. */
module PersonalizationTypes {
  import opened Common

  /** The five persona slugs a profile can carry. */
  datatype Persona = StartupSam | ScalingSarah | LearningLarry | InvestorIan | ProviderPriya
  {
    function Slug(): string
    {
      match this
      case StartupSam => "startup-sam"
      case ScalingSarah => "scaling-sarah"
      case LearningLarry => "learning-larry"
      case InvestorIan => "investor-ian"
      case ProviderPriya => "provider-priya"
    }
  }

  /** Numeric fields of the source are modelled as integers. */
  datatype PersonaProfile = PersonaProfile(
    id: string,
    persona: Persona,
    confidence: int,
    lastUpdated: string,
    engagementScore: int,
    serviceReadiness: int,
    preferredContent: seq<string>,
    completedActions: seq<string>)

  datatype ConditionType = PersonaCond | EngagementCond | BehaviorCond | DeviceCond | TimeCond | PageCond

  datatype Operator = EqualsOp | GreaterThan | LessThan | ContainsOp | InOp
  {
    function Slug(): string
    {
      match this
      case EqualsOp => "equals"
      case GreaterThan => "greater_than"
      case LessThan => "less_than"
      case ContainsOp => "contains"
      case InOp => "in"
    }
  }

  /** The untyped `value` of a condition or action: the rules use strings and numbers. */
  datatype Value = Str(s: string) | Num(n: int)

  /** A condition; its weight is a fraction in the source and is never read, so it is kept
      as a real number. */
  datatype Condition = Condition(kind: ConditionType, op: Operator, value: Value, weight: real)

  datatype ActionType = ContentAction | CtaAction | NavigationAction | RecommendationAction | RedirectAction

  datatype Action = Action(kind: ActionType, target: string, value: Value, variant: Option<string>)

  datatype Rule = Rule(
    id: string,
    name: string,
    conditions: seq<Condition>,
    actions: seq<Action>,
    priority: int,
    active: bool,
    testGroup: Option<string>)

  datatype ContentType = Article | Video | Tool | Service | Course
  {
    function Slug(): string
    {
      match this
      case Article => "article"
      case Video => "video"
      case Tool => "tool"
      case Service => "service"
      case Course => "course"
    }
  }

  /** The difficulty a recommendation is written for. */
  datatype RecLevel = Beginner | Intermediate | Advanced
  {
    function Slug(): string
    {
      match this
      case Beginner => "beginner"
      case Intermediate => "intermediate"
      case Advanced => "advanced"
    }
  }

  datatype Recommendation = Recommendation(
    id: string,
    title: string,
    description: string,
    url: string,
    kind: ContentType,
    personas: seq<string>,
    priority: int,
    level: RecLevel)

  /** The store's three-step engagement level. */
  datatype Level = Low | Medium | High
  {
    function Slug(): string
    {
      match this
      case Low => "low"
      case Medium => "medium"
      case High => "high"
    }

    function Rank(): nat
    {
      match this
      case Low => 0
      case Medium => 1
      case High => 2
    }
  }

  /** No engagement level of the store is spelled like a recommendation level: comparing the
      two, as the store and the recommendation widget do, never succeeds. */
  lemma LevelNeverMatchesRecLevel(l: Level, r: RecLevel)
    ensures l.Slug() != r.Slug()
  {
  }

  datatype Session = Session(
    sessionId: string,
    persona: Option<PersonaProfile>,
    appliedRules: seq<string>,
    recommendations: seq<Recommendation>,
    behaviorScore: int,
    startTime: string,
    lastActivity: string)
}
