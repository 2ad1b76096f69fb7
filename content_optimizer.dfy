/** The content optimizer: persona-specific e-mail subject prefixes, persona and context
    specific call-to-action texts with a generic fallback, and the rule that hides content
    written for the wrong engagement level. Its results are returned rather than written into
    the page. */
module ContentOptimizer {
  import opened Common
  import opened PersonalizationTypes

  /** The subject prefixes, as the source file spells them: each begins with the emoji's
      UTF-8 bytes read back as Windows-1252 text. */
  const SubjectPrefixes: map<string, string> := map[
    "startup-sam" := "\U{F0}\U{178}\U{161}\U{20AC} Ready to Launch? ",
    "scaling-sarah" := "\U{F0}\U{178}\U{201C}\U{2C6} Scale Faster: ",
    "learning-larry" := "\U{F0}\U{178}\U{17D}\U{201C} Master This: ",
    "investor-ian" := "\U{F0}\U{178}\U{2019}\U{BC} Investment Opportunity: ",
    "provider-priya" := "\U{F0}\U{178}\U{A4} Grow Your Practice: "]

  /** `personaOptimizations[persona] || originalSubject`. */
  function OptimizeEmailSubject(subject: string, persona: string): (r: string)
    ensures persona in SubjectPrefixes ==> r == SubjectPrefixes[persona] + subject
    ensures persona !in SubjectPrefixes ==> r == subject
  {
    if persona in SubjectPrefixes && SubjectPrefixes[persona] + subject != "" then SubjectPrefixes[persona] + subject
    else subject
  }

  /** The original subject always survives, as the tail of the optimised one, and every one
      of the five persona slugs has a prefix. */
  lemma SubjectKept(subject: string, persona: string, p: Persona)
    ensures EndsWith(OptimizeEmailSubject(subject, persona), subject)
    ensures p.Slug() in SubjectPrefixes
  {
    var r := OptimizeEmailSubject(subject, persona);
    assert r[|r| - |subject|..] == subject;
  }

  const CtaTemplates: map<string, map<string, string>> := map[
    "startup-sam" := map["service" := "Start Your Launch Journey", "content" := "Get Your Free Launch Guide",
                         "pricing" := "See Launch Program Pricing"],
    "scaling-sarah" := map["service" := "Scale Your Business Now", "content" := "Download Scaling Strategies",
                           "pricing" := "Invest in Growth"],
    "learning-larry" := map["service" := "Master Amazon Selling", "content" := "Access Learning Library",
                            "pricing" := "Unlock All Courses"],
    "investor-ian" := map["service" := "Evaluate Opportunities", "content" := "Get Investment Guide",
                          "pricing" := "See Investment Options"],
    "provider-priya" := map["service" := "Grow Your Practice", "content" := "Build Your Authority",
                            "pricing" := "Join Provider Network"]]

  const Fallback: string := "Learn More"

  /** `ctaTemplates[persona]?.[context] || "Learn More"`. */
  function PersonalizedCta(persona: string, context: string): (r: string)
    ensures persona !in CtaTemplates || context !in CtaTemplates[persona] ==> r == Fallback
    ensures persona in CtaTemplates && context in CtaTemplates[persona] ==> r == CtaTemplates[persona][context]
  {
    if persona in CtaTemplates && context in CtaTemplates[persona] && CtaTemplates[persona][context] != ""
    then CtaTemplates[persona][context]
    else Fallback
  }

  /** Each of the five personas has a text for each of the three contexts the page uses. */
  lemma CtaTemplatesComplete(p: Persona)
    ensures p.Slug() in CtaTemplates
    ensures forall c :: c in {"service", "content", "pricing"} ==> c in CtaTemplates[p.Slug()]
  {
    match p
    case StartupSam => case ScalingSarah => case LearningLarry => case InvestorIan => case ProviderPriya =>
  }

  /** `getAttribute("data-cta-context") || "service"`. */
  function CtaContext(attribute: Option<string>): (c: string)
    ensures c != ""
    ensures attribute.Some? && attribute.value != "" ==> c == attribute.value
  {
    if attribute.Some? && attribute.value != "" then attribute.value else "service"
  }

  /** Beginner content is hidden above 70 points, advanced content below 30, anything else
      never. */
  predicate Hidden(level: Option<string>, engagementScore: int)
  {
    (level == Some("beginner") && engagementScore > 70) || (level == Some("advanced") && engagementScore < 30)
  }

  /** Only one of the two rules can fire for a given element, and every element is shown to a
      visitor between 30 and 70 points. */
  lemma HiddenBands(level: Option<string>, engagementScore: int)
    ensures 30 <= engagementScore <= 70 ==> !Hidden(level, engagementScore)
    ensures level != Some("beginner") && level != Some("advanced") ==> !Hidden(level, engagementScore)
  {
  }

  /** The tagged elements of a page: e-mail subject texts, CTA context attributes and
      content-level attributes. */
  datatype Page = Page(subjects: seq<string>, ctaContexts: seq<Option<string>>, levels: seq<Option<string>>)

  /** What the optimizer makes of them: new subject texts, CTA texts and hidden flags. */
  datatype Outcome = Outcome(subjects: seq<string>, ctas: seq<string>, hidden: seq<bool>)

  /** One optimisation pass, or nothing without consent, with personalization off or with no
      persona. */
  function OptimizePage(consent: bool, enabled: bool, persona: Option<PersonaProfile>, page: Page): (r: Option<Outcome>)
    ensures r.Some? <==> consent && enabled && persona.Some?
    ensures r.Some? ==> |r.value.subjects| == |page.subjects| && |r.value.ctas| == |page.ctaContexts|
                        && |r.value.hidden| == |page.levels|
    ensures r.Some? ==> forall i :: 0 <= i < |page.subjects| ==>
              r.value.subjects[i] == OptimizeEmailSubject(page.subjects[i], persona.value.persona.Slug())
    ensures r.Some? ==> forall i :: 0 <= i < |page.ctaContexts| ==>
              r.value.ctas[i] == PersonalizedCta(persona.value.persona.Slug(), CtaContext(page.ctaContexts[i]))
    ensures r.Some? ==> forall i :: 0 <= i < |page.levels| ==>
              r.value.hidden[i] == Hidden(page.levels[i], persona.value.engagementScore)
  {
    if !consent || !enabled || persona.None? then None
    else
      var slug := persona.value.persona.Slug();
      Some(Outcome(
        seq(|page.subjects|, i requires 0 <= i < |page.subjects| => OptimizeEmailSubject(page.subjects[i], slug)),
        seq(|page.ctaContexts|, i requires 0 <= i < |page.ctaContexts| => PersonalizedCta(slug, CtaContext(page.ctaContexts[i]))),
        seq(|page.levels|, i requires 0 <= i < |page.levels| => Hidden(page.levels[i], persona.value.engagementScore))))
  }
}
