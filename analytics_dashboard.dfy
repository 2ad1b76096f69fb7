/** The analytics dashboard's headline figures, computed from the analytics store's data with
    a missing list counted as empty and a missing figure counted as zero. */
module AnalyticsDashboard {
  import opened Common

  datatype Stage = Stage(name: string, visitors: Option<int>, conversions: Option<int>)
  datatype PersonaScore = PersonaScore(name: string, score: Option<int>, engagement: int, conversion: real)
  datatype Touchpoint = Touchpoint(name: string, count: Option<int>, impact: string)
  datatype RevenueSource = RevenueSource(name: string, revenue: Option<int>, percentage: int)

  /** `x || 0` on a number that may be missing. */
  function OrZero(x: Option<int>): int
  {
    if x.Some? then x.value else 0
  }

  /** `list || []`. */
  function OrEmpty<T>(list: Option<seq<T>>): seq<T>
  {
    if list.Some? then list.value else []
  }

  function StageConversions(s: Stage): int { OrZero(s.conversions) }
  function PersonaScoreOf(p: PersonaScore): int { OrZero(p.score) }
  function TouchpointCount(t: Touchpoint): int { OrZero(t.count) }
  function SourceRevenue(r: RevenueSource): int { OrZero(r.revenue) }

  function TotalConversions(stages: Option<seq<Stage>>): (r: int)
    ensures OrEmpty(stages) == [] ==> r == 0
  {
    Sum(OrEmpty(stages), StageConversions)
  }

  function TotalShadowTouchpoints(touchpoints: Option<seq<Touchpoint>>): (r: int)
    ensures OrEmpty(touchpoints) == [] ==> r == 0
  {
    Sum(OrEmpty(touchpoints), TouchpointCount)
  }

  function TotalRevenue(sources: Option<seq<RevenueSource>>): (r: int)
    ensures OrEmpty(sources) == [] ==> r == 0
  {
    Sum(OrEmpty(sources), SourceRevenue)
  }

  /** Each card's total grows by the appended entry's figure, a missing figure adding 0;
      together with the empty case this fixes every total as the sum of its figures. */
  lemma CardTotalsAppend(stages: seq<Stage>, st: Stage, touchpoints: seq<Touchpoint>, tp: Touchpoint,
                         sources: seq<RevenueSource>, src: RevenueSource)
    ensures TotalConversions(Some(stages + [st])) == TotalConversions(Some(stages)) + OrZero(st.conversions)
    ensures TotalShadowTouchpoints(Some(touchpoints + [tp])) == TotalShadowTouchpoints(Some(touchpoints)) + OrZero(tp.count)
    ensures TotalRevenue(Some(sources + [src])) == TotalRevenue(Some(sources)) + OrZero(src.revenue)
  {
    SumAppend(stages, st, StageConversions);
    SumAppend(touchpoints, tp, TouchpointCount);
    SumAppend(sources, src, SourceRevenue);
  }

  /** The mean score, or 0 without personas. */
  function AveragePersonaScore(personas: Option<seq<PersonaScore>>): (r: real)
    ensures |OrEmpty(personas)| == 0 ==> r == 0.0
    ensures |OrEmpty(personas)| > 0 ==> r * |OrEmpty(personas)| as real == Sum(OrEmpty(personas), PersonaScoreOf) as real
  {
    var ps := OrEmpty(personas);
    if |ps| == 0 then 0.0 else Sum(ps, PersonaScoreOf) as real / |ps| as real
  }

  /** With every score between 0 and 100 the mean is too. */
  lemma AverageWithinScale(personas: Option<seq<PersonaScore>>)
    requires forall i :: 0 <= i < |OrEmpty(personas)| ==> 0 <= PersonaScoreOf(OrEmpty(personas)[i]) <= 100
    ensures 0.0 <= AveragePersonaScore(personas) <= 100.0
  {
    var ps := OrEmpty(personas);
    if |ps| > 0 {
      SumBounds(ps, PersonaScoreOf, 100);
      var total, n := Sum(ps, PersonaScoreOf) as real, |ps| as real;
      assert total <= 100.0 * n;
    }
  }

  const InitialStages: seq<Stage> := [
    Stage("Awareness", Some(5000), Some(1500)), Stage("Consideration", Some(1500), Some(600)),
    Stage("Decision", Some(600), Some(200)), Stage("Action", Some(200), Some(50))]

  const InitialPersonas: seq<PersonaScore> := [
    PersonaScore("Startup Sam", Some(85), 72, 4.2), PersonaScore("Scaling Sarah", Some(92), 86, 6.8),
    PersonaScore("Learning Larry", Some(78), 65, 3.5), PersonaScore("Investor Ian", Some(88), 74, 5.1),
    PersonaScore("Provider Priya", Some(82), 70, 4.7)]

  const InitialTouchpoints: seq<Touchpoint> := [
    Touchpoint("Facebook Group", Some(1250), "high"), Touchpoint("Podcast Mentions", Some(850), "medium"),
    Touchpoint("Word of Mouth", Some(620), "high"), Touchpoint("Partner Referrals", Some(480), "medium"),
    Touchpoint("Industry Events", Some(320), "low")]

  const InitialSources: seq<RevenueSource> := [
    RevenueSource("Direct Sales", Some(125000), 45), RevenueSource("Website", Some(85000), 30),
    RevenueSource("Partner Referrals", Some(42000), 15), RevenueSource("Email Campaigns", Some(28000), 10)]

  /** On the store's initial data the dashboard shows 2350 conversions, an 85 average persona
      score, 3520 touchpoints and 280000 in revenue. */
  lemma InitialFigures()
    ensures TotalConversions(Some(InitialStages)) == 2350
    ensures AveragePersonaScore(Some(InitialPersonas)) == 85.0
    ensures TotalShadowTouchpoints(Some(InitialTouchpoints)) == 3520
    ensures TotalRevenue(Some(InitialSources)) == 280000
  {
    assert InitialStages[1..][1..][1..][1..] == [];
    assert InitialPersonas[1..][1..][1..][1..][1..] == [];
    assert InitialTouchpoints[1..][1..][1..][1..][1..] == [];
    assert InitialSources[1..][1..][1..][1..] == [];
    assert Sum(InitialPersonas, PersonaScoreOf) == 425;
  }
}
