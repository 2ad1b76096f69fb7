/** The persona-performance panel: revenue and visitor totals over the per-persona metrics,
    the average order value of each persona, and the two "highest" insights, each a
    first-wins maximum over the metrics. */
module PersonaPerformance {
  import opened Common
  import opened PersonalizationTypes

  /** The panel's per-persona row; the quiz, e-mail and inquiry counts of the detailed view
      are not modelled. */
  datatype PersonaMetric = PersonaMetric(
    persona: string, visitors: int, enrollments: int, revenue: int, conversionRate: real)

  /** How a persona is presented. */
  datatype PersonaStyle = PersonaStyle(name: string, color: string, icon: string, description: string)

  const PersonaConfig: map<string, PersonaStyle> := map[
    "startup-sam" := PersonaStyle("Startup Sam", "bg-green-500", "\U{1F680}", "New Amazon sellers"),
    "scaling-sarah" := PersonaStyle("Scaling Sarah", "bg-blue-500", "\U{1F4C8}", "Growing businesses"),
    "learning-larry" := PersonaStyle("Learning Larry", "bg-purple-500", "\U{1F393}", "Knowledge seekers"),
    "investor-ian" := PersonaStyle("Investor Ian", "bg-amber-500", "\U{1F4BC}", "Investment focused"),
    "provider-priya" := PersonaStyle("Provider Priya", "bg-pink-500", "\U{1F91D}", "Service providers")]

  /** Every persona of the system has a presentation. */
  lemma PersonaConfigComplete(p: Persona)
    ensures p.Slug() in PersonaConfig
  {
    match p
    case StartupSam => case ScalingSarah => case LearningLarry => case InvestorIan => case ProviderPriya =>
  }

  function Revenue(m: PersonaMetric): int { m.revenue }
  function Visitors(m: PersonaMetric): int { m.visitors }

  function TotalRevenue(ms: seq<PersonaMetric>): int
  {
    Sum(ms, Revenue)
  }

  function TotalVisitors(ms: seq<PersonaMetric>): int
  {
    Sum(ms, Visitors)
  }

  /** With no negative figures, no persona holds more than the total, so neither share
      exceeds the whole; an empty list totals zero. */
  lemma SharesWithinTotal(ms: seq<PersonaMetric>, i: nat)
    requires forall j :: 0 <= j < |ms| ==> ms[j].revenue >= 0 && ms[j].visitors >= 0
    requires i < |ms|
    ensures 0 <= ms[i].revenue <= TotalRevenue(ms)
    ensures 0 <= ms[i].visitors <= TotalVisitors(ms)
  {
    SumAtLeastTerm(ms, Revenue, i);
    SumAtLeastTerm(ms, Visitors, i);
  }

  /** Appending a persona adds its figures to each total. */
  lemma TotalsAppend(ms: seq<PersonaMetric>, m: PersonaMetric)
    ensures TotalRevenue(ms + [m]) == TotalRevenue(ms) + m.revenue
    ensures TotalVisitors(ms + [m]) == TotalVisitors(ms) + m.visitors
  {
    SumAppend(ms, m, Revenue);
    SumAppend(ms, m, Visitors);
  }

  /** The average value: revenue per enrollment, or zero for a persona without enrollments.
      Rounding to a whole number for display is not modelled. */
  function AverageValue(m: PersonaMetric): (r: real)
    ensures m.enrollments > 0 ==> r * m.enrollments as real == m.revenue as real
    ensures m.enrollments <= 0 ==> r == 0.0
  {
    if m.enrollments > 0 then m.revenue as real / m.enrollments as real else 0.0
  }

  /** The index `reduce((best, current) => key(current) > key(best) ? current : best)`
      settles on, resumed at position `i` with the running best at `best`. */
  function BestFrom(ms: seq<PersonaMetric>, key: PersonaMetric -> real, best: nat, i: nat): (k: nat)
    requires best < i <= |ms|
    requires forall j :: 0 <= j < i ==> key(ms[j]) <= key(ms[best])
    requires forall j :: 0 <= j < best ==> key(ms[j]) < key(ms[best])
    decreases |ms| - i
    ensures k < |ms|
    ensures forall j :: 0 <= j < |ms| ==> key(ms[j]) <= key(ms[k])
    ensures forall j :: 0 <= j < k ==> key(ms[j]) < key(ms[k])
  {
    if i == |ms| then best
    else if key(ms[i]) > key(ms[best]) then BestFrom(ms, key, i, i + 1)
    else BestFrom(ms, key, best, i + 1)
  }

  /** The reduction without an initial value: none for an empty list, where the call throws,
      and otherwise the earliest of the metrics with the greatest key. */
  function Highest(ms: seq<PersonaMetric>, key: PersonaMetric -> real): (r: Option<nat>)
    ensures r.None? <==> ms == []
    ensures r.Some? ==> r.value < |ms|
    ensures r.Some? ==> forall j :: 0 <= j < |ms| ==> key(ms[j]) <= key(ms[r.value])
    ensures r.Some? ==> forall j :: 0 <= j < r.value ==> key(ms[j]) < key(ms[r.value])
  {
    if ms == [] then None else Some(BestFrom(ms, key, 0, 1))
  }

  /** At most one index is a first-wins maximum, so the reduction's answer is the only one. */
  lemma FirstMaximumUnique(ms: seq<PersonaMetric>, key: PersonaMetric -> real, k: nat)
    requires k < |ms|
    requires forall j :: 0 <= j < |ms| ==> key(ms[j]) <= key(ms[k])
    requires forall j :: 0 <= j < k ==> key(ms[j]) < key(ms[k])
    ensures Highest(ms, key) == Some(k)
  {
  }

  function ConversionRate(m: PersonaMetric): real { m.conversionRate }
  function RevenueKey(m: PersonaMetric): real { m.revenue as real }

  /** The insight's persona name: none when the list is empty or the winning persona has no
      presentation, where the panel throws. */
  function HighestName(ms: seq<PersonaMetric>, key: PersonaMetric -> real): (r: Option<string>)
    ensures r.Some? ==> ms != [] && ms[Highest(ms, key).value].persona in PersonaConfig
    ensures r.Some? ==> r.value == PersonaConfig[ms[Highest(ms, key).value].persona].name
    ensures ms != [] && ms[Highest(ms, key).value].persona in PersonaConfig ==> r.Some?
  {
    var h := Highest(ms, key);
    if h.None? || ms[h.value].persona !in PersonaConfig then None
    else Some(PersonaConfig[ms[h.value].persona].name)
  }

  function HighestConverting(ms: seq<PersonaMetric>): Option<string>
  {
    HighestName(ms, ConversionRate)
  }

  function HighestRevenue(ms: seq<PersonaMetric>): Option<string>
  {
    HighestName(ms, RevenueKey)
  }

  /** Of two personas tied on revenue, the one listed first is reported. */
  lemma TieGoesToFirst(a: PersonaMetric, b: PersonaMetric)
    requires a.revenue == b.revenue
    ensures Highest([a, b], RevenueKey) == Some(0)
  {
    FirstMaximumUnique([a, b], RevenueKey, 0);
  }
}
