/** The testing dashboard's headline figures: feedback received and how much of it is
    positive, open bugs, and running tests. */
module TestingDashboard {
  import opened Common
  import opened TestingStore

  /** `f.rating && f.rating > 0`: an absent or zero rating is not positive. */
  predicate Positive(f: Feedback)
  {
    f.rating.Some? && f.rating.value > 0
  }

  predicate Unresolved(e: ErrorReport)
  {
    !e.resolved
  }

  predicate Running(t: ABTest)
  {
    t.isActive
  }

  function PositiveFeedback(items: seq<Feedback>): (n: nat)
    ensures n <= |items|
  {
    Count(items, Positive)
  }

  function ActiveBugs(reports: seq<ErrorReport>): (n: nat)
    ensures n <= |reports|
  {
    Count(reports, Unresolved)
  }

  function RunningTests(tests: seq<ABTest>): (n: nat)
    ensures n <= |tests|
  {
    Count(tests, Running)
  }

  /** A count grows by one exactly when the appended item passes the test. */
  lemma {:induction false} CountAppend<T>(s: seq<T>, x: T, p: T -> bool)
    ensures Count(s + [x], p) == Count(s, p) + (if p(x) then 1 else 0)
  {
    if s == [] {
      assert [] + [x] == [x];
    } else {
      CountAppend(s[1..], x, p);
      assert (s + [x])[1..] == s[1..] + [x];
    }
  }

  /** A newly reported error is an open bug: reporting raises the count by exactly one. */
  lemma ReportedErrorIsActive(reports: seq<ErrorReport>, d: ErrorDraft, id: string, now: string)
    ensures ActiveBugs(reports + [Reported(d, id, now)]) == ActiveBugs(reports) + 1
  {
    CountAppend(reports, Reported(d, id, now), Unresolved);
  }

  /** `Math.round((positive / total) * 100)`, or 0 with no feedback, computed on the exact
      fraction with half-way values rounded up. The source rounds a floating-point product,
      which at some half-way values lies just below the half (23 of 40 gives
      57.49999999999999 and so 57, where this gives 58). */
  function PositivePercentage(positive: nat, total: nat): (pct: int)
    requires positive <= total
    ensures 0 <= pct <= 100
    ensures total == 0 ==> pct == 0
  {
    if total == 0 then 0 else
      var pct := (200 * positive + total) / (2 * total);
      DivBounds(200 * positive + total, 2 * total);
      MulCancel(2 * total, pct, 101);
      pct
  }

  /** Floor division and the bound it keeps. */
  lemma DivBounds(a: nat, b: nat)
    requires b > 0
    ensures 0 <= a / b && b * (a / b) <= a < b * (a / b + 1)
  {
  }

  lemma MulCancel(b: int, x: int, y: int)
    requires b > 0 && b * x < b * y
    ensures x < y
  {
    if x >= y {
      MulMonotone(b, y, x);
    }
  }

  lemma MulMonotone(b: int, x: int, y: int)
    requires b > 0 && x <= y
    ensures b * x <= b * y
  {
    assert b * y == b * x + b * (y - x);
  }

  /** Floor division is the only quotient within the bound. */
  lemma DivUnique(a: nat, b: nat, q: int)
    requires b > 0 && b * q <= a < b * (q + 1)
    ensures a / b == q
  {
    DivBounds(a, b);
    if a / b < q {
      MulMonotone(b, a / b + 1, q);
    } else if a / b > q {
      MulMonotone(b, q + 1, a / b);
    }
  }

  /** The percentage is 100 times the positive share, rounded to the nearest integer with
      halves rounded up: it lies within half a point of the exact share. */
  lemma PercentageRounds(positive: nat, total: nat)
    requires positive <= total && total > 0
    ensures var pct := PositivePercentage(positive, total);
            2 * total * pct <= 200 * positive + total < 2 * total * (pct + 1)
  {
    DivBounds(200 * positive + total, 2 * total);
  }

  /** Away from half-way values the percentage is the one integer nearest to 100 times the
      positive share: it lies strictly within half a point of it. */
  lemma PercentageNearestOffHalves(positive: nat, total: nat)
    requires positive <= total && total > 0
    requires (200 * positive) % (2 * total) != total
    ensures var pct := PositivePercentage(positive, total);
            2 * total * pct < 200 * positive + total && 200 * positive - total < 2 * total * pct
  {
    var pct := PositivePercentage(positive, total);
    var a, b := 200 * positive, 2 * total;
    PercentageRounds(positive, total);
    if b * pct == a + total {
      assert b * (pct - 1) == b * pct - b;
      assert a == b * (pct - 1) + total;
      DivUnique(a, b, pct - 1);
      assert false;
    }
  }

  /** All feedback positive is 100%, none is 0%. */
  lemma PercentageExtremes(total: nat)
    requires total > 0
    ensures PositivePercentage(total, total) == 100
    ensures PositivePercentage(0, total) == 0
  {
    DivUnique(200 * total + total, 2 * total, 100);
    DivUnique(total, 2 * total, 0);
  }
}
