/** The group-bridge feed's relative timestamps. The time between the post and now is given in
    milliseconds; reading the clock and parsing the timestamp are not modelled. */
module GroupBridge {
  import opened Common

  /** `1000 * 60 * 60` and twenty-four times that. */
  const MsPerHour: int := 3_600_000
  const MsPerDay: int := 86_400_000

  /** `Math.floor(elapsedMs / (1000 * 60 * 60))`; Euclidean division by a positive number is
      the floor. */
  function HoursBetween(elapsedMs: int): (h: int)
    ensures MsPerHour * h <= elapsedMs < MsPerHour * (h + 1)
  {
    elapsedMs / MsPerHour
  }

  /** Whole days of whole hours are whole days of the elapsed time. */
  lemma DaysOfHours(elapsedMs: int)
    ensures HoursBetween(elapsedMs) / 24 == elapsedMs / MsPerDay
  {
    var h := HoursBetween(elapsedMs);
    var d := h / 24;
    assert 24 * d <= h < 24 * (d + 1);
    assert MsPerDay * d <= elapsedMs < MsPerDay * (d + 1);
  }

  /** A count followed by a five-character unit reads back as the count. */
  lemma Labelled(n: nat, unit: string)
    requires |unit| == 5
    ensures EndsWith(NatToString(n) + unit, unit)
    ensures DecimalValue((NatToString(n) + unit)[..|NatToString(n) + unit| - 5]) == n
  {
    var r := NatToString(n) + unit;
    assert r[..|r| - 5] == NatToString(n);
    assert r[|r| - 5..] == unit;
    NatToStringValue(n);
  }

  function FormatTimeAgo(elapsedMs: int): (r: string)
    ensures elapsedMs < MsPerHour ==> r == "Just now"
    ensures MsPerHour <= elapsedMs < MsPerDay ==>
              r == NatToString(elapsedMs / MsPerHour) + "h ago" && DecimalValue(r[..|r| - 5]) == elapsedMs / MsPerHour
    ensures elapsedMs >= MsPerDay ==>
              r == NatToString(elapsedMs / MsPerDay) + "d ago" && DecimalValue(r[..|r| - 5]) == elapsedMs / MsPerDay
  {
    var hours := HoursBetween(elapsedMs);
    if hours < 1 then "Just now"
    else if hours < 24 then
      Labelled(hours, "h ago");
      NatToString(hours) + "h ago"
    else
      Labelled(hours / 24, "d ago");
      DaysOfHours(elapsedMs);
      NatToString(hours / 24) + "d ago"
  }

  /** Only posts less than an hour old, or dated in the future, read "Just now". */
  lemma JustNowIffUnderAnHour(elapsedMs: int)
    ensures FormatTimeAgo(elapsedMs) == "Just now" <==> elapsedMs < MsPerHour
  {
    if elapsedMs >= MsPerHour {
      var r := FormatTimeAgo(elapsedMs);
      assert EndsWith(r, "h ago") || EndsWith(r, "d ago");
      assert r[|r| - 5..] != "Just now"[3..];
    }
  }
}
