/** The member-journey panel: the cross-platform badge and the text an achievement is shared
    to the group with. Opening the share window is not modelled. */
module MemberJourney {
  import opened Common

  datatype AchievementPlatform = Website | Facebook | Both

  datatype Achievement = Achievement(
    id: string, title: string, description: string, icon: string, earnedDate: string,
    platform: AchievementPlatform, shareToGroup: bool)

  /** The badge of a cross-platform score. */
  function Badge(crossPlatformScore: int): (r: string)
    ensures r == "Expert Contributor" <==> crossPlatformScore >= 80
    ensures r == "Active Member" <==> 60 <= crossPlatformScore < 80
    ensures r == "Growing Member" <==> crossPlatformScore < 60
  {
    if crossPlatformScore >= 80 then "Expert Contributor"
    else if crossPlatformScore >= 60 then "Active Member"
    else "Growing Member"
  }

  /** A higher score never earns a lower badge. */
  function BadgeRank(badge: string): nat
  {
    if badge == "Expert Contributor" then 2 else if badge == "Active Member" then 1 else 0
  }

  lemma BadgeMonotone(a: int, b: int)
    requires a <= b
    ensures BadgeRank(Badge(a)) <= BadgeRank(Badge(b))
  {
  }

  /** The text before the title: the party-popper emoji as the source file spells it (its
      UTF-8 bytes read back as Mac Roman text), then the opening quote. */
  const SharePrefix: string := "\U{F8FF}\U{FC}\U{E9}\U{E2} Just earned \""
  const ShareMiddle: string := "\" - "
  const ShareSuffix: string := "! Thanks to the amazing Ecommerce Outset community for the support! #Achievement #AmazonSeller"

  function ShareText(a: Achievement): (r: string)
    ensures StartsWith(r, SharePrefix) && EndsWith(r, ShareSuffix)
    ensures |r| == |SharePrefix| + |a.title| + |ShareMiddle| + |a.description| + |ShareSuffix|
    ensures r[|SharePrefix|..|SharePrefix| + |a.title|] == a.title
    ensures r[|SharePrefix| + |a.title|..|SharePrefix| + |a.title| + |ShareMiddle|] == ShareMiddle
    ensures r[|SharePrefix| + |a.title| + |ShareMiddle|..|r| - |ShareSuffix|] == a.description
  {
    var r := SharePrefix + a.title + ShareMiddle + a.description + ShareSuffix;
    var t, m := |SharePrefix| + |a.title|, |SharePrefix| + |a.title| + |ShareMiddle|;
    assert r[..|SharePrefix|] == SharePrefix;
    assert r[|r| - |ShareSuffix|..] == ShareSuffix;
    assert r[|SharePrefix|..t] == a.title;
    assert r[t..m] == ShareMiddle;
    assert r[m..|r| - |ShareSuffix|] == a.description;
    r
  }

  /** The characters of `s` before the first `c`, or all of `s`. */
  function TakeUntil(s: string, c: char): (r: string)
    ensures |r| <= |s| && r == s[..|r|] && c !in r
  {
    if s == [] || s[0] == c then [] else [s[0]] + TakeUntil(s[1..], c)
  }

  lemma {:induction false} TakeUntilPrefix(a: string, c: char, rest: string)
    requires c !in a
    ensures TakeUntil(a + [c] + rest, c) == a
  {
    if a != [] {
      assert (a + [c] + rest)[1..] == a[1..] + [c] + rest;
      TakeUntilPrefix(a[1..], c, rest);
    }
  }

  /** The title a reader of the shared text sees between the opening and the closing quote. */
  function SharedTitle(text: string): string
  {
    if StartsWith(text, SharePrefix) then TakeUntil(text[|SharePrefix|..], '"') else ""
  }

  /** A title without a double quote can be read back from the shared text exactly. */
  lemma SharedTitleRoundTrip(a: Achievement)
    requires '"' !in a.title
    ensures SharedTitle(ShareText(a)) == a.title
  {
    var r := ShareText(a);
    var rest := a.description + ShareSuffix;
    assert r[|SharePrefix|..] == a.title + ['"'] + (" - " + rest);
    TakeUntilPrefix(a.title, '"', " - " + rest);
  }

  const Achievements: seq<Achievement> := [
    Achievement("1", "First Product Launch", "Successfully launched your first Amazon product",
      "\U{F8FF}\U{FC}\U{F6}\U{C4}", "2024-01-25", Website, true),
    Achievement("2", "Community Helper", "Provided 10 helpful answers in the group",
      "\U{F8FF}\U{FC}\U{A7}\U{F9}", "2024-01-20", Facebook, false),
    Achievement("3", "Course Completion", "Completed the Product Research Masterclass",
      "\U{F8FF}\U{FC}\U{E9}\U{EC}", "2024-01-15", Website, true)]

  /** "Share to Group" is offered only where the achievement allows it. */
  predicate ShareOffered(a: Achievement)
  {
    a.shareToGroup
  }

  /** Of the three achievements, the first and third can be shared. */
  lemma OfferedAchievements()
    ensures Filter(Achievements, ShareOffered) == [Achievements[0], Achievements[2]]
  {
    assert Achievements[1..][1..][1..] == [];
  }
}
