/** The behavioural tracker: once consent is given it tracks the page view and, as the visitor
    scrolls, the 25, 50 and 75 percent milestones, each at most once per mount. */
module BehavioralTracker {
  import opened Common
  import opened PersonalizationTypes
  import opened PersonalizationStore

  /** The milestone names, in the order the handler tests them, and their thresholds. */
  const MilestoneNames: seq<string> := ["scroll_25", "scroll_50", "scroll_75"]
  const Thresholds: seq<real> := [25.0, 50.0, 75.0]

  /** No name is recorded twice. */
  predicate Distinct(events: seq<string>)
  {
    forall i, j :: 0 <= i < j < |events| ==> events[i] != events[j]
  }

  /** The milestones one scroll event records, in order, given those already recorded: each
      threshold strictly exceeded whose name is not yet there. */
  function Fired(events: seq<string>, percentage: real, k: nat): (r: seq<string>)
    requires k <= 3
    ensures |r| <= 3 - k
    ensures forall i :: 0 <= i < |r| ==> r[i] in MilestoneNames[k..] && r[i] !in events
    ensures forall j :: k <= j < 3 && percentage > Thresholds[j] && MilestoneNames[j] !in events ==> MilestoneNames[j] in r
    ensures forall j :: k <= j < 3 && MilestoneNames[j] in r ==> percentage > Thresholds[j]
    ensures Distinct(r)
    decreases 3 - k
  {
    if k == 3 then []
    else if percentage > Thresholds[k] && MilestoneNames[k] !in events then [MilestoneNames[k]] + Fired(events, percentage, k + 1)
    else Fired(events, percentage, k + 1)
  }

  /** On a fresh mount, one scroll past three quarters of the page records all three
      milestones, in threshold order. */
  lemma FreshScrollPastThreeQuarters(percentage: real)
    requires percentage > 75.0
    ensures Fired([], percentage, 0) == MilestoneNames
  {
  }

  /** A milestone already recorded never fires again. */
  lemma RecordedNeverRefires(events: seq<string>, percentage: real)
    requires forall i :: 0 <= i < |MilestoneNames| ==> MilestoneNames[i] in events
    ensures Fired(events, percentage, 0) == []
  {
  }

  class Tracker {
    var engagementEvents: seq<string>
    var listening: bool
    var lastScrollY: real

    /** Every recorded name is a milestone name, recorded once. */
    ghost predicate Valid()
      reads this
    {
      Distinct(engagementEvents) && forall i :: 0 <= i < |engagementEvents| ==> engagementEvents[i] in MilestoneNames
    }

    constructor()
      ensures Valid() && engagementEvents == [] && !listening && lastScrollY == 0.0
    {
      engagementEvents := [];
      listening := false;
      lastScrollY := 0.0;
    }

    /** The mount effect: without consent, or with personalization off, it returns at once
        and no listener is installed; otherwise it tracks the page view, worth one point. */
    method Mount(store: Store, now: string)
      requires Valid() && store.Valid()
      modifies this, store
      ensures Valid() && store.Valid()
      ensures listening <==> old(store.consentGiven) && old(store.isPersonalizationEnabled)
      ensures !listening ==> store.behaviorScore == old(store.behaviorScore)
      ensures listening ==> store.behaviorScore == Min(MaxScore, old(store.behaviorScore) + 1)
      ensures engagementEvents == old(engagementEvents)
      ensures store.consentGiven == old(store.consentGiven) && store.isPersonalizationEnabled == old(store.isPersonalizationEnabled)
      ensures store.session == (if listening then (if old(store.session).Some? then Some(old(store.session).value.(lastActivity := now)) else None) else old(store.session))
      ensures store.currentPersona == old(store.currentPersona) && store.recommendations == old(store.recommendations)
      ensures store.appliedRules == old(store.appliedRules)
    {
      if !store.consentGiven || !store.isPersonalizationEnabled {
        listening := false;
        return;
      }
      listening := true;
      store.TrackBehavior("page_view", now);
    }

    /** One milestone test of the scroll handler: past the threshold and not yet recorded, the
        name is recorded and a `content_engagement` event, worth three points, is tracked. */
    method Milestone(store: Store, percentage: real, k: nat, now: string) returns (fired: bool)
      requires k < 3 && Valid() && store.Valid()
      modifies this, store
      ensures Valid() && store.Valid()
      ensures fired <==> percentage > Thresholds[k] && MilestoneNames[k] !in old(engagementEvents)
      ensures engagementEvents == old(engagementEvents) + (if fired then [MilestoneNames[k]] else [])
      ensures store.behaviorScore == (if fired && old(store.consentGiven) && old(store.isPersonalizationEnabled)
                                      then Min(MaxScore, old(store.behaviorScore) + 3) else old(store.behaviorScore))
      ensures listening == old(listening) && lastScrollY == old(lastScrollY)
      ensures store.consentGiven == old(store.consentGiven) && store.isPersonalizationEnabled == old(store.isPersonalizationEnabled)
      ensures store.session == (if fired && old(store.consentGiven) && old(store.isPersonalizationEnabled)
                                then (if old(store.session).Some? then Some(old(store.session).value.(lastActivity := now)) else None) else old(store.session))
      ensures store.currentPersona == old(store.currentPersona) && store.recommendations == old(store.recommendations)
      ensures store.appliedRules == old(store.appliedRules)
    {
      fired := percentage > Thresholds[k] && MilestoneNames[k] !in engagementEvents;
      if fired {
        engagementEvents := engagementEvents + [MilestoneNames[k]];
        store.TrackBehavior("content_engagement", now);
      }
    }

    /** The scroll handler (called only once `Mount` has installed it). The recorded names
        grow by exactly the milestones this scroll fires, and with consent the score grows
        by three points for each, capped at 100. */
    method HandleScroll(store: Store, scrollY: real, percentage: real, now: string)
      requires Valid() && store.Valid()
      modifies this, store
      ensures Valid() && store.Valid()
      ensures engagementEvents == old(engagementEvents) + Fired(old(engagementEvents), percentage, 0)
      ensures old(store.consentGiven) && old(store.isPersonalizationEnabled) ==>
                store.behaviorScore == Min(MaxScore, old(store.behaviorScore) + 3 * |Fired(old(engagementEvents), percentage, 0)|)
      ensures !old(store.consentGiven) || !old(store.isPersonalizationEnabled) ==> store.behaviorScore == old(store.behaviorScore)
      ensures lastScrollY == scrollY && listening == old(listening)
      ensures store.consentGiven == old(store.consentGiven) && store.isPersonalizationEnabled == old(store.isPersonalizationEnabled)
      ensures store.session == (if |Fired(old(engagementEvents), percentage, 0)| > 0 && old(store.consentGiven)
                                   && old(store.isPersonalizationEnabled)
                                then (if old(store.session).Some? then Some(old(store.session).value.(lastActivity := now)) else None) else old(store.session))
      ensures store.currentPersona == old(store.currentPersona) && store.recommendations == old(store.recommendations)
      ensures store.appliedRules == old(store.appliedRules)
    {
      lastScrollY := scrollY;
      ghost var e0, s0 := engagementEvents, store.behaviorScore;
      var f0 := Milestone(store, percentage, 0, now);
      ghost var e1, s1 := engagementEvents, store.behaviorScore;
      var f1 := Milestone(store, percentage, 1, now);
      ghost var e2, s2 := engagementEvents, store.behaviorScore;
      var f2 := Milestone(store, percentage, 2, now);
      FiredSteps(e0, e1, e2, engagementEvents, percentage, f0, f1, f2);
      if store.consentGiven && store.isPersonalizationEnabled {
        ScoreSteps(s0, s1, s2, store.behaviorScore, f0, f1, f2);
      }
    }
  }

  function Ones(f0: bool, f1: bool, f2: bool): nat
  {
    (if f0 then 1 else 0) + (if f1 then 1 else 0) + (if f2 then 1 else 0)
  }

  /** Three capped three-point steps add three points per step taken, capped once. */
  lemma ScoreSteps(s0: int, s1: int, s2: int, s3: int, f0: bool, f1: bool, f2: bool)
    requires 0 <= s0 <= MaxScore
    requires s1 == (if f0 then Min(MaxScore, s0 + 3) else s0)
    requires s2 == (if f1 then Min(MaxScore, s1 + 3) else s1)
    requires s3 == (if f2 then Min(MaxScore, s2 + 3) else s2)
    ensures s3 == Min(MaxScore, s0 + 3 * Ones(f0, f1, f2))
  {
  }

  /** The three milestone tests in a row record exactly `Fired`, one name per test that fired. */
  lemma FiredSteps(e0: seq<string>, e1: seq<string>, e2: seq<string>, e3: seq<string>, percentage: real, f0: bool, f1: bool, f2: bool)
    requires f0 <==> percentage > Thresholds[0] && MilestoneNames[0] !in e0
    requires f1 <==> percentage > Thresholds[1] && MilestoneNames[1] !in e1
    requires f2 <==> percentage > Thresholds[2] && MilestoneNames[2] !in e2
    requires e1 == e0 + (if f0 then [MilestoneNames[0]] else [])
    requires e2 == e1 + (if f1 then [MilestoneNames[1]] else [])
    requires e3 == e2 + (if f2 then [MilestoneNames[2]] else [])
    ensures e3 == e0 + Fired(e0, percentage, 0)
    ensures |Fired(e0, percentage, 0)| == Ones(f0, f1, f2)
  {
    assert MilestoneNames[1] in e1 <==> MilestoneNames[1] in e0;
    assert MilestoneNames[2] in e2 <==> MilestoneNames[2] in e0;
  }
}
