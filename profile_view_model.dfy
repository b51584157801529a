/**
 * The profile view model's badge hints: over a snapshot of its UI state,
 * the catalogue is split into badges the user's points already unlock and
 * badges still ahead, leaving out the badges the profile already holds.
 */
module ProfileViewModel {
  import opened Wrappers
  import opened Models
  import opened Lists

  /** A snapshot of `ProfileUiState`: both lists are loaded independently and may be missing. */
  datatype ProfileUiState = ProfileUiState(
    userProfile: Option<UserProfile>,
    availableBadges: Option<seq<Badge>>,
    isLoading: bool,
    error: Option<string>)

  function BadgeIds(badges: seq<Badge>): (ids: seq<int>)
    ensures |ids| == |badges|
    ensures forall i :: 0 <= i < |badges| ==> ids[i] == badges[i].id
    decreases |badges|
  {
    if badges == [] then [] else [badges[0].id] + BadgeIds(badges[1..])
  }

  /** `earnedBadgeIds`: the ids of the profile's badges, none when the list is absent. */
  function EarnedBadgeIds(profile: UserProfile): (ids: seq<int>)
    ensures profile.badges == None ==> ids == []
    ensures profile.badges.Some? ==> forall id :: id in ids <==> exists b :: b in profile.badges.value && b.id == id
  {
    match profile.badges
    case None => []
    case Some(bs) =>
      var ids := BadgeIds(bs);
      assert forall b :: b in bs ==> b.id in ids by {
        forall b | b in bs ensures b.id in ids {
          var i :| 0 <= i < |bs| && bs[i] == b;
          assert ids[i] == b.id;
        }
      }
      ids
  }

  predicate Earned(profile: UserProfile, b: Badge)
  {
    b.id in EarnedBadgeIds(profile)
  }

  predicate Unlocked(profile: UserProfile, b: Badge)
  {
    b.pointsRequired <= profile.points && !Earned(profile, b)
  }

  predicate Upcoming(profile: UserProfile, b: Badge)
  {
    b.pointsRequired > profile.points && !Earned(profile, b)
  }

  /** `calculateUnlockedBadges`: catalogue badges within reach of the points and not yet earned. */
  function CalculateUnlockedBadges(state: ProfileUiState): (r: seq<Badge>)
    ensures state.userProfile == None || state.availableBadges == None ==> r == []
    ensures state.userProfile.Some? && state.availableBadges.Some? ==>
      && (forall b :: b in r <==> b in state.availableBadges.value && Unlocked(state.userProfile.value, b))
      && (forall b :: multiset(r)[b] ==
            if Unlocked(state.userProfile.value, b) then multiset(state.availableBadges.value)[b] else 0)
      && IsSubsequence(r, state.availableBadges.value)
  {
    if state.userProfile.Some? && state.availableBadges.Some? then
      FilterIsSubsequence(state.availableBadges.value, state.userProfile.value, Unlocked);
      FilterCounts(state.availableBadges.value, state.userProfile.value, Unlocked);
      Filter(state.availableBadges.value, state.userProfile.value, Unlocked)
    else []
  }

  /** The "next" candidates before sorting, in catalogue order. */
  function UpcomingInCatalogueOrder(profile: UserProfile, catalogue: seq<Badge>): (r: seq<Badge>)
    ensures forall b :: b in r <==> b in catalogue && Upcoming(profile, b)
  {
    Filter(catalogue, profile, Upcoming)
  }

  /** Every copy of an upcoming badge is kept, in catalogue order, and no copy of any other. */
  lemma UpcomingCounts(profile: UserProfile, catalogue: seq<Badge>)
    ensures var r := UpcomingInCatalogueOrder(profile, catalogue);
      && (forall b :: multiset(r)[b] == if Upcoming(profile, b) then multiset(catalogue)[b] else 0)
      && IsSubsequence(r, catalogue)
  {
    FilterCounts(catalogue, profile, Upcoming);
    FilterIsSubsequence(catalogue, profile, Upcoming);
  }

  /** `calculateNextBadges`: not-yet-reachable, not-earned badges, cheapest first. */
  function CalculateNextBadges(state: ProfileUiState): (r: seq<Badge>)
    ensures state.userProfile == None || state.availableBadges == None ==> r == []
    ensures state.userProfile.Some? && state.availableBadges.Some? ==>
      var upcoming := UpcomingInCatalogueOrder(state.userProfile.value, state.availableBadges.value);
      && SortedByKey(r, PointsRequired)
      && multiset(r) == multiset(upcoming)
      && (forall b :: b in r <==> b in state.availableBadges.value && Upcoming(state.userProfile.value, b))
  {
    if state.userProfile.Some? && state.availableBadges.Some? then
      var r := SortByKey(UpcomingInCatalogueOrder(state.userProfile.value, state.availableBadges.value), PointsRequired);
      assert forall b :: b in r <==> b in multiset(r);
      r
    else []
  }

  /** `sortedBy` is stable: badges needing the same points keep their catalogue order. */
  lemma NextBadgesKeepCatalogueOrderOnTies(state: ProfileUiState, k: int)
    requires state.userProfile.Some? && state.availableBadges.Some?
    ensures WithKey(CalculateNextBadges(state), PointsRequired, k)
         == WithKey(UpcomingInCatalogueOrder(state.userProfile.value, state.availableBadges.value), PointsRequired, k)
  {
    SortByKeyStable(UpcomingInCatalogueOrder(state.userProfile.value, state.availableBadges.value), PointsRequired, k);
  }

  /**
   * The two lists partition the unearned part of the catalogue: every
   * catalogue badge is earned, unlocked or next, and exactly one of them.
   */
  lemma BadgeListsPartitionCatalogue(state: ProfileUiState, b: Badge)
    requires state.userProfile.Some? && state.availableBadges.Some?
    requires b in state.availableBadges.value
    ensures var unlocked := CalculateUnlockedBadges(state);
            var next := CalculateNextBadges(state);
            var earned := Earned(state.userProfile.value, b);
            && (earned ==> b !in unlocked && b !in next)
            && (!earned ==> (b in unlocked) != (b in next))
  {
  }

  /** No badge appears in both lists, whatever the catalogue holds. */
  lemma UnlockedAndNextDisjoint(state: ProfileUiState)
    ensures forall b :: !(b in CalculateUnlockedBadges(state) && b in CalculateNextBadges(state))
  {
  }

  /** Without a badge list on the profile nothing counts as earned. */
  lemma NoBadgeListMeansNothingEarned(state: ProfileUiState)
    requires state.userProfile.Some? && state.userProfile.value.badges == None
    requires state.availableBadges.Some?
    ensures CalculateUnlockedBadges(state)
         == Filter(state.availableBadges.value, state.userProfile.value, Unlocked)
    ensures forall b :: b in CalculateUnlockedBadges(state) <==>
              b in state.availableBadges.value && b.pointsRequired <= state.userProfile.value.points
  {
  }

  /** A user with `points` points and no badge earned yet, and the catalogue [50, 150, 300]. */
  function ScenarioState(points: int): ProfileUiState
  {
    ProfileUiState(
      Some(UserProfile(7, "anna", points, Some([]))),
      Some([Badge(1, "Eco-Starter", 50), Badge(2, "Eco-Explorer", 150), Badge(3, "Eco-Hero", 300)]),
      false, None)
  }

  /** Between 50 and 149 points (100 in the screen's preview): unlocked is [50]. */
  lemma UnlockedBadgeScenario(points: int)
    requires 50 <= points < 150
    ensures CalculateUnlockedBadges(ScenarioState(points)) == [Badge(1, "Eco-Starter", 50)]
  {
    var profile := ScenarioState(points).userProfile.value;
    var cat := ScenarioState(points).availableBadges.value;
    assert EarnedBadgeIds(profile) == [];
    assert cat[1..][1..][1..] == [];
    assert Filter(cat[1..][1..], profile, Unlocked) == [];
    assert Filter(cat[1..], profile, Unlocked) == [];
  }

  /** The same state: the upcoming badges are [150, 300]. */
  lemma UpcomingScenario(points: int)
    requires 50 <= points < 150
    ensures UpcomingInCatalogueOrder(ScenarioState(points).userProfile.value, ScenarioState(points).availableBadges.value)
         == [Badge(2, "Eco-Explorer", 150), Badge(3, "Eco-Hero", 300)]
  {
    var profile := ScenarioState(points).userProfile.value;
    var cat := ScenarioState(points).availableBadges.value;
    assert EarnedBadgeIds(profile) == [];
    assert cat[1..][1..][1..] == [];
    assert Filter(cat[1..][1..], profile, Upcoming) == [cat[2]];
    assert Filter(cat[1..], profile, Upcoming) == [cat[1], cat[2]];
  }

  /** A catalogue whose upcoming badges are already in points order is listed as it stands. */
  lemma NextBadgesOfSortedCatalogue(state: ProfileUiState)
    requires state.userProfile.Some? && state.availableBadges.Some?
    requires SortedByKey(UpcomingInCatalogueOrder(state.userProfile.value, state.availableBadges.value), PointsRequired)
    ensures CalculateNextBadges(state) == UpcomingInCatalogueOrder(state.userProfile.value, state.availableBadges.value)
  {
    SortByKeySortedIsIdentity(UpcomingInCatalogueOrder(state.userProfile.value, state.availableBadges.value), PointsRequired);
  }

  /** The same state: next is [150, 300], already in points order. */
  lemma NextBadgeScenario(points: int)
    requires 50 <= points < 150
    ensures CalculateNextBadges(ScenarioState(points)) == [Badge(2, "Eco-Explorer", 150), Badge(3, "Eco-Hero", 300)]
  {
    UpcomingScenario(points);
    assert SortedByKey([Badge(2, "Eco-Explorer", 150), Badge(3, "Eco-Hero", 300)], PointsRequired);
    NextBadgesOfSortedCatalogue(ScenarioState(points));
  }
}
