/**
 * The challenge view model: the catalogue filters, the completion-status
 * cache (challenge id to "completed by the current user"), and the scans
 * that classify every challenge as active or completed from its list of
 * participant records. The participant lists the scans fetch one by one
 * are an input sequence, one fetch outcome per catalogue challenge.
 */
module Challenges {
  import opened Wrappers
  import opened Models
  import opened Lists

  /**
   * What fetching one challenge's participants gave: an exception, or a
   * response whose body is the list (absent when the body is null, which is
   * also what an unsuccessful response yields).
   */
  datatype ParticipantsFetch = FetchFailed | Fetched(participants: Option<seq<ChallengeParticipation>>)

  /** `participant.username == username`, where the logged-in username may be unknown. */
  predicate IsUser(username: Option<string>, p: ChallengeParticipation)
  {
    username == Some(p.username)
  }

  /** The position of the user's first record, the one `getActiveChallenges` stops at. */
  function FirstMatchIndex(ps: seq<ChallengeParticipation>, username: Option<string>): (r: Option<nat>)
    ensures r.Some? ==> r.value < |ps| && IsUser(username, ps[r.value])
    ensures r.Some? ==> forall j :: 0 <= j < r.value ==> !IsUser(username, ps[j])
    ensures r.None? ==> forall j :: 0 <= j < |ps| ==> !IsUser(username, ps[j])
    decreases |ps|
  {
    if ps == [] then None
    else if IsUser(username, ps[0]) then Some(0)
    else
      var r := FirstMatchIndex(ps[1..], username);
      assert forall j :: 1 <= j < |ps| ==> ps[j] == ps[1..][j - 1];
      if r.None? then None else Some(r.value + 1)
  }

  /**
   * Active: the participant list is null or empty, or the user's first
   * record is not completed. A non-empty list without the user, and a failed
   * fetch, make the challenge not active.
   */
  predicate IsActive(username: Option<string>, f: ParticipantsFetch)
  {
    f.Fetched? &&
      (f.participants.None? || |f.participants.value| == 0 ||
        exists i :: 0 <= i < |f.participants.value|
          && IsUser(username, f.participants.value[i]) && !f.participants.value[i].completed
          && forall j :: 0 <= j < i ==> !IsUser(username, f.participants.value[j]))
  }

  /** Completed: some record of the user says completed. */
  predicate IsCompletedBy(username: Option<string>, f: ParticipantsFetch)
  {
    f.Fetched? && f.participants.Some? &&
      exists i :: 0 <= i < |f.participants.value|
        && IsUser(username, f.participants.value[i]) && f.participants.value[i].completed
  }

  /** The challenges, in catalogue order, whose fetch outcome satisfies `p`. */
  function Selected(cs: seq<Challenge>, fs: seq<ParticipantsFetch>, username: Option<string>,
                    p: (Option<string>, ParticipantsFetch) -> bool): seq<Challenge>
    requires |cs| == |fs|
    decreases |cs|
  {
    if cs == [] then []
    else
      var n := |cs| - 1;
      Selected(cs[..n], fs[..n], username, p) + (if p(username, fs[n]) then [cs[n]] else [])
  }

  lemma {:induction false} SelectedMembers(cs: seq<Challenge>, fs: seq<ParticipantsFetch>, username: Option<string>,
                                           p: (Option<string>, ParticipantsFetch) -> bool)
    requires |cs| == |fs|
    ensures forall c :: c in Selected(cs, fs, username, p) <==>
      exists i :: 0 <= i < |cs| && cs[i] == c && p(username, fs[i])
    decreases |cs|
  {
    if cs != [] {
      var n := |cs| - 1;
      SelectedMembers(cs[..n], fs[..n], username, p);
      forall c | c in Selected(cs, fs, username, p)
        ensures exists i :: 0 <= i < |cs| && cs[i] == c && p(username, fs[i])
      {
        if c in Selected(cs[..n], fs[..n], username, p) {
          var i :| 0 <= i < n && cs[..n][i] == c && p(username, fs[..n][i]);
          assert cs[i] == c && fs[i] == fs[..n][i];
        }
      }
      forall c | exists i :: 0 <= i < |cs| && cs[i] == c && p(username, fs[i])
        ensures c in Selected(cs, fs, username, p)
      {
        var i :| 0 <= i < |cs| && cs[i] == c && p(username, fs[i]);
        if i < n {
          assert cs[..n][i] == c && fs[..n][i] == fs[i];
        }
      }
    }
  }

  /** The selection keeps catalogue order. */
  lemma {:induction false} SelectedIsSubsequence(cs: seq<Challenge>, fs: seq<ParticipantsFetch>, username: Option<string>,
                                                 p: (Option<string>, ParticipantsFetch) -> bool)
    requires |cs| == |fs|
    ensures IsSubsequence(Selected(cs, fs, username, p), cs)
    decreases |cs|
  {
    if cs != [] {
      var n := |cs| - 1;
      SelectedIsSubsequence(cs[..n], fs[..n], username, p);
      assert cs == cs[..n] + [cs[n]];
      if p(username, fs[n]) {
        SubsequenceAppendBoth(Selected(cs[..n], fs[..n], username, p), cs[..n], cs[n]);
      } else {
        assert Selected(cs, fs, username, p) == Selected(cs[..n], fs[..n], username, p);
        SubsequenceExtend(Selected(cs[..n], fs[..n], username, p), cs[..n], cs[n]);
      }
    }
  }

  /** One more challenge scanned: the selection grows by it exactly when its fetch qualifies. */
  lemma SelectedStep(cs: seq<Challenge>, fs: seq<ParticipantsFetch>, username: Option<string>,
                     p: (Option<string>, ParticipantsFetch) -> bool, i: nat)
    requires |cs| == |fs| && i < |cs|
    ensures Selected(cs[..i + 1], fs[..i + 1], username, p)
      == Selected(cs[..i], fs[..i], username, p) + (if p(username, fs[i]) then [cs[i]] else [])
  {
    assert cs[..i + 1][..i] == cs[..i] && fs[..i + 1][..i] == fs[..i];
  }

  /** Active, stated through the first record of the user rather than an existential. */
  lemma IsActiveByFirstMatch(username: Option<string>, f: ParticipantsFetch)
    ensures IsActive(username, f) <==>
      f.Fetched? && (f.participants.None? || |f.participants.value| == 0 ||
        (FirstMatchIndex(f.participants.value, username).Some?
          && !f.participants.value[FirstMatchIndex(f.participants.value, username).value].completed))
  {
    if f.Fetched? && f.participants.Some? && IsActive(username, f) && |f.participants.value| > 0 {
      var ps := f.participants.value;
      var i :| 0 <= i < |ps| && IsUser(username, ps[i]) && !ps[i].completed
        && forall j :: 0 <= j < i ==> !IsUser(username, ps[j]);
      assert FirstMatchIndex(ps, username) == Some(i);
    }
  }

  /** The map update `getActiveChallenges` makes for one challenge: the first record's flag. */
  function RecordFirstMatch(m: map<int, bool>, c: Challenge, username: Option<string>, f: ParticipantsFetch): map<int, bool>
  {
    if f.Fetched? && f.participants.Some? && FirstMatchIndex(f.participants.value, username).Some? then
      m[c.id := f.participants.value[FirstMatchIndex(f.participants.value, username).value].completed]
    else m
  }

  /** The map update `getCompletedChallenges` makes for one challenge: true on a completed record. */
  function RecordCompleted(m: map<int, bool>, c: Challenge, username: Option<string>, f: ParticipantsFetch): map<int, bool>
  {
    if IsCompletedBy(username, f) then m[c.id := true] else m
  }

  /** The completion map after a scan applying `record` to the challenges in order. */
  function ScanStatus(m: map<int, bool>, cs: seq<Challenge>, fs: seq<ParticipantsFetch>, username: Option<string>,
                      record: (map<int, bool>, Challenge, Option<string>, ParticipantsFetch) -> map<int, bool>): map<int, bool>
    requires |cs| == |fs|
    decreases |cs|
  {
    if cs == [] then m
    else
      var n := |cs| - 1;
      record(ScanStatus(m, cs[..n], fs[..n], username, record), cs[n], username, fs[n])
  }

  lemma ScanStatusStep(m: map<int, bool>, cs: seq<Challenge>, fs: seq<ParticipantsFetch>, username: Option<string>,
                        record: (map<int, bool>, Challenge, Option<string>, ParticipantsFetch) -> map<int, bool>, i: nat)
    requires |cs| == |fs| && i < |cs|
    ensures ScanStatus(m, cs[..i + 1], fs[..i + 1], username, record)
      == record(ScanStatus(m, cs[..i], fs[..i], username, record), cs[i], username, fs[i])
  {
    assert cs[..i + 1][..i] == cs[..i] && fs[..i + 1][..i] == fs[..i];
  }

  /** A completed scan records true for every challenge it finds completed. */
  lemma {:induction false} CompletedScanRecordsTrue(m: map<int, bool>, cs: seq<Challenge>, fs: seq<ParticipantsFetch>,
                                                    username: Option<string>)
    requires |cs| == |fs|
    ensures var r := ScanStatus(m, cs, fs, username, RecordCompleted);
      forall i :: 0 <= i < |cs| && IsCompletedBy(username, fs[i]) ==> cs[i].id in r && r[cs[i].id]
    decreases |cs|
  {
    if cs != [] {
      var n := |cs| - 1;
      CompletedScanRecordsTrue(m, cs[..n], fs[..n], username);
      assert forall i :: 0 <= i < n ==> cs[..n][i] == cs[i] && fs[..n][i] == fs[i];
    }
  }

  /** The completed scan adds an entry exactly for the challenges it finds completed. */
  lemma {:induction false} CompletedScanKeys(m: map<int, bool>, cs: seq<Challenge>, fs: seq<ParticipantsFetch>,
                                             username: Option<string>)
    requires |cs| == |fs|
    ensures var r := ScanStatus(m, cs, fs, username, RecordCompleted);
      forall k :: k in r <==> k in m || exists i :: 0 <= i < |cs| && cs[i].id == k && IsCompletedBy(username, fs[i])
    decreases |cs|
  {
    if cs != [] {
      var n := |cs| - 1;
      CompletedScanKeys(m, cs[..n], fs[..n], username);
      var prev := ScanStatus(m, cs[..n], fs[..n], username, RecordCompleted);
      var r := ScanStatus(m, cs, fs, username, RecordCompleted);
      assert r == RecordCompleted(prev, cs[n], username, fs[n]);
      assert forall i :: 0 <= i < n ==> cs[..n][i] == cs[i] && fs[..n][i] == fs[i];
      forall k
        ensures k in r <==> k in m || exists i :: 0 <= i < |cs| && cs[i].id == k && IsCompletedBy(username, fs[i])
      {
        if k in r && k !in prev {
          assert cs[n].id == k && IsCompletedBy(username, fs[n]);
        }
        if exists i :: 0 <= i < |cs| && cs[i].id == k && IsCompletedBy(username, fs[i]) {
          var i :| 0 <= i < |cs| && cs[i].id == k && IsCompletedBy(username, fs[i]);
          if i < n {
            assert cs[..n][i].id == k && IsCompletedBy(username, fs[..n][i]);
          }
        }
      }
    }
  }

  /** The completed scan leaves the entries of challenges outside the scanned list as they were. */
  lemma {:induction false} CompletedScanKeepsOthers(m: map<int, bool>, cs: seq<Challenge>, fs: seq<ParticipantsFetch>,
                                                    username: Option<string>)
    requires |cs| == |fs|
    ensures var r := ScanStatus(m, cs, fs, username, RecordCompleted);
      forall k :: k in m && k !in Ids(cs) ==> k in r && r[k] == m[k]
    decreases |cs|
  {
    if cs != [] {
      var n := |cs| - 1;
      CompletedScanKeepsOthers(m, cs[..n], fs[..n], username);
      assert Ids(cs) == Ids(cs[..n]) + [cs[n].id];
    }
  }

  function Ids(cs: seq<Challenge>): (ids: seq<int>)
    ensures |ids| == |cs|
    ensures forall i :: 0 <= i < |cs| ==> ids[i] == cs[i].id
    decreases |cs|
  {
    if cs == [] then [] else Ids(cs[..|cs| - 1]) + [cs[|cs| - 1].id]
  }

  /** The active scan writes an entry exactly for the challenges where the user has a record. */
  lemma {:induction false} ActiveScanKeys(m: map<int, bool>, cs: seq<Challenge>, fs: seq<ParticipantsFetch>,
                                          username: Option<string>)
    requires |cs| == |fs|
    ensures var r := ScanStatus(m, cs, fs, username, RecordFirstMatch);
      forall k :: k in r <==> k in m || exists i :: 0 <= i < |cs| && cs[i].id == k && HasRecord(username, fs[i])
    decreases |cs|
  {
    if cs != [] {
      var n := |cs| - 1;
      ActiveScanKeys(m, cs[..n], fs[..n], username);
      var prev := ScanStatus(m, cs[..n], fs[..n], username, RecordFirstMatch);
      var r := ScanStatus(m, cs, fs, username, RecordFirstMatch);
      assert r == RecordFirstMatch(prev, cs[n], username, fs[n]);
      RecordFirstMatchKeys(prev, cs[n], username, fs[n]);
      assert forall i :: 0 <= i < n ==> cs[..n][i] == cs[i] && fs[..n][i] == fs[i];
      forall k
        ensures k in r <==> k in m || exists i :: 0 <= i < |cs| && cs[i].id == k && HasRecord(username, fs[i])
      {
        if k in r && k !in prev {
          assert cs[n].id == k && HasRecord(username, fs[n]);
        }
        if exists i :: 0 <= i < |cs| && cs[i].id == k && HasRecord(username, fs[i]) {
          var i :| 0 <= i < |cs| && cs[i].id == k && HasRecord(username, fs[i]);
          if i < n {
            assert cs[..n][i].id == k && HasRecord(username, fs[..n][i]);
          }
        }
      }
    }
  }

  /** The active scan leaves the entries of challenges outside the scanned list as they were. */
  lemma {:induction false} ActiveScanKeepsOthers(m: map<int, bool>, cs: seq<Challenge>, fs: seq<ParticipantsFetch>,
                                                 username: Option<string>)
    requires |cs| == |fs|
    ensures var r := ScanStatus(m, cs, fs, username, RecordFirstMatch);
      forall k :: k in m && k !in Ids(cs) ==> k in r && r[k] == m[k]
    decreases |cs|
  {
    if cs != [] {
      var n := |cs| - 1;
      ActiveScanKeepsOthers(m, cs[..n], fs[..n], username);
      assert Ids(cs) == Ids(cs[..n]) + [cs[n].id];
    }
  }

  /** The user appears among the fetched records. */
  predicate HasRecord(username: Option<string>, f: ParticipantsFetch)
  {
    f.Fetched? && f.participants.Some? && exists i :: 0 <= i < |f.participants.value| && IsUser(username, f.participants.value[i])
  }

  lemma HasRecordIffFirstMatch(username: Option<string>, f: ParticipantsFetch)
    ensures HasRecord(username, f) <==>
      f.Fetched? && f.participants.Some? && FirstMatchIndex(f.participants.value, username).Some?
  {
  }

  /** One step of the active scan adds the challenge's key exactly when the user has a record. */
  lemma RecordFirstMatchKeys(m: map<int, bool>, c: Challenge, username: Option<string>, f: ParticipantsFetch)
    ensures forall k :: k in RecordFirstMatch(m, c, username, f) <==> k in m || (k == c.id && HasRecord(username, f))
  {
    HasRecordIffFirstMatch(username, f);
  }

  /** At most one record of the user in a fetched list. */
  predicate OneRecordPerUser(username: Option<string>, f: ParticipantsFetch)
  {
    f.Fetched? && f.participants.Some? ==>
      forall i, j :: 0 <= i < j < |f.participants.value| ==>
        !(IsUser(username, f.participants.value[i]) && IsUser(username, f.participants.value[j]))
  }

  /** With one record per user, a challenge is never both active and completed. */
  lemma ActiveExcludesCompleted(username: Option<string>, f: ParticipantsFetch)
    requires OneRecordPerUser(username, f)
    ensures !(IsActive(username, f) && IsCompletedBy(username, f))
  {
  }

  /** With duplicate records, the first-match test and the any-match test disagree. */
  lemma DuplicateRecordsBreakExclusion()
    ensures var f := Fetched(Some([ChallengeParticipation("anna", false), ChallengeParticipation("anna", true)]));
      IsActive(Some("anna"), f) && IsCompletedBy(Some("anna"), f) && !OneRecordPerUser(Some("anna"), f)
  {
    var ps := [ChallengeParticipation("anna", false), ChallengeParticipation("anna", true)];
    assert IsUser(Some("anna"), ps[0]) && !ps[0].completed;
    assert IsUser(Some("anna"), ps[1]) && ps[1].completed;
  }

  predicate InPointsRange(range: (int, int), c: Challenge)
  {
    range.0 <= c.points <= range.1
  }

  predicate NotCompleted(ctx: (), c: Challenge)
  {
    !c.isCompleted
  }

  /**
   * The record loop of `getActiveChallenges`: it stops at the user's first
   * record and reports that the user takes part and whether that record is
   * completed.
   */
  method FindUserRecord(ps: seq<ChallengeParticipation>, username: Option<string>) returns (participating: bool, userCompleted: bool)
    ensures participating <==> FirstMatchIndex(ps, username).Some?
    ensures participating ==> userCompleted == ps[FirstMatchIndex(ps, username).value].completed
    ensures !participating ==> !userCompleted
  {
    participating, userCompleted := false, false;
    var j := 0;
    while j < |ps|
      invariant 0 <= j <= |ps|
      invariant forall k :: 0 <= k < j ==> !IsUser(username, ps[k])
    {
      if IsUser(username, ps[j]) {
        assert FirstMatchIndex(ps, username) == Some(j);
        participating, userCompleted := true, ps[j].completed;
        return;
      }
      j := j + 1;
    }
  }

  /** The record loop of `checkCompleted` and `getCompletedChallenges`: is some record of the user completed? */
  method FindCompletedRecord(ps: seq<ChallengeParticipation>, username: Option<string>) returns (found: bool)
    ensures found <==> exists i :: 0 <= i < |ps| && IsUser(username, ps[i]) && ps[i].completed
  {
    var j := 0;
    while j < |ps|
      invariant 0 <= j <= |ps|
      invariant forall k :: 0 <= k < j ==> !(IsUser(username, ps[k]) && ps[k].completed)
    {
      if IsUser(username, ps[j]) && ps[j].completed {
        return true;
      }
      j := j + 1;
    }
    return false;
  }

  class ChallengeViewModel {
    var challenges: seq<Challenge>
    var activeChallenges: seq<Challenge>
    var completedChallenges: seq<Challenge>
    var isLoading: bool
    var isLoadingActiveChallenges: bool
    var isLoadingCompletedChallenges: bool
    var error: Option<string>
    var completeSuccess: bool
    var completionStatus: map<int, bool>

    /** The default `ChallengesUiState` once `loadChallenges` has stored the catalogue `loaded`. */
    constructor (loaded: seq<Challenge>)
      ensures challenges == loaded && activeChallenges == [] && completedChallenges == []
      ensures !isLoading && !isLoadingActiveChallenges && !isLoadingCompletedChallenges
      ensures error == None && !completeSuccess && completionStatus == map[]
    {
      challenges := loaded;
      activeChallenges := [];
      completedChallenges := [];
      isLoading := false;
      isLoadingActiveChallenges := false;
      isLoadingCompletedChallenges := false;
      error := None;
      completeSuccess := false;
      completionStatus := map[];
    }

    /** `filterChallengesByPoints`: exactly the challenges rewarding `minPoints..maxPoints`, cheapest first. */
    function FilterChallengesByPoints(minPoints: int, maxPoints: int): (r: seq<Challenge>)
      reads this
      ensures forall c :: c in r <==> c in challenges && minPoints <= c.points <= maxPoints
      ensures SortedByKey(r, ChallengePoints)
      ensures multiset(r) == multiset(Filter(challenges, (minPoints, maxPoints), InPointsRange))
      ensures minPoints > maxPoints ==> r == []
    {
      var f := Filter(challenges, (minPoints, maxPoints), InPointsRange);
      SortByKeySameMembers(f, ChallengePoints);
      assert minPoints > maxPoints ==> f == [] by {
        if minPoints > maxPoints {
          FilterNothingPasses(challenges, (minPoints, maxPoints), InPointsRange);
        }
      }
      SortByKey(f, ChallengePoints)
    }

    /** `getIncompleteChallenges`: the challenges not flagged completed, in catalogue order. */
    function GetIncompleteChallenges(): (r: seq<Challenge>)
      reads this
      ensures forall c :: c in r <==> c in challenges && !c.isCompleted
      ensures forall c :: multiset(r)[c] == if c.isCompleted then 0 else multiset(challenges)[c]
      ensures IsSubsequence(r, challenges)
    {
      FilterIsSubsequence(challenges, (), NotCompleted);
      FilterCounts(challenges, (), NotCompleted);
      Filter(challenges, (), NotCompleted)
    }

    /** `isChallengeCompleted`: the cached flag, false for a challenge never checked. */
    function IsChallengeCompleted(challengeId: int): (completed: bool)
      reads this
      ensures challengeId !in completionStatus ==> !completed
      ensures challengeId in completionStatus ==> completed == completionStatus[challengeId]
    {
      if challengeId in completionStatus then completionStatus[challengeId] else false
    }

    /** `updateChallengeCompletionStatus`: sets one entry of the map and leaves every other key alone. */
    method UpdateChallengeCompletionStatus(challengeId: int, isCompleted: bool)
      modifies this
      ensures completionStatus == old(completionStatus)[challengeId := isCompleted]
      ensures IsChallengeCompleted(challengeId) == isCompleted
      ensures forall k :: k != challengeId ==>
        (k in completionStatus <==> k in old(completionStatus)) && IsChallengeCompleted(k) == old(IsChallengeCompleted(k))
      ensures challenges == old(challenges) && activeChallenges == old(activeChallenges)
      ensures completedChallenges == old(completedChallenges) && isLoading == old(isLoading)
      ensures isLoadingActiveChallenges == old(isLoadingActiveChallenges)
      ensures isLoadingCompletedChallenges == old(isLoadingCompletedChallenges)
      ensures error == old(error) && completeSuccess == old(completeSuccess)
    {
      completionStatus := completionStatus[challengeId := isCompleted];
    }

    /**
     * `checkCompleted`, returning what it passes to the callback: a challenge
     * flagged completed is true and recorded; otherwise a cached entry is
     * answered as is; otherwise the participant scan decides and is recorded
     * (a failed fetch records false).
     */
    method CheckCompleted(challenge: Challenge, username: Option<string>, fetch: ParticipantsFetch) returns (completed: bool)
      modifies this
      ensures challenge.isCompleted ==>
        completed && completionStatus == old(completionStatus)[challenge.id := true]
      ensures !challenge.isCompleted && challenge.id in old(completionStatus) ==>
        completed == old(completionStatus)[challenge.id] && completionStatus == old(completionStatus)
      ensures !challenge.isCompleted && challenge.id !in old(completionStatus) ==>
        completed == IsCompletedBy(username, fetch) && completionStatus == old(completionStatus)[challenge.id := completed]
      ensures challenge.id in completionStatus && completionStatus[challenge.id] == completed
      ensures challenges == old(challenges) && activeChallenges == old(activeChallenges)
      ensures completedChallenges == old(completedChallenges) && isLoading == old(isLoading)
      ensures isLoadingActiveChallenges == old(isLoadingActiveChallenges)
      ensures isLoadingCompletedChallenges == old(isLoadingCompletedChallenges)
      ensures error == old(error) && completeSuccess == old(completeSuccess)
    {
      if challenge.isCompleted {
        UpdateChallengeCompletionStatus(challenge.id, true);
        return true;
      }
      if challenge.id in completionStatus {
        return completionStatus[challenge.id];
      }
      match fetch
      case FetchFailed =>
        UpdateChallengeCompletionStatus(challenge.id, false);
        completed := false;
      case Fetched(participants) =>
        var isCompleted := false;
        if participants.Some? && |participants.value| > 0 {
          isCompleted := FindCompletedRecord(participants.value, username);
        }
        UpdateChallengeCompletionStatus(challenge.id, isCompleted);
        completed := isCompleted;
    }

    /** The opening update of `loadChallenges`; the fetch that follows is not part of this model. */
    method BeginLoadChallenges()
      modifies this
      ensures isLoading && error == None && !completeSuccess
      ensures challenges == old(challenges) && activeChallenges == old(activeChallenges)
      ensures completedChallenges == old(completedChallenges) && completionStatus == old(completionStatus)
      ensures isLoadingActiveChallenges == old(isLoadingActiveChallenges)
      ensures isLoadingCompletedChallenges == old(isLoadingCompletedChallenges)
    {
      isLoading, error, completeSuccess := true, None, false;
    }

    /** The three error branches of `completeChallenge`: the error names the kind of failure and loading stops. */
    method FailCompletion(response: Response<()>)
      requires !response.Success?
      modifies this
      ensures !isLoading && completeSuccess == old(completeSuccess)
      ensures response.HttpError? ==> error == Some("Errore nel completamento della sfida: " + response.message)
      ensures response.NetworkError? ==> error == Some("Errore di rete nel completamento della sfida: " + response.message)
      ensures response.UnexpectedError? ==> error == Some("Errore imprevisto nel completamento della sfida: " + response.message)
      ensures challenges == old(challenges) && activeChallenges == old(activeChallenges)
      ensures completedChallenges == old(completedChallenges) && completionStatus == old(completionStatus)
      ensures isLoadingActiveChallenges == old(isLoadingActiveChallenges)
      ensures isLoadingCompletedChallenges == old(isLoadingCompletedChallenges)
    {
      match response {
        case HttpError(message) =>
          error, isLoading := Some("Errore nel completamento della sfida: " + message), false;
        case NetworkError(message) =>
          error, isLoading := Some("Errore di rete nel completamento della sfida: " + message), false;
        case UnexpectedError(message) =>
          error, isLoading := Some("Errore imprevisto nel completamento della sfida: " + message), false;
      }
    }

    /**
     * `completeChallenge`; the outcome of the complete request is the
     * parameter. On success the completion is recorded and `completeSuccess`
     * raised, then `loadChallenges()` is launched: on the main dispatcher it
     * starts at once and its opening update lowers `completeSuccess` again
     * and shows loading before this coroutine ends.
     */
    method CompleteChallenge(challengeId: int, response: Response<()>)
      modifies this
      ensures response.Success? ==>
        && completionStatus == old(completionStatus)[challengeId := true]
        && isLoading && !completeSuccess && error == None
      ensures !response.Success? ==> completionStatus == old(completionStatus) && !completeSuccess && !isLoading
      ensures response.HttpError? ==> error == Some("Errore nel completamento della sfida: " + response.message)
      ensures response.NetworkError? ==> error == Some("Errore di rete nel completamento della sfida: " + response.message)
      ensures response.UnexpectedError? ==> error == Some("Errore imprevisto nel completamento della sfida: " + response.message)
      ensures challenges == old(challenges) && activeChallenges == old(activeChallenges)
      ensures completedChallenges == old(completedChallenges)
      ensures isLoadingActiveChallenges == old(isLoadingActiveChallenges)
      ensures isLoadingCompletedChallenges == old(isLoadingCompletedChallenges)
    {
      isLoading, error, completeSuccess := true, None, false;
      if response.Success? {
        UpdateChallengeCompletionStatus(challengeId, true);
        completeSuccess, isLoading := true, false;
        BeginLoadChallenges();
      } else {
        FailCompletion(response);
      }
    }

    /**
     * `completeChallenge` with the reload launched before the success flag
     * is raised: the reload's opening update comes first, so the completed
     * state the screen waits for is what remains.
     */
    method CompleteChallengeReloadFirst(challengeId: int, response: Response<()>)
      modifies this
      ensures response.Success? ==>
        && completionStatus == old(completionStatus)[challengeId := true]
        && !isLoading && completeSuccess && error == None
      ensures !response.Success? ==> completionStatus == old(completionStatus) && !completeSuccess && !isLoading
      ensures response.HttpError? ==> error == Some("Errore nel completamento della sfida: " + response.message)
      ensures response.NetworkError? ==> error == Some("Errore di rete nel completamento della sfida: " + response.message)
      ensures response.UnexpectedError? ==> error == Some("Errore imprevisto nel completamento della sfida: " + response.message)
      ensures challenges == old(challenges) && activeChallenges == old(activeChallenges)
      ensures completedChallenges == old(completedChallenges)
      ensures isLoadingActiveChallenges == old(isLoadingActiveChallenges)
      ensures isLoadingCompletedChallenges == old(isLoadingCompletedChallenges)
    {
      isLoading, error, completeSuccess := true, None, false;
      if response.Success? {
        UpdateChallengeCompletionStatus(challengeId, true);
        BeginLoadChallenges();
        completeSuccess, isLoading := true, false;
      } else {
        FailCompletion(response);
      }
    }

    /**
     * One iteration of `getActiveChallenges`: the user's first record, if
     * any, is cached, and the result says whether the challenge is active.
     */
    method ClassifyActive(c: Challenge, username: Option<string>, fetch: ParticipantsFetch) returns (active: bool)
      modifies this
      ensures active == IsActive(username, fetch)
      ensures completionStatus == RecordFirstMatch(old(completionStatus), c, username, fetch)
      ensures challenges == old(challenges) && activeChallenges == old(activeChallenges)
      ensures completedChallenges == old(completedChallenges) && isLoading == old(isLoading)
      ensures isLoadingActiveChallenges == old(isLoadingActiveChallenges)
      ensures isLoadingCompletedChallenges == old(isLoadingCompletedChallenges)
      ensures error == old(error) && completeSuccess == old(completeSuccess)
    {
      IsActiveByFirstMatch(username, fetch);
      active := false;
      match fetch {
        case FetchFailed =>
        case Fetched(participants) =>
          var isUserParticipating := false;
          var isUserCompleted := false;
          if participants.Some? && |participants.value| > 0 {
            isUserParticipating, isUserCompleted := FindUserRecord(participants.value, username);
            if isUserParticipating {
              UpdateChallengeCompletionStatus(c.id, isUserCompleted);
            }
          }
          active := (isUserParticipating && !isUserCompleted) || participants.None? || |participants.value| == 0;
      }
    }

    /**
     * One iteration of `getCompletedChallenges`: a completed record of the
     * user is cached as true, and the result says whether there was one.
     */
    method ClassifyCompleted(c: Challenge, username: Option<string>, fetch: ParticipantsFetch) returns (found: bool)
      modifies this
      ensures found == IsCompletedBy(username, fetch)
      ensures completionStatus == RecordCompleted(old(completionStatus), c, username, fetch)
      ensures challenges == old(challenges) && activeChallenges == old(activeChallenges)
      ensures completedChallenges == old(completedChallenges) && isLoading == old(isLoading)
      ensures isLoadingActiveChallenges == old(isLoadingActiveChallenges)
      ensures isLoadingCompletedChallenges == old(isLoadingCompletedChallenges)
      ensures error == old(error) && completeSuccess == old(completeSuccess)
    {
      found := false;
      match fetch {
        case FetchFailed =>
        case Fetched(participants) =>
          if participants.Some? && |participants.value| > 0 {
            found := FindCompletedRecord(participants.value, username);
            if found {
              UpdateChallengeCompletionStatus(c.id, true);
            }
          }
      }
    }

    /**
     * `getActiveChallenges`: one participant fetch per catalogue challenge;
     * the user's first record, when there is one, is cached, and the
     * challenge is kept when that record is not completed or the list is
     * null or empty.
     */
    method GetActiveChallenges(username: Option<string>, fetches: seq<ParticipantsFetch>)
      requires |fetches| == |challenges|
      modifies this
      ensures activeChallenges == Selected(old(challenges), fetches, username, IsActive)
      ensures completionStatus == ScanStatus(old(completionStatus), old(challenges), fetches, username, RecordFirstMatch)
      ensures !isLoadingActiveChallenges
      ensures challenges == old(challenges) && completedChallenges == old(completedChallenges)
      ensures isLoading == old(isLoading) && isLoadingCompletedChallenges == old(isLoadingCompletedChallenges)
      ensures error == old(error) && completeSuccess == old(completeSuccess)
    {
      isLoadingActiveChallenges := true;
      var cs := challenges;
      var active: seq<Challenge> := [];
      var i := 0;
      while i < |cs|
        invariant 0 <= i <= |cs| && challenges == cs
        invariant active == Selected(cs[..i], fetches[..i], username, IsActive)
        invariant completionStatus == ScanStatus(old(completionStatus), cs[..i], fetches[..i], username, RecordFirstMatch)
        invariant completedChallenges == old(completedChallenges)
        invariant isLoading == old(isLoading) && isLoadingCompletedChallenges == old(isLoadingCompletedChallenges)
        invariant error == old(error) && completeSuccess == old(completeSuccess)
      {
        SelectedStep(cs, fetches, username, IsActive, i);
        ScanStatusStep(old(completionStatus), cs, fetches, username, RecordFirstMatch, i);
        var isActive := ClassifyActive(cs[i], username, fetches[i]);
        if isActive {
          active := active + [cs[i]];
        }
        i := i + 1;
      }
      assert cs[..|cs|] == cs && fetches[..|cs|] == fetches;
      activeChallenges, isLoadingActiveChallenges := active, false;
    }

    /**
     * `getCompletedChallenges`: one participant fetch per catalogue
     * challenge; a challenge with a completed record of the user is kept
     * and cached as completed.
     */
    method GetCompletedChallenges(username: Option<string>, fetches: seq<ParticipantsFetch>)
      requires |fetches| == |challenges|
      modifies this
      ensures completedChallenges == Selected(old(challenges), fetches, username, IsCompletedBy)
      ensures completionStatus == ScanStatus(old(completionStatus), old(challenges), fetches, username, RecordCompleted)
      ensures !isLoadingCompletedChallenges
      ensures challenges == old(challenges) && activeChallenges == old(activeChallenges)
      ensures isLoading == old(isLoading) && isLoadingActiveChallenges == old(isLoadingActiveChallenges)
      ensures error == old(error) && completeSuccess == old(completeSuccess)
    {
      isLoadingCompletedChallenges := true;
      var cs := challenges;
      var completed: seq<Challenge> := [];
      var i := 0;
      while i < |cs|
        invariant 0 <= i <= |cs| && challenges == cs
        invariant completed == Selected(cs[..i], fetches[..i], username, IsCompletedBy)
        invariant completionStatus == ScanStatus(old(completionStatus), cs[..i], fetches[..i], username, RecordCompleted)
        invariant activeChallenges == old(activeChallenges)
        invariant isLoading == old(isLoading) && isLoadingActiveChallenges == old(isLoadingActiveChallenges)
        invariant error == old(error) && completeSuccess == old(completeSuccess)
      {
        SelectedStep(cs, fetches, username, IsCompletedBy, i);
        ScanStatusStep(old(completionStatus), cs, fetches, username, RecordCompleted, i);
        var found := ClassifyCompleted(cs[i], username, fetches[i]);
        if found {
          completed := completed + [cs[i]];
        }
        i := i + 1;
      }
      assert cs[..|cs|] == cs && fetches[..|cs|] == fetches;
      completedChallenges, isLoadingCompletedChallenges := completed, false;
    }
  }

  /** The active list holds exactly the catalogue challenges whose fetch makes them active, in catalogue order. */
  lemma ActiveChallengesCharacterised(cs: seq<Challenge>, fs: seq<ParticipantsFetch>, username: Option<string>)
    requires |cs| == |fs|
    ensures forall c :: c in Selected(cs, fs, username, IsActive) <==>
      exists i :: 0 <= i < |cs| && cs[i] == c && IsActive(username, fs[i])
    ensures IsSubsequence(Selected(cs, fs, username, IsActive), cs)
  {
    SelectedMembers(cs, fs, username, IsActive);
    SelectedIsSubsequence(cs, fs, username, IsActive);
  }

  /** The completed list holds exactly the catalogue challenges with a completed record, in catalogue order. */
  lemma CompletedChallengesCharacterised(cs: seq<Challenge>, fs: seq<ParticipantsFetch>, username: Option<string>)
    requires |cs| == |fs|
    ensures forall c :: c in Selected(cs, fs, username, IsCompletedBy) <==>
      exists i :: 0 <= i < |cs| && cs[i] == c && IsCompletedBy(username, fs[i])
    ensures IsSubsequence(Selected(cs, fs, username, IsCompletedBy), cs)
  {
    SelectedMembers(cs, fs, username, IsCompletedBy);
    SelectedIsSubsequence(cs, fs, username, IsCompletedBy);
  }

  /** A catalogue without repeated challenges, each with one record per user: the two lists are disjoint. */
  lemma ActiveAndCompletedDisjoint(cs: seq<Challenge>, fs: seq<ParticipantsFetch>, username: Option<string>)
    requires |cs| == |fs| && NoDuplicates(cs)
    requires forall i :: 0 <= i < |fs| ==> OneRecordPerUser(username, fs[i])
    ensures forall c :: !(c in Selected(cs, fs, username, IsActive) && c in Selected(cs, fs, username, IsCompletedBy))
  {
    ActiveChallengesCharacterised(cs, fs, username);
    CompletedChallengesCharacterised(cs, fs, username);
    forall c | c in Selected(cs, fs, username, IsActive) && c in Selected(cs, fs, username, IsCompletedBy)
      ensures false
    {
      var i :| 0 <= i < |cs| && cs[i] == c && IsActive(username, fs[i]);
      var j :| 0 <= j < |cs| && cs[j] == c && IsCompletedBy(username, fs[j]);
      assert i == j;
      ActiveExcludesCompleted(username, fs[i]);
    }
  }

  /** `sortedBy` is stable: challenges rewarding the same points keep their catalogue order. */
  lemma FilterChallengesKeepCatalogueOrderOnTies(vm: ChallengeViewModel, minPoints: int, maxPoints: int, k: int)
    ensures WithKey(vm.FilterChallengesByPoints(minPoints, maxPoints), ChallengePoints, k)
         == WithKey(Filter(vm.challenges, (minPoints, maxPoints), InPointsRange), ChallengePoints, k)
  {
    SortByKeyStable(Filter(vm.challenges, (minPoints, maxPoints), InPointsRange), ChallengePoints, k);
  }

  /** A successful completion as written: when the coroutine ends, the success flag the screen waits for is down again. */
  method CompletionSignalLost() returns (signalled: bool, stored: bool)
    ensures !signalled && stored
  {
    var vm := new ChallengeViewModel([]);
    vm.CompleteChallenge(1, Success(Some(())));
    signalled, stored := vm.completeSuccess, vm.IsChallengeCompleted(1);
  }

  /** The same completion with the reload launched first: the flag stays up. */
  method CompletionSignalKept() returns (signalled: bool, stored: bool)
    ensures signalled && stored
  {
    var vm := new ChallengeViewModel([]);
    vm.CompleteChallengeReloadFirst(1, Success(Some(())));
    signalled, stored := vm.completeSuccess, vm.IsChallengeCompleted(1);
  }
}
