/** The challenges page of the routed frontend: a catalog of challenges, the user's
    started challenges, the one currently active, and a status message, all kept in
    component state (and mirrored to browser storage, which is not modelled). */
module ChallengeTracker {
  import opened Wrappers
  import opened Seqs

  datatype Status = Active | Completed

  datatype CatalogChallenge = CatalogChallenge(id: int, title: string, description: string,
                                               icon: string, duration: int, participants: int)

  /** A started challenge: the catalog fields spread into a new record with the
      tracking fields beside them; timestamps are milliseconds. */
  datatype UserChallenge = UserChallenge(challenge: CatalogChallenge, status: Status, progress: int,
                                         daysRemaining: int, startedAt: int, completedAt: Option<int>)
  {
    function Id(): int { challenge.id }
  }

  const StartedMessage: string := "Challenge started successfully!"
  const StartFailedMessage: string := "Error starting challenge. Please try again."
  const CompletedMessage: string := "Challenge completed successfully!"
  const RemovedMessage: string := "Challenge removed successfully!"

  /** Completing a challenge sets its progress to this percentage. */
  const FullProgress: int := 100

  /** The catalog used when none is stored. */
  const MockCatalog: seq<CatalogChallenge> := [
    CatalogChallenge(1, "Daily Meditation", "Meditate for 10 minutes each day for a week", "\U{1F9D8}", 7, 235),
    CatalogChallenge(2, "Step Challenge", "Walk 10,000 steps daily for two weeks", "\U{1F45F}", 14, 187),
    CatalogChallenge(3, "Gratitude Journal", "Write down three things you're grateful for each day", "\U{1F4D4}", 21, 312),
    CatalogChallenge(4, "Hydration Challenge", "Drink 8 glasses of water daily for a week", "\U{1F4A7}", 7, 175)
  ]

  /** `challenges.find(c => c.id === challengeId)`: the first catalog entry with the id. */
  function Find(catalog: seq<CatalogChallenge>, id: int): (r: Option<CatalogChallenge>)
    ensures r.None? <==> forall c :: c in catalog ==> c.id != id
    ensures r.Some? ==> exists k :: 0 <= k < |catalog| && catalog[k] == r.value && r.value.id == id
                                     && forall j :: 0 <= j < k ==> catalog[j].id != id
  {
    if catalog == [] then None
    else if catalog[0].id == id then Some(catalog[0])
    else
      var r := Find(catalog[1..], id);
      if r.Some? then
        var k :| 0 <= k < |catalog[1..]| && catalog[1..][k] == r.value && r.value.id == id
                 && forall j :: 0 <= j < k ==> catalog[1..][j].id != id;
        assert catalog[k + 1] == r.value;
        r
      else r
  }

  /** The record `handleStartChallenge` builds from a catalog entry. */
  function Started(c: CatalogChallenge, now: int): (uc: UserChallenge)
    ensures uc.challenge == c && uc.Id() == c.id
    ensures uc.status == Active && uc.progress == 0 && uc.daysRemaining == c.duration
    ensures uc.startedAt == now && uc.completedAt.None?
  {
    UserChallenge(c, Active, 0, c.duration, now, None)
  }

  /** The `map` of `handleCompleteChallenge`. */
  function CompleteAll(ucs: seq<UserChallenge>, id: int, now: int): (r: seq<UserChallenge>)
    ensures |r| == |ucs|
    ensures forall i :: 0 <= i < |ucs| ==> r[i].Id() == ucs[i].Id()
    ensures forall i :: 0 <= i < |ucs| && ucs[i].Id() == id ==> r[i].status == Completed && r[i].completedAt == Some(now)
  {
    seq(|ucs|, i requires 0 <= i < |ucs| =>
      if ucs[i].Id() == id then ucs[i].(status := Completed, progress := FullProgress, completedAt := Some(now))
      else ucs[i])
  }

  /** The `filter` of `handleRemoveChallenge`: drop every entry with the id. */
  function RemoveAll(ucs: seq<UserChallenge>, id: int): (r: seq<UserChallenge>)
    ensures forall uc :: uc in r <==> uc in ucs && uc.Id() != id
    ensures IsSubsequence(r, ucs)
    ensures forall uc :: multiset(r)[uc] == if uc.Id() != id then multiset(ucs)[uc] else 0
  {
    if ucs == [] then []
    else
      assert ucs == [ucs[0]] + ucs[1..];
      if ucs[0].Id() != id then [ucs[0]] + RemoveAll(ucs[1..], id)
      else RemoveAll(ucs[1..], id)
  }

  /** `isChallengeJoined`: some started challenge has the id. */
  function IsChallengeJoined(ucs: seq<UserChallenge>, id: int): (joined: bool)
    ensures joined <==> JoinCount(ucs, id) > 0
  {
    JoinCountPositive(ucs, id);
    exists uc :: uc in ucs && uc.Id() == id
  }

  lemma {:induction false} JoinCountPositive(ucs: seq<UserChallenge>, id: int)
    ensures JoinCount(ucs, id) > 0 <==> exists uc :: uc in ucs && uc.Id() == id
  {
    if ucs != [] {
      JoinCountPositive(ucs[1..], id);
      assert ucs == [ucs[0]] + ucs[1..];
    }
  }

  /** The "Completed Challenges" section. */
  function CompletedChallenges(ucs: seq<UserChallenge>): (r: seq<UserChallenge>)
    ensures forall uc :: uc in r <==> uc in ucs && uc.status == Completed
    ensures IsSubsequence(r, ucs)
    ensures forall uc :: multiset(r)[uc] == if uc.status == Completed then multiset(ucs)[uc] else 0
  {
    if ucs == [] then []
    else
      assert ucs == [ucs[0]] + ucs[1..];
      if ucs[0].status == Completed then [ucs[0]] + CompletedChallenges(ucs[1..])
      else CompletedChallenges(ucs[1..])
  }

  /** How many started challenges carry the id. */
  function JoinCount(ucs: seq<UserChallenge>, id: int): nat {
    if ucs == [] then 0 else (if ucs[0].Id() == id then 1 else 0) + JoinCount(ucs[1..], id)
  }

  predicate IdsDistinct(ucs: seq<UserChallenge>) {
    forall i, j :: 0 <= i < j < |ucs| ==> ucs[i].Id() != ucs[j].Id()
  }

  /** Completing keeps the length; every entry with the id becomes 'completed' with
      progress 100 (its other fields kept), and every other entry is unchanged. */
  lemma CompleteAllChangesOnlyTheId(ucs: seq<UserChallenge>, id: int, now: int)
    ensures |CompleteAll(ucs, id, now)| == |ucs|
    ensures forall i :: 0 <= i < |ucs| && ucs[i].Id() != id ==> CompleteAll(ucs, id, now)[i] == ucs[i]
    ensures forall i :: 0 <= i < |ucs| && ucs[i].Id() == id ==>
              var uc := CompleteAll(ucs, id, now)[i];
              && uc.status == Completed && uc.progress == FullProgress
              && uc.challenge == ucs[i].challenge && uc.startedAt == ucs[i].startedAt
              && uc.daysRemaining == ucs[i].daysRemaining
  {
  }

  /** After completing an id, each of its entries is listed under "Completed Challenges"
      and the set of joined ids is the same. */
  lemma CompletedAreListed(ucs: seq<UserChallenge>, id: int, now: int)
    ensures forall uc :: uc in CompletedChallenges(CompleteAll(ucs, id, now)) <==>
              uc in CompleteAll(ucs, id, now) && (uc.Id() == id || uc.status == Completed)
    ensures forall k :: IsChallengeJoined(CompleteAll(ucs, id, now), k) <==> IsChallengeJoined(ucs, k)
  {
    var done := CompleteAll(ucs, id, now);
    forall k | IsChallengeJoined(ucs, k) ensures IsChallengeJoined(done, k) {
      var uc :| uc in ucs && uc.Id() == k;
      var i :| 0 <= i < |ucs| && ucs[i] == uc;
      assert done[i].Id() == k;
    }
  }

  /** Starting appends one entry, so the id is joined afterwards; the handler does not
      look for an earlier entry, so a second start of a joined id adds a second one. */
  lemma {:induction false} StartAppends(ucs: seq<UserChallenge>, c: CatalogChallenge, now: int)
    ensures IsChallengeJoined(ucs + [Started(c, now)], c.id)
    ensures JoinCount(ucs + [Started(c, now)], c.id) == JoinCount(ucs, c.id) + 1
  {
    assert Started(c, now) in ucs + [Started(c, now)];
    if ucs != [] {
      assert (ucs + [Started(c, now)])[1..] == ucs[1..] + [Started(c, now)];
      StartAppends(ucs[1..], c, now);
    }
  }

  /** After removing an id it is no longer joined, and no other id's entries are lost. */
  lemma RemoveUnjoins(ucs: seq<UserChallenge>, id: int)
    ensures !IsChallengeJoined(RemoveAll(ucs, id), id)
    ensures forall k :: k != id ==> (IsChallengeJoined(RemoveAll(ucs, id), k) <==> IsChallengeJoined(ucs, k))
  {
  }

  class ChallengeTracker {
    var challenges: seq<CatalogChallenge>
    var userChallenges: seq<UserChallenge>
    var activeChallenge: Option<UserChallenge>
    var message: string

    constructor ()
      ensures challenges == [] && userChallenges == [] && activeChallenge == None && message == ""
    {
      challenges := [];
      userChallenges := [];
      activeChallenge := None;
      message := "";
    }

    /** The loading effect: with no catalog yet, the mock catalog is used. */
    method LoadCatalog()
      modifies this
      ensures challenges == if old(challenges) == [] then MockCatalog else old(challenges)
      ensures userChallenges == old(userChallenges) && activeChallenge == old(activeChallenge)
      ensures message == old(message)
    {
      if challenges == [] {
        challenges := MockCatalog;
      }
    }

    /** The Start button is offered for a challenge that is not joined (a joined one
        shows Remove instead) and is disabled while a challenge is active. */
    predicate StartEnabled(id: int)
      reads this
    {
      !IsChallengeJoined(userChallenges, id) && activeChallenge.None?
    }

    /** `handleStartChallenge`. An id missing from the catalog only sets the error
        message; otherwise the new entry is appended and becomes the active challenge. */
    method HandleStartChallenge(challengeId: int, now: int)
      modifies this
      ensures challenges == old(challenges)
      ensures Find(challenges, challengeId).None? ==>
                && userChallenges == old(userChallenges) && activeChallenge == old(activeChallenge)
                && message == StartFailedMessage
      ensures Find(challenges, challengeId).Some? ==>
                var entry := Started(Find(challenges, challengeId).value, now);
                && userChallenges == old(userChallenges) + [entry]
                && activeChallenge == Some(entry)
                && message == StartedMessage
    {
      var found := Find(challenges, challengeId);
      if found.None? {
        message := StartFailedMessage;
      } else {
        var entry := Started(found.value, now);
        userChallenges := userChallenges + [entry];
        activeChallenge := Some(entry);
        message := StartedMessage;
      }
    }

    /** `handleCompleteChallenge`. */
    method HandleCompleteChallenge(challengeId: int, now: int)
      modifies this
      ensures challenges == old(challenges)
      ensures userChallenges == CompleteAll(old(userChallenges), challengeId, now)
      ensures activeChallenge == None && message == CompletedMessage
    {
      userChallenges := CompleteAll(userChallenges, challengeId, now);
      activeChallenge := None;
      message := CompletedMessage;
    }

    /** `handleRemoveChallenge`: the active challenge is cleared only when it has the id. */
    method HandleRemoveChallenge(challengeId: int)
      modifies this
      ensures challenges == old(challenges)
      ensures userChallenges == RemoveAll(old(userChallenges), challengeId)
      ensures activeChallenge ==
                if old(activeChallenge).Some? && old(activeChallenge).value.Id() == challengeId then None
                else old(activeChallenge)
      ensures message == RemovedMessage
    {
      userChallenges := RemoveAll(userChallenges, challengeId);
      if activeChallenge.Some? && activeChallenge.value.Id() == challengeId {
        activeChallenge := None;
      }
      message := RemovedMessage;
    }

    /** `clearLocalStorage`. */
    method ClearLocalStorage()
      modifies this
      ensures challenges == [] && userChallenges == [] && activeChallenge == None
      ensures message == old(message)
    {
      challenges := [];
      userChallenges := [];
      activeChallenge := None;
    }
  }

  /** Starts made only through an enabled Start button never give two entries the same
      id: the guard's "not joined" half is what keeps the ids distinct. */
  lemma GuardedStartKeepsIdsDistinct(ucs: seq<UserChallenge>, c: CatalogChallenge, now: int)
    requires IdsDistinct(ucs) && !IsChallengeJoined(ucs, c.id)
    ensures IdsDistinct(ucs + [Started(c, now)])
  {
    var after := ucs + [Started(c, now)];
    forall i, j | 0 <= i < j < |after| ensures after[i].Id() != after[j].Id() {
      if j == |ucs| {
        assert after[i] in ucs;
      }
    }
  }
}
