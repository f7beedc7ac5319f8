/** The challenge routes of the backend: the catalog listing, the caller's active
    memberships, joining a challenge and setting its progress. The
    `user_challenges` table is a field of `MembershipStore`; the authenticated
    user's id is an explicit argument, and clock readings are parameters. */
module ChallengeStore {
  import opened Wrappers
  import opened Schema

  import opened Clock

  /** A membership's end date is always this many days after joining. */
  const JoinWindowDays: int := 7

  const NotFoundMessage: string := "Challenge not found"

  /** The constraint a second join of the same pair runs into. */
  const MembershipKey: string := "user_challenges_user_id_challenge_id_key"

  /** `POST /join/:challengeId`: 201 with the inserted row, or 500 with the database error. */
  datatype JoinResponse = Created(row: Membership) | JoinFailed(error: Violation)

  /** `PUT /progress/:challengeId`: 200 with the updated row, 404 with
      `NotFoundMessage`, or 500 when the progress does not fit the INTEGER column. */
  datatype ProgressResponse = Updated(row: Membership) | NotFound | ProgressOutOfRange

  /** The range of PostgreSQL's INTEGER type, which `progress` and the `$1` it is bound
      to have. */
  predicate IsInt32(x: int) {
    -0x8000_0000 <= x < 0x8000_0000
  }

  /** A row of `GET /active`: the challenge's columns with the membership's progress,
      status and dates. */
  datatype ActiveChallenge = ActiveChallenge(challenge: Challenge, progress: int, status: Status,
                                             startDate: int, endDate: int)

  /** The status CASE of the progress UPDATE. A missing challenge makes the subquery
      NULL, the comparison NULL, and the CASE falls through to ELSE. */
  function DeriveStatus(progress: int, totalDays: Option<int>): (s: Status)
    ensures totalDays.None? ==> s == Active
    ensures totalDays.Some? ==> (s == Completed <==> progress >= totalDays.value)
  {
    if totalDays.Some? && progress >= totalDays.value then Completed else Active
  }

  /** With total_days = n: n - 1 is active, n and n + 1 are completed, and the status
      follows progress in both directions, so lowering progress re-activates. */
  lemma StatusIsThreshold(progress: int, n: int)
    ensures DeriveStatus(n - 1, Some(n)) == Active
    ensures DeriveStatus(n, Some(n)) == Completed
    ensures DeriveStatus(n + 1, Some(n)) == Completed
    ensures DeriveStatus(progress, Some(n)) == Completed <==> progress >= n
  {
  }

  /** `challenges.id` is the primary key. */
  ghost predicate CatalogIdsUnique(catalog: seq<Challenge>) {
    forall i, j :: 0 <= i < j < |catalog| ==> catalog[i].id != catalog[j].id
  }

  /** The challenge with the given id, if the catalog has one. */
  function FindChallenge(catalog: seq<Challenge>, id: int): (r: Option<Challenge>)
    ensures r.Some? ==> r.value in catalog && r.value.id == id
    ensures r.None? ==> forall c :: c in catalog ==> c.id != id
  {
    if catalog == [] then None
    else if catalog[0].id == id then Some(catalog[0])
    else FindChallenge(catalog[1..], id)
  }

  /** `SELECT total_days FROM challenges WHERE id = $2` */
  function TotalDays(catalog: seq<Challenge>, id: int): Option<int> {
    match FindChallenge(catalog, id)
    case Some(c) => Some(c.totalDays)
    case None => None
  }

  /** The SET clause applied to one row. */
  function WithProgress(m: Membership, progress: int, totalDays: Option<int>): Membership {
    m.(progress := progress, status := DeriveStatus(progress, totalDays))
  }

  /** The table after `UPDATE ... WHERE user_id = $3 AND challenge_id = $2`. */
  function UpdateRows(rows: seq<Membership>, userId: int, challengeId: int, progress: int,
                      totalDays: Option<int>): (r: seq<Membership>)
    ensures |r| == |rows|
    ensures forall i :: 0 <= i < |rows| ==>
              r[i].id == rows[i].id && r[i].userId == rows[i].userId && r[i].challengeId == rows[i].challengeId
    ensures KeysUnique(rows) ==> KeysUnique(r)
  {
    seq(|rows|, i requires 0 <= i < |rows| =>
      if SameKey(rows[i], userId, challengeId) then WithProgress(rows[i], progress, totalDays) else rows[i])
  }

  /** The update writes the caller's absolute value, so repeating it changes nothing more. */
  lemma UpdateIdempotent(rows: seq<Membership>, userId: int, challengeId: int, progress: int,
                         totalDays: Option<int>)
    ensures UpdateRows(UpdateRows(rows, userId, challengeId, progress, totalDays), userId, challengeId, progress, totalDays)
            == UpdateRows(rows, userId, challengeId, progress, totalDays)
  {
  }

  /** Only the rows with the (user, challenge) key change, and they get exactly the new
      progress and the status derived from it; every other row, and the row count, stay. */
  lemma UpdateTouchesOnlyItsRow(rows: seq<Membership>, userId: int, challengeId: int, progress: int,
                                totalDays: Option<int>)
    ensures |UpdateRows(rows, userId, challengeId, progress, totalDays)| == |rows|
    ensures forall i :: 0 <= i < |rows| && !SameKey(rows[i], userId, challengeId) ==>
              UpdateRows(rows, userId, challengeId, progress, totalDays)[i] == rows[i]
    ensures forall i :: 0 <= i < |rows| && SameKey(rows[i], userId, challengeId) ==>
              var m := UpdateRows(rows, userId, challengeId, progress, totalDays)[i];
              && m.progress == progress
              && (m.status == Completed <==> totalDays.Some? && progress >= totalDays.value)
              && m.id == rows[i].id && m.startDate == rows[i].startDate && m.endDate == rows[i].endDate
  {
  }

  /** With no row for the key the UPDATE affects nothing. */
  lemma UpdateWithoutRow(rows: seq<Membership>, userId: int, challengeId: int, progress: int,
                         totalDays: Option<int>)
    requires KeyCount(rows, userId, challengeId) == 0
    ensures UpdateRows(rows, userId, challengeId, progress, totalDays) == rows
  {
    forall i | 0 <= i < |rows| ensures !SameKey(rows[i], userId, challengeId) {
      KeyCountZero(rows, userId, challengeId, i);
    }
  }

  lemma {:induction false} KeyCountZero(rows: seq<Membership>, userId: int, challengeId: int, i: int)
    requires KeyCount(rows, userId, challengeId) == 0 && 0 <= i < |rows|
    ensures !SameKey(rows[i], userId, challengeId)
  {
    if i > 0 {
      KeyCountZero(rows[1..], userId, challengeId, i - 1);
    }
  }

  /** A membership joined with its catalog challenge, as `GET /active` returns it. */
  function Joined(m: Membership, c: Challenge): ActiveChallenge {
    ActiveChallenge(c, m.progress, m.status, m.startDate, m.endDate)
  }

  predicate ListedActive(m: Membership, userId: int) {
    m.userId == userId && m.status == Active
  }

  /** The result of `GET /active` for the user: their active memberships, in table
      order, each joined with its challenge (the inner JOIN drops a row whose challenge
      is missing). */
  function ActiveView(rows: seq<Membership>, catalog: seq<Challenge>, userId: int): (view: seq<ActiveChallenge>)
    ensures |view| <= |rows|
    ensures forall e :: e in view ==>
              exists m :: m in rows && ListedActive(m, userId) && FindChallenge(catalog, m.challengeId) == Some(e.challenge)
                       && e == Joined(m, e.challenge)
    ensures forall m :: m in rows && ListedActive(m, userId) && FindChallenge(catalog, m.challengeId).Some? ==>
              Joined(m, FindChallenge(catalog, m.challengeId).value) in view
    decreases |rows|
  {
    if rows == [] then []
    else
      var init := rows[..|rows| - 1];
      var m := rows[|rows| - 1];
      assert forall x :: x in init ==> x in rows;
      assert forall x :: x in rows ==> x in init || x == m;
      var found := FindChallenge(catalog, m.challengeId);
      if ListedActive(m, userId) && found.Some? then ActiveView(init, catalog, userId) + [Joined(m, found.value)]
      else ActiveView(init, catalog, userId)
  }

  class MembershipStore {
    /** Ids of the rows of `users`. */
    var users: set<int>
    /** The `challenges` table. */
    var catalog: seq<Challenge>
    /** The `user_challenges` table, in insertion order. */
    var rows: seq<Membership>
    /** The next value of the SERIAL sequence behind `user_challenges.id`. */
    var nextId: int

    /** The constraints of `user_challenges` and `challenges`. */
    ghost predicate Valid()
      reads this
    {
      && CatalogIdsUnique(catalog)
      && KeysUnique(rows)
      && (forall i, j :: 0 <= i < j < |rows| ==> rows[i].id != rows[j].id)
      && (forall m :: m in rows ==>
            m.id < nextId && m.userId in users && FindChallenge(catalog, m.challengeId).Some? && IsInt32(m.progress))
    }

    constructor (users: set<int>, catalog: seq<Challenge>)
      requires CatalogIdsUnique(catalog)
      ensures Valid()
      ensures this.users == users && this.catalog == catalog && rows == [] && nextId == 1
    {
      this.users := users;
      this.catalog := catalog;
      rows := [];
      nextId := 1;
    }

    /** `GET /`: every challenge. */
    method ListChallenges() returns (cs: seq<Challenge>)
      ensures cs == catalog
    {
      cs := catalog;
    }

    /** The position of the row with the key, or |rows| when there is none. */
    method IndexOf(userId: int, challengeId: int) returns (k: nat)
      ensures k <= |rows|
      ensures k < |rows| ==> SameKey(rows[k], userId, challengeId)
      ensures k == |rows| <==> forall m :: m in rows ==> !SameKey(m, userId, challengeId)
    {
      k := 0;
      while k < |rows| && !SameKey(rows[k], userId, challengeId)
        invariant k <= |rows|
        invariant forall j :: 0 <= j < k ==> !SameKey(rows[j], userId, challengeId)
      {
        k := k + 1;
      }
    }

    /** `GET /active`: the user's active memberships joined with their challenges. */
    method ListActive(userId: int) returns (view: seq<ActiveChallenge>)
      ensures view == ActiveView(rows, catalog, userId)
    {
      view := [];
      var i := 0;
      while i < |rows|
        invariant i <= |rows|
        invariant view == ActiveView(rows[..i], catalog, userId)
      {
        assert rows[..i + 1][..i] == rows[..i];
        var m := rows[i];
        var found := FindChallenge(catalog, m.challengeId);
        if ListedActive(m, userId) && found.Some? {
          view := view + [Joined(m, found.value)];
        }
        i := i + 1;
      }
      assert rows[..i] == rows;
    }

    /** `POST /join/:challengeId`: insert a membership ending `JoinWindowDays` after
        `now` (the server's clock) and starting at `dbNow` (the database's
        CURRENT_TIMESTAMP). The UNIQUE index is checked first, then the foreign keys in
        declaration order. The SERIAL value is drawn even when the insert fails. */
    method Join(userId: int, challengeId: int, now: int, dbNow: int) returns (resp: JoinResponse)
      requires Valid()
      modifies this
      ensures Valid()
      ensures users == old(users) && catalog == old(catalog) && nextId == old(nextId) + 1
      ensures resp.Created? <==>
                KeyCount(old(rows), userId, challengeId) == 0 && userId in users
                && FindChallenge(catalog, challengeId).Some?
      ensures resp.Created? ==>
                && resp.row == NewMembership(old(nextId), userId, challengeId, now + JoinWindowDays * MillisPerDay, dbNow)
                && rows == old(rows) + [resp.row]
      ensures KeyCount(old(rows), userId, challengeId) > 0 ==> resp == JoinFailed(UniqueViolation(MembershipKey))
      ensures KeyCount(old(rows), userId, challengeId) == 0 && userId !in users ==>
                resp == JoinFailed(ForeignKeyViolation("user_challenges_user_id_fkey"))
      ensures resp.JoinFailed? ==> rows == old(rows)
      ensures resp.Created? || KeyCount(old(rows), userId, challengeId) > 0 ==> KeyCount(rows, userId, challengeId) == 1
    {
      var id := nextId;
      nextId := nextId + 1;
      var k := IndexOf(userId, challengeId);
      AtMostOneRowPerKey(rows, userId, challengeId);
      if k < |rows| {
        resp := JoinFailed(UniqueViolation(MembershipKey));
      } else if userId !in users {
        resp := JoinFailed(ForeignKeyViolation("user_challenges_user_id_fkey"));
      } else if FindChallenge(catalog, challengeId).None? {
        resp := JoinFailed(ForeignKeyViolation("user_challenges_challenge_id_fkey"));
      } else {
        var row := NewMembership(id, userId, challengeId, now + JoinWindowDays * MillisPerDay, dbNow);
        KeyCountAppend(rows, row, userId, challengeId);
        forall i | 0 <= i < |rows| ensures !SameKey(row, rows[i].userId, rows[i].challengeId) {
          assert rows[i] in rows;
        }
        rows := rows + [row];
        resp := Created(row);
      }
    }

    /** `PUT /progress/:challengeId`: set the membership's progress to the given
        absolute value and recompute its status, or answer 404 when the user has no
        membership in that challenge. A value outside the INTEGER range is refused by
        the database before any row is looked at, and the route answers 500. */
    method UpdateProgress(userId: int, challengeId: int, progress: int) returns (resp: ProgressResponse)
      requires Valid()
      modifies this
      ensures Valid()
      ensures users == old(users) && catalog == old(catalog) && nextId == old(nextId)
      ensures resp == ProgressOutOfRange <==> !IsInt32(progress)
      ensures resp == ProgressOutOfRange ==> rows == old(rows)
      ensures IsInt32(progress) ==> rows == UpdateRows(old(rows), userId, challengeId, progress, TotalDays(catalog, challengeId))
      ensures resp.NotFound? <==> IsInt32(progress) && KeyCount(old(rows), userId, challengeId) == 0
      ensures resp.NotFound? ==> rows == old(rows)
      ensures resp.Updated? ==>
                && resp.row in rows && SameKey(resp.row, userId, challengeId) && resp.row.progress == progress
                && exists c :: FindChallenge(catalog, challengeId) == Some(c)
                              && (resp.row.status == Completed <==> progress >= c.totalDays)
    {
      if !IsInt32(progress) {
        return ProgressOutOfRange;
      }
      var k := IndexOf(userId, challengeId);
      AtMostOneRowPerKey(rows, userId, challengeId);
      var total := TotalDays(catalog, challengeId);
      if k == |rows| {
        UpdateWithoutRow(rows, userId, challengeId, progress, total);
        resp := NotFound;
      } else {
        var row := WithProgress(rows[k], progress, total);
        assert rows[k] in rows;
        ghost var updated := UpdateRows(rows, userId, challengeId, progress, total);
        forall i | 0 <= i < |rows| ensures updated[i] == rows[k := row][i] {
          if i != k {
            assert !SameKey(rows[i], userId, challengeId);
          }
        }
        rows := rows[k := row];
        resp := Updated(row);
        assert rows[k] in rows;
      }
    }
  }

  lemma {:induction false} KeyCountAppend(rows: seq<Membership>, m: Membership, userId: int, challengeId: int)
    ensures KeyCount(rows + [m], userId, challengeId)
            == KeyCount(rows, userId, challengeId) + (if SameKey(m, userId, challengeId) then 1 else 0)
  {
    if rows != [] {
      assert (rows + [m])[1..] == rows[1..] + [m];
      KeyCountAppend(rows[1..], m, userId, challengeId);
    }
  }

  /** The concrete scenario: challenge 1 lasts 7 days, challenge 2 lasts 21, user 42 exists.
      Joining 1 gives an active row with progress 0 ending 7 days later; joining 2 also
      ends 7 days later; setting progress 7 on 1 completes it; joining 1 again is a
      conflict that leaves one row for the pair; and the active listing then holds only
      challenge 2. */
  method JoinScenario(now: int, dbNow: int)
    returns (first: JoinResponse, longer: JoinResponse, update: ProgressResponse,
             second: JoinResponse, active: seq<ActiveChallenge>, pairRows: nat)
    ensures first.Created? && first.row.progress == 0 && first.row.status == Active
    ensures first.row.endDate == now + 7 * MillisPerDay
    ensures longer.Created? && longer.row.endDate == now + 7 * MillisPerDay
    ensures update.Updated? && update.row.progress == 7 && update.row.status == Completed
    ensures second == JoinFailed(UniqueViolation(MembershipKey))
    ensures pairRows == 1
    ensures |active| == 1 && active[0].challenge.id == 2 && active[0].progress == 0
  {
    var seven := Challenge(1, "Daily Meditation", "", "mindfulness", 7, "");
    var longRun := Challenge(2, "Gratitude Journal", "", "mental", 21, "");
    var store := new MembershipStore({42}, [seven, longRun]);
    first := store.Join(42, 1, now, dbNow);
    longer := store.Join(42, 2, now, dbNow);
    var joinedRows := store.rows;
    assert joinedRows == [first.row, longer.row];
    assert TotalDays(store.catalog, 1) == Some(7);
    assert IsInt32(7);
    update := store.UpdateProgress(42, 1, 7);
    assert store.rows == [WithProgress(first.row, 7, Some(7)), longer.row];
    assert store.rows == [update.row, joinedRows[1]];
    second := store.Join(42, 1, now, dbNow);
    pairRows := KeyCount(store.rows, 42, 1);
    active := store.ListActive(42);
    assert store.rows[..1] == [update.row];
    assert store.rows[..2][..1] == store.rows[..1];
    assert store.rows[..2] == store.rows;
  }
}
