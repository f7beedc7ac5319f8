/** The relational schema the backend creates: one datatype per table row and the
    table constraints (PRIMARY KEY, UNIQUE, CHECK, REFERENCES, DEFAULT) as
    predicates, with the INSERT checks that keep them. Constraint names are the
    ones PostgreSQL generates by default. */
module Schema {
  import opened Wrappers

  /** The values the application writes into `user_challenges.status`. */
  datatype Status = Active | Completed

  datatype User = User(id: int, username: string, email: string, passwordHash: string)

  datatype MoodEntry = MoodEntry(id: int, userId: Option<int>, moodLevel: int, stressLevel: int, notes: string)

  /** `hours DECIMAL(4,2)` is not modelled. */
  datatype Activity = Activity(id: int, userId: Option<int>, name: string, mood: Option<int>, notes: string)

  datatype Challenge = Challenge(id: int, title: string, description: string, category: string,
                                 totalDays: int, reward: string)

  /** A row of `user_challenges`; timestamps are milliseconds. */
  datatype Membership = Membership(id: int, userId: int, challengeId: int, progress: int,
                                   status: Status, startDate: int, endDate: int)

  /** Why the database refuses a statement: a constraint, named, or a value too long for
      its VARCHAR column, named by the column. */
  datatype Violation = UniqueViolation(constraint: string)
                     | ForeignKeyViolation(constraint: string)
                     | CheckViolation(constraint: string)
                     | ValueTooLong(column: string)

  /** Storing a string in a `VARCHAR(n)` column: a string of at most n characters is kept;
      a longer one is cut to n characters when everything past the n-th is a space, and
      refused otherwise. */
  function Varchar(s: string, n: nat): (r: Option<string>)
    ensures r.None? <==> exists i :: n <= i < |s| && s[i] != ' '
    ensures r.Some? ==> |r.value| <= n && |r.value| <= |s| && s[..|r.value|] == r.value
    ensures |s| <= n ==> r == Some(s)
  {
    if |s| <= n then Some(s)
    else if forall i :: n <= i < |s| ==> s[i] == ' ' then Some(s[..n])
    else None
  }

  /** Excess spaces are trimmed, and any other excess character is refused. */
  lemma VarcharExcess(s: string)
    ensures Varchar(s + " ", |s|) == Some(s)
    ensures Varchar(s + "x", |s|) == None
  {
    assert (s + " ")[..|s|] == s;
    assert (s + "x")[|s|] == 'x';
  }

  /** The `users` row actually stored for an insert, with the VARCHAR(255) columns
      trimmed, or none when one of them is too long. */
  function StoredUser(u: User): (r: Option<User>)
    ensures r.Some? <==> Varchar(u.username, 255).Some? && Varchar(u.email, 255).Some?
                         && Varchar(u.passwordHash, 255).Some?
    ensures r.Some? ==> r.value == User(u.id, Varchar(u.username, 255).value, Varchar(u.email, 255).value,
                                        Varchar(u.passwordHash, 255).value)
  {
    match (Varchar(u.username, 255), Varchar(u.email, 255), Varchar(u.passwordHash, 255))
    case (Some(name), Some(email), Some(hash)) => Some(User(u.id, name, email, hash))
    case _ => None
  }

  /** `CHECK (x BETWEEN 1 AND 5)` */
  predicate LevelInRange(x: int) {
    1 <= x <= 5
  }

  predicate HasUser(users: seq<User>, id: int) {
    exists u :: u in users && u.id == id
  }

  /** A nullable `REFERENCES users(id)` column: NULL, or the id of an existing user. */
  predicate RefersToUser(users: seq<User>, userId: Option<int>) {
    userId.None? || HasUser(users, userId.value)
  }

  /** `users`: id is the primary key; username and email are each UNIQUE. */
  ghost predicate UsersValid(users: seq<User>) {
    forall i, j :: 0 <= i < j < |users| ==>
      users[i].id != users[j].id && users[i].username != users[j].username && users[i].email != users[j].email
  }

  /** `mood_entries`: both levels in 1..5 and the user exists. */
  ghost predicate MoodEntriesValid(entries: seq<MoodEntry>, users: seq<User>) {
    forall e :: e in entries ==>
      LevelInRange(e.moodLevel) && LevelInRange(e.stressLevel) && RefersToUser(users, e.userId)
  }

  /** `activities`: a present mood is in 1..5 (NULL passes the CHECK) and the user exists. */
  ghost predicate ActivitiesValid(activities: seq<Activity>, users: seq<User>) {
    forall a :: a in activities ==>
      (a.mood.Some? ==> LevelInRange(a.mood.value)) && RefersToUser(users, a.userId)
  }

  /** `INSERT INTO users`: the column lengths, then the primary key, then the username
      index, then the email index, all on the stored (trimmed) values. */
  function InsertUser(users: seq<User>, u: User): (r: Result<seq<User>, Violation>)
    ensures r.Ok? <==> StoredUser(u).Some? && forall v :: v in users ==>
              v.id != u.id && v.username != StoredUser(u).value.username && v.email != StoredUser(u).value.email
    ensures StoredUser(u).None? ==> r.Err? && r.error.ValueTooLong?
    ensures r.Ok? ==> r.value == users + [StoredUser(u).value]
    ensures r.Ok? && UsersValid(users) ==> UsersValid(r.value)
  {
    if Varchar(u.username, 255).None? then Err(ValueTooLong("username"))
    else if Varchar(u.email, 255).None? then Err(ValueTooLong("email"))
    else if Varchar(u.passwordHash, 255).None? then Err(ValueTooLong("password_hash"))
    else
      var stored := StoredUser(u).value;
      if exists v :: v in users && v.id == stored.id then Err(UniqueViolation("users_pkey"))
      else if exists v :: v in users && v.username == stored.username then Err(UniqueViolation("users_username_key"))
      else if exists v :: v in users && v.email == stored.email then Err(UniqueViolation("users_email_key"))
      else Ok(users + [stored])
  }

  /** `INSERT INTO mood_entries`: the two CHECKs, then the foreign key. */
  function InsertMoodEntry(entries: seq<MoodEntry>, users: seq<User>, e: MoodEntry): (r: Result<seq<MoodEntry>, Violation>)
    ensures r.Ok? <==> LevelInRange(e.moodLevel) && LevelInRange(e.stressLevel) && RefersToUser(users, e.userId)
    ensures r.Ok? ==> r.value == entries + [e]
    ensures r.Ok? && MoodEntriesValid(entries, users) ==> MoodEntriesValid(r.value, users)
  {
    if !LevelInRange(e.moodLevel) then Err(CheckViolation("mood_entries_mood_level_check"))
    else if !LevelInRange(e.stressLevel) then Err(CheckViolation("mood_entries_stress_level_check"))
    else if !RefersToUser(users, e.userId) then Err(ForeignKeyViolation("mood_entries_user_id_fkey"))
    else Ok(entries + [e])
  }

  /** `INSERT INTO activities`: the name's length, then the mood CHECK, then the foreign
      key; the stored name is the trimmed one. */
  function InsertActivity(activities: seq<Activity>, users: seq<User>, a: Activity): (r: Result<seq<Activity>, Violation>)
    ensures r.Ok? <==> Varchar(a.name, 255).Some? && (a.mood.Some? ==> LevelInRange(a.mood.value))
                       && RefersToUser(users, a.userId)
    ensures r.Ok? ==> r.value == activities + [a.(name := Varchar(a.name, 255).value)]
    ensures r.Ok? && ActivitiesValid(activities, users) ==> ActivitiesValid(r.value, users)
  {
    if Varchar(a.name, 255).None? then Err(ValueTooLong("name"))
    else if a.mood.Some? && !LevelInRange(a.mood.value) then Err(CheckViolation("activities_mood_check"))
    else if !RefersToUser(users, a.userId) then Err(ForeignKeyViolation("activities_user_id_fkey"))
    else Ok(activities + [a.(name := Varchar(a.name, 255).value)])
  }

  /** A new `user_challenges` row takes the column defaults: progress 0, status
      'active', start_date the statement's CURRENT_TIMESTAMP. */
  function NewMembership(id: int, userId: int, challengeId: int, endDate: int, now: int): Membership {
    Membership(id, userId, challengeId, 0, Active, now, endDate)
  }

  predicate SameKey(m: Membership, userId: int, challengeId: int) {
    m.userId == userId && m.challengeId == challengeId
  }

  /** `UNIQUE(user_id, challenge_id)` */
  ghost predicate KeysUnique(rows: seq<Membership>) {
    forall i, j :: 0 <= i < j < |rows| ==> !SameKey(rows[j], rows[i].userId, rows[i].challengeId)
  }

  /** How many rows carry the key (user, challenge). */
  function KeyCount(rows: seq<Membership>, userId: int, challengeId: int): nat {
    if rows == [] then 0
    else (if SameKey(rows[0], userId, challengeId) then 1 else 0) + KeyCount(rows[1..], userId, challengeId)
  }

  /** Under the UNIQUE constraint a key is carried by at most one row, and by one
      exactly when some row has it. */
  lemma {:induction false} AtMostOneRowPerKey(rows: seq<Membership>, userId: int, challengeId: int)
    requires KeysUnique(rows)
    ensures KeyCount(rows, userId, challengeId) <= 1
    ensures KeyCount(rows, userId, challengeId) == 1 <==> exists m :: m in rows && SameKey(m, userId, challengeId)
  {
    if rows != [] {
      var tail := rows[1..];
      assert KeysUnique(tail) by {
        forall i, j | 0 <= i < j < |tail|
          ensures !SameKey(tail[j], tail[i].userId, tail[i].challengeId)
        {
          assert tail[i] == rows[i + 1] && tail[j] == rows[j + 1];
        }
      }
      AtMostOneRowPerKey(tail, userId, challengeId);
      if SameKey(rows[0], userId, challengeId) {
        forall m | m in tail ensures !SameKey(m, userId, challengeId) {
          var j :| 0 <= j < |tail| && tail[j] == m;
          assert rows[j + 1] == m;
        }
      }
    }
  }
}
