/** The routed frontend's top-level component: the signed-in user, the ids of the
    user's challenges, their mirror in browser storage, and the route table. */
module AppShell {
  import opened Wrappers
  import opened Seqs
  import Text

  type ChallengeId = string

  /** The user object handed over by the login form. */
  datatype User = User(username: string, email: string)

  /** A value in browser storage, as the two keys hold them. */
  datatype Stored = StoredUser(user: User) | StoredChallenges(ids: seq<ChallengeId>)

  type Storage = map<string, Stored>

  const UserKey: string := "user"
  const ChallengesKey: string := "userChallenges"

  /** `handleChallengeUpdate`'s new list: 'add' appends, 'remove' drops every copy of the
      id, and any other action changes nothing. */
  function ChallengeUpdate(ids: seq<ChallengeId>, id: ChallengeId, action: string): (r: seq<ChallengeId>)
    ensures action == "add" ==> r == ids + [id]
    ensures action == "remove" ==> (forall x :: x in r <==> x in ids && x != id) && IsSubsequence(r, ids)
    ensures action == "remove" ==> forall x :: multiset(r)[x] == if x == id then 0 else multiset(ids)[x]
    ensures action != "add" && action != "remove" ==> r == ids
  {
    if action == "add" then ids + [id]
    else if action == "remove" then Without(ids, id)
    else ids
  }

  /** `prev.filter(id => id !== challengeId)`. */
  function Without(ids: seq<ChallengeId>, id: ChallengeId): (r: seq<ChallengeId>)
    ensures forall x :: x in r <==> x in ids && x != id
    ensures IsSubsequence(r, ids)
    ensures forall x :: multiset(r)[x] == if x == id then 0 else multiset(ids)[x]
  {
    if ids == [] then []
    else
      assert ids == [ids[0]] + ids[1..];
      if ids[0] == id then
        var rest := Without(ids[1..], id);
        assert rest != [] ==> rest[0] in rest;
        rest
      else [ids[0]] + Without(ids[1..], id)
  }

  /** Removing an id after adding it gives what removing it alone gives: the add is
      undone together with any earlier copies. */
  lemma {:induction false} RemoveUndoesAdd(ids: seq<ChallengeId>, id: ChallengeId)
    ensures ChallengeUpdate(ChallengeUpdate(ids, id, "add"), id, "remove") == ChallengeUpdate(ids, id, "remove")
  {
    if ids != [] {
      assert (ids + [id])[1..] == ids[1..] + [id];
      RemoveUndoesAdd(ids[1..], id);
    } else {
      assert Without([id], id) == Without([], id);
    }
  }

  /** Adding does not look for the id first, so adding a listed id lists it twice. */
  lemma AddKeepsDuplicates(ids: seq<ChallengeId>, id: ChallengeId)
    requires id in ids
    ensures !Distinct(ChallengeUpdate(ids, id, "add"))
  {
    var i :| 0 <= i < |ids| && ids[i] == id;
    var r := ChallengeUpdate(ids, id, "add");
    assert r[i] == r[|ids|];
  }

  /** The storage effect for the challenge list: stored while non-empty, removed
      otherwise. */
  function PersistChallenges(s: Storage, ids: seq<ChallengeId>): (r: Storage)
    ensures ChallengesKey in r <==> |ids| > 0
    ensures |ids| > 0 ==> r[ChallengesKey] == StoredChallenges(ids)
    ensures forall k :: k != ChallengesKey ==> (k in r <==> k in s)
    ensures forall k :: k != ChallengesKey && k in s ==> r[k] == s[k]
  {
    if |ids| > 0 then s[ChallengesKey := StoredChallenges(ids)] else s - {ChallengesKey}
  }

  /** The storage effect for the user: stored while signed in, removed otherwise. */
  function PersistUser(s: Storage, user: Option<User>): (r: Storage)
    ensures UserKey in r <==> user.Some?
    ensures user.Some? ==> r[UserKey] == StoredUser(user.value)
    ensures forall k :: k != UserKey ==> (k in r <==> k in s)
    ensures forall k :: k != UserKey && k in s ==> r[k] == s[k]
  {
    if user.Some? then s[UserKey := StoredUser(user.value)] else s - {UserKey}
  }

  /** What the mount effect reads back: the stored user, and the stored list or none. */
  function LoadUser(s: Storage): Option<User> {
    if UserKey in s && s[UserKey].StoredUser? then Some(s[UserKey].user) else None
  }

  function LoadChallenges(s: Storage): Option<seq<ChallengeId>> {
    if ChallengesKey in s && s[ChallengesKey].StoredChallenges? then Some(s[ChallengesKey].ids) else None
  }

  /** Storage written by the two effects restores the same state on the next mount: the
      user comes back, and the list comes back unless it was empty, when the initial
      empty list stays. */
  lemma PersistThenLoad(s: Storage, user: Option<User>, ids: seq<ChallengeId>)
    ensures LoadUser(PersistChallenges(PersistUser(s, user), ids)) == user
    ensures |ids| > 0 ==> LoadChallenges(PersistChallenges(PersistUser(s, user), ids)) == Some(ids)
    ensures |ids| == 0 ==> LoadChallenges(PersistChallenges(PersistUser(s, user), ids)) == None
  {
  }

  /** What a route renders: a page, a redirect, or nothing for an unknown path. */
  datatype View = Page(name: string) | Redirect(to: string) | NoMatch

  const ProtectedPaths: set<string> := {"/dashboard", "/daily-tracking", "/insights", "/resources", "/games"}

  /** The component each route path renders when its guard lets it through. */
  const RoutePages: map<string, string> := map[
    "/login" := "Login", "/register" := "Register", "/dashboard" := "Dashboard",
    "/daily-tracking" := "DailyTracking", "/insights" := "InsightsPage",
    "/resources" := "ResourcesPage", "/games" := "Game"]

  /** The location with its trailing slashes removed. */
  function StripTrailingSlashes(path: string): (p: string)
    ensures |p| <= |path| && path[..|p|] == p
    ensures p == [] || p[|p| - 1] != '/'
    ensures forall i :: |p| <= i < |path| ==> path[i] == '/'
  {
    if path != [] && path[|path| - 1] == '/' then StripTrailingSlashes(path[..|path| - 1]) else path
  }

  /** The form in which a location is compared with the route paths: the router matches
      letters without regard to case and accepts any number of trailing slashes, and a
      location of slashes only is the root. */
  function Normalize(path: string): (p: string)
    ensures p != []
    ensures p != "/" ==> p[|p| - 1] != '/'
  {
    var s := StripTrailingSlashes(Text.ToLower(path));
    if s == [] then "/" else s
  }

  /** The route table. */
  function Route(path: string, authenticated: bool): (v: View)
    ensures Normalize(path) == "/" ==> v == Redirect(if authenticated then "/dashboard" else "/login")
    ensures Normalize(path) in ProtectedPaths ==> (v.Page? <==> authenticated)
    ensures Normalize(path) in ProtectedPaths && !authenticated ==> v == Redirect("/login")
    ensures Normalize(path) in {"/login", "/register"} ==> (v.Page? <==> !authenticated)
    ensures Normalize(path) in {"/login", "/register"} && authenticated ==> v == Redirect("/dashboard")
    ensures v.Page? ==> Normalize(path) in RoutePages && v.name == RoutePages[Normalize(path)]
    ensures v.NoMatch? <==> Normalize(path) !in ProtectedPaths + {"/", "/login", "/register"}
  {
    match Normalize(path)
    case "/" => if authenticated then Redirect("/dashboard") else Redirect("/login")
    case "/login" => if !authenticated then Page("Login") else Redirect("/dashboard")
    case "/register" => if !authenticated then Page("Register") else Redirect("/dashboard")
    case "/dashboard" => if authenticated then Page("Dashboard") else Redirect("/login")
    case "/daily-tracking" => if authenticated then Page("DailyTracking") else Redirect("/login")
    case "/insights" => if authenticated then Page("InsightsPage") else Redirect("/login")
    case "/resources" => if authenticated then Page("ResourcesPage") else Redirect("/login")
    case "/games" => if authenticated then Page("Game") else Redirect("/login")
    case _ => NoMatch
  }

  /** A trailing slash does not change what a location renders. */
  lemma TrailingSlashIgnored(path: string, authenticated: bool)
    ensures Route(path + "/", authenticated) == Route(path, authenticated)
  {
    var low := Text.ToLower(path);
    assert Text.ToLower(path + "/") == low + "/";
    assert (low + "/")[..|low|] == low;
  }

  /** Nor does the case of its letters. */
  lemma CaseIgnored(path: string, authenticated: bool)
    ensures Route(Text.ToLower(path), authenticated) == Route(path, authenticated)
  {
    Text.ToLowerIdempotent(path);
  }

  /** '/Dashboard/' renders the dashboard for a signed-in user. */
  lemma MixedCaseWithSlashRenders()
    ensures Route("/Dashboard/", true) == Page("Dashboard")
  {
    assert Text.ToLower("/Dashboard/") == "/dashboard/";
    assert StripTrailingSlashes("/dashboard/") == "/dashboard" by {
      assert "/dashboard/"[..|"/dashboard/"| - 1] == "/dashboard";
    }
  }

  /** Every redirect lands on a page in one step, so the table has no redirect loop. */
  lemma RedirectsLandOnAPage(path: string, authenticated: bool)
    requires Route(path, authenticated).Redirect?
    ensures Route(Route(path, authenticated).to, authenticated).Page?
  {
    assert Text.ToLower("/login") == "/login";
    assert Text.ToLower("/dashboard") == "/dashboard";
  }

  class App {
    var user: Option<User>
    var userChallenges: seq<ChallengeId>
    var isAuthenticated: bool
    var loading: bool
    var storage: Storage

    /** Storage mirrors the state, as the two effects leave it after every change. */
    predicate Synced()
      reads this
    {
      storage == PersistChallenges(PersistUser(storage, user), userChallenges)
    }

    /** Signed in exactly when a user is held; once loaded, storage mirrors the state. */
    predicate Valid()
      reads this
    {
      && (isAuthenticated <==> user.Some?)
      && (!loading ==> Synced())
    }

    /** The first render, over whatever the browser has stored. */
    constructor (browserStorage: Storage)
      ensures Valid() && loading
      ensures user == None && userChallenges == [] && !isAuthenticated
      ensures storage == browserStorage
    {
      user := None;
      userChallenges := [];
      isAuthenticated := false;
      loading := true;
      storage := browserStorage;
    }

    /** The mount effect, followed by the storage effects it triggers: a stored user signs
        in, a stored list is taken over, and loading ends. */
    method Mount()
      requires Valid() && loading
      modifies this
      ensures Valid() && !loading
      ensures LoadUser(old(storage)).Some? ==> user == LoadUser(old(storage)) && isAuthenticated
      ensures LoadUser(old(storage)).None? ==> user == old(user) && isAuthenticated == old(isAuthenticated)
      ensures userChallenges == (if LoadChallenges(old(storage)).Some? then LoadChallenges(old(storage)).value
                                 else old(userChallenges))
      ensures storage == PersistChallenges(PersistUser(old(storage), user), userChallenges)
    {
      var storedUser := LoadUser(storage);
      var storedChallenges := LoadChallenges(storage);
      if storedUser.Some? {
        user := storedUser;
        isAuthenticated := true;
      }
      if storedChallenges.Some? {
        userChallenges := storedChallenges.value;
      }
      loading := false;
      storage := PersistChallenges(PersistUser(storage, user), userChallenges);
    }

    /** `handleChallengeUpdate`, then the storage effect when the list changed. */
    method HandleChallengeUpdate(id: ChallengeId, action: string)
      requires Valid() && !loading
      modifies this
      ensures Valid() && !loading
      ensures userChallenges == ChallengeUpdate(old(userChallenges), id, action)
      ensures storage == PersistChallenges(old(storage), userChallenges)
      ensures user == old(user) && isAuthenticated == old(isAuthenticated)
    {
      if action == "add" || action == "remove" {
        userChallenges := ChallengeUpdate(userChallenges, id, action);
        storage := PersistChallenges(storage, userChallenges);
      }
    }

    /** `handleLogin`: the user signs in; when the fetch of the user's challenges
        succeeds, its ids replace the list (a failed fetch keeps the list). */
    method HandleLogin(userData: User, fetched: Option<seq<ChallengeId>>)
      requires Valid() && !loading
      modifies this
      ensures Valid() && !loading
      ensures user == Some(userData) && isAuthenticated
      ensures userChallenges == if fetched.Some? then fetched.value else old(userChallenges)
      ensures storage == PersistChallenges(PersistUser(old(storage), user), userChallenges)
    {
      user := Some(userData);
      isAuthenticated := true;
      if fetched.Some? {
        userChallenges := fetched.value;
      }
      storage := PersistChallenges(PersistUser(storage, user), userChallenges);
    }

    /** `handleLogout`: signed out with no challenges, and storage cleared entirely. */
    method HandleLogout()
      requires Valid() && !loading
      modifies this
      ensures Valid() && !loading
      ensures user == None && !isAuthenticated && userChallenges == []
      ensures storage == map[]
    {
      user := None;
      isAuthenticated := false;
      userChallenges := [];
      storage := map[];
    }

    /** The `storage` listener: a change of the list in another tab replaces the list
        (a removed key reads as the empty list); other keys are ignored. */
    method HandleStorageChange(key: string, newValue: Option<seq<ChallengeId>>)
      requires Valid() && !loading
      modifies this
      ensures Valid() && !loading
      ensures key == ChallengesKey ==>
                userChallenges == (if newValue.Some? then newValue.value else [])
                && storage == PersistChallenges(old(storage), userChallenges)
      ensures key != ChallengesKey ==> userChallenges == old(userChallenges) && storage == old(storage)
      ensures user == old(user) && isAuthenticated == old(isAuthenticated)
    {
      if key == ChallengesKey {
        userChallenges := if newValue.Some? then newValue.value else [];
        storage := PersistChallenges(storage, userChallenges);
      }
    }
  }
}
