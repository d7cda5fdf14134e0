/**
 * The application shell: the authentication listener that keeps the
 * signed-in account and its profile document, the route table with its
 * guards, and the citizen interface with its three tabs.
 */
module App {
  import opened Wrappers
  import Text
  import opened ReportStore
  import ReportList

  /** A field value of an account or a profile document. */
  datatype Value = Null | Str(s: string) | Num(n: int) | Bool(b: bool) | List(items: seq<Value>)

  /** An account or a profile document: named fields. */
  type Profile = map<string, Value>

  const COUNCIL_ROLE := "council"

  /**
   * `userData?.roles?.includes('council')`: `None` when the call throws,
   * which happens when `roles` is a number or a boolean (neither has an
   * `includes` method). A missing profile, a missing `roles` field and a
   * `null` one all read as false; a list looks for the exact entry and a
   * string for the substring.
   */
  function CouncilRole(userData: Option<Profile>): (r: Option<bool>)
    ensures r.None? <==> userData.Some? && "roles" in userData.value
                         && (userData.value["roles"].Num? || userData.value["roles"].Bool?)
    ensures userData.None? ==> r == Some(false)
    ensures userData.Some? && ("roles" !in userData.value || userData.value["roles"] == Null) ==> r == Some(false)
    ensures userData.Some? && "roles" in userData.value && userData.value["roles"].List? ==>
              (r == Some(true) <==> Str(COUNCIL_ROLE) in userData.value["roles"].items)
    ensures userData.Some? && "roles" in userData.value && userData.value["roles"].Str? ==>
              (r == Some(true) <==> Text.Contains(userData.value["roles"].s, COUNCIL_ROLE))
  {
    if userData.None? || "roles" !in userData.value then Some(false)
    else match userData.value["roles"]
      case Null => Some(false)
      case Str(s) => Some(Text.Contains(s, COUNCIL_ROLE))
      case List(items) => Some(Str(COUNCIL_ROLE) in items)
      case _ => None
  }

  /** A roles string that merely contains the word grants the role too, "non-council" included. */
  lemma RoleStringMatchesSubstring(prefix: string)
    ensures CouncilRole(Some(map["roles" := Str(prefix + COUNCIL_ROLE)])) == Some(true)
  {
    Text.ContainsAt(prefix + COUNCIL_ROLE, COUNCIL_ROLE, |prefix|);
  }

  const HOME := "/"
  const LOGIN := "/login"
  const CITIZEN := "/citizen"
  const COUNCIL := "/council"

  /** A screen of the shell. */
  datatype View = MapHome | LoginForm | CitizenView(user: Profile) | CouncilView(user: Profile)

  /** What the shell shows for a location. */
  datatype Page = Spinner | Render(view: View) | Redirect(to: string) | RenderError

  /**
   * Whether rendering the route table throws. React evaluates the element
   * of every route, not only the matching one, so the role checks of the
   * login and council routes run on every path, and they are reached
   * exactly when a user is signed in.
   */
  predicate RoleCheckThrows(user: Option<Profile>, userData: Option<Profile>)
  {
    user.Some? && CouncilRole(userData).None?
  }

  /**
   * The route table, for a signed-in `user` (already merged with the
   * profile) and the `userData` profile. The map is public; the login page
   * sends a signed-in user on to the council or citizen screen; the citizen
   * screen needs a user; the council screen needs a user with the council
   * role; any other path goes home. A role check that throws breaks the
   * whole table, whatever the path.
   */
  function Route(path: string, user: Option<Profile>, userData: Option<Profile>): (p: Page)
    ensures p.RenderError? <==> RoleCheckThrows(user, userData)
    ensures !RoleCheckThrows(user, userData) ==>
              && (path == HOME ==> p == Render(MapHome))
              && (path !in {HOME, LOGIN, CITIZEN, COUNCIL} ==> p == Redirect(HOME))
              && (path in {CITIZEN, COUNCIL} && user.None? ==> p == Redirect(LOGIN))
              && (path == LOGIN && user.Some? ==> p == Redirect(if CouncilRole(userData).value then COUNCIL else CITIZEN))
              && (path == COUNCIL && user.Some? && CouncilRole(userData) == Some(false) ==> p == Redirect(CITIZEN))
    ensures p == Render(LoginForm) <==> path == LOGIN && user.None?
    ensures (p.Render? && p.view.CitizenView?) <==> path == CITIZEN && user.Some? && !RoleCheckThrows(user, userData)
    ensures (p.Render? && p.view.CouncilView?) <==> path == COUNCIL && user.Some? && CouncilRole(userData) == Some(true)
    ensures p.Render? && (p.view.CitizenView? || p.view.CouncilView?) ==> Some(p.view.user) == user
    ensures p != Spinner
  {
    if RoleCheckThrows(user, userData) then RenderError
    else if path == HOME then Render(MapHome)
    else if path == LOGIN then
      if user.None? then Render(LoginForm)
      else Redirect(if CouncilRole(userData).value then COUNCIL else CITIZEN)
    else if path == CITIZEN then
      if user.Some? then Render(CitizenView(user.value)) else Redirect(LOGIN)
    else if path == COUNCIL then
      if user.None? then Redirect(LOGIN)
      else if CouncilRole(userData).value then Render(CouncilView(user.value))
      else Redirect(CITIZEN)
    else Redirect(HOME)
  }

  /** A numeric or boolean `roles` field breaks even the public map for a signed-in user. */
  lemma NumericRolesBreakTheMap(user: Profile, n: int)
    ensures Route(HOME, Some(user), Some(map["roles" := Num(n)])) == RenderError
  {
  }

  /** Every redirect lands on a route of the table, and that route does not redirect again. */
  lemma RedirectsSettle(path: string, user: Option<Profile>, userData: Option<Profile>)
    requires Route(path, user, userData).Redirect?
    ensures var to := Route(path, user, userData).to;
            && to in {HOME, LOGIN, CITIZEN, COUNCIL}
            && !Route(to, user, userData).Redirect?
  {
  }

  /** `{ ...account, ...data }`: every field of both, the profile's value winning on a clash. */
  function Overlay(account: Profile, data: Profile): (user: Profile)
    ensures user.Keys == account.Keys + data.Keys
    ensures forall k :: k in data ==> user[k] == data[k]
    ensures forall k :: k in account && k !in data ==> user[k] == account[k]
  {
    account + data
  }

  /** The outcome of reading `users/{uid}`. */
  datatype ProfileFetch = Found(data: Profile) | Missing | FetchFailed

  /** A notification of the authentication listener, with the profile read it triggers. */
  datatype AuthEvent = SignedOut | SignedIn(account: Profile, fetch: ProfileFetch)

  /** The shell's authentication state. */
  datatype AuthState = AuthState(user: Option<Profile>, userData: Option<Profile>, loading: bool)

  const INITIAL := AuthState(None, None, true)

  /**
   * The listener: signing out clears both values; signing in with a
   * profile sets the profile and the merged user; signing in without one
   * (missing or unreadable) sets the bare account and leaves the profile
   * as it was. Loading ends either way.
   */
  function AfterAuthEvent(s: AuthState, e: AuthEvent): (t: AuthState)
    ensures !t.loading
    ensures t.user.Some? <==> e.SignedIn?
    ensures e.SignedOut? ==> t.userData.None?
    ensures e.SignedIn? && e.fetch.Found? ==>
              t.userData == Some(e.fetch.data) && t.user == Some(Overlay(e.account, e.fetch.data))
    ensures e.SignedIn? && !e.fetch.Found? ==> t.user == Some(e.account) && t.userData == s.userData
  {
    match e
    case SignedOut => AuthState(None, None, false)
    case SignedIn(account, Found(data)) => AuthState(Some(Overlay(account, data)), Some(data), false)
    case SignedIn(account, _) => AuthState(Some(account), s.userData, false)
  }

  /** What the shell shows at `path` in state `s`. */
  function Screen(s: AuthState, path: string): (p: Page)
    ensures p == Spinner <==> s.loading
  {
    if s.loading then Spinner else Route(path, s.user, s.userData)
  }

  /** Once signed out, no path shows the citizen or the council screen. */
  lemma SignedOutSeesNoPrivateScreen(s: AuthState, path: string)
    ensures var p := Screen(AfterAuthEvent(s, SignedOut), path);
            !(p.Render? && (p.view.CitizenView? || p.view.CouncilView?))
  {
  }

  /**
   * After signing in with a readable profile, the council screen opens
   * exactly when that profile grants the role.
   */
  lemma CouncilScreenFollowsProfile(s: AuthState, account: Profile, data: Profile)
    ensures var p := Screen(AfterAuthEvent(s, SignedIn(account, Found(data))), COUNCIL);
            (p.Render? && p.view.CouncilView?) <==> CouncilRole(Some(data)) == Some(true)
  {
  }

  /**
   * The profile is not cleared when the next sign-in finds none: a council
   * member's session followed, without a sign-out in between, by a sign-in
   * whose profile is missing or unreadable still opens the council screen.
   */
  lemma {:induction false} CouncilRoleOutlivesProfileRead(s: AuthState, council: Profile, next: Profile, fetch: ProfileFetch)
    requires CouncilRole(Some(council)) == Some(true)
    requires !fetch.Found?
    ensures var t := AfterAuthEvent(AfterAuthEvent(s, SignedIn(council, Found(council))), SignedIn(next, fetch));
            Screen(t, COUNCIL) == Render(CouncilView(next))
  {
    var mid := AfterAuthEvent(s, SignedIn(council, Found(council)));
    assert mid.userData == Some(council);
    var t := AfterAuthEvent(mid, SignedIn(next, fetch));
    assert t.userData == Some(council) && t.user == Some(next);
  }

  /** A signed-out session never carries a profile forward, whatever came before. */
  lemma SignOutResets(s: AuthState, e: AuthEvent)
    ensures AfterAuthEvent(AfterAuthEvent(s, e), SignedOut) == AfterAuthEvent(INITIAL, SignedOut)
  {
  }

  /** The shell component. */
  class Session {
    var user: Option<Profile>
    var userData: Option<Profile>
    var loading: bool

    function State(): AuthState
      reads this
    {
      AuthState(user, userData, loading)
    }

    /** Before the first notification only the spinner shows. */
    constructor ()
      ensures State() == INITIAL
      ensures forall path :: Screen(State(), path) == Spinner
    {
      user, userData, loading := None, None, true;
    }

    /** The `onAuthStateChanged` callback. */
    method OnAuthStateChanged(e: AuthEvent)
      modifies this
      ensures State() == AfterAuthEvent(old(State()), e)
    {
      match e {
        case SignedOut =>
          user, userData := None, None;
        case SignedIn(account, fetch) =>
          if fetch.Found? {
            userData := Some(fetch.data);
            user := Some(Overlay(account, fetch.data));
          } else {
            user := Some(account);
          }
      }
      loading := false;
    }
  }

  /** The tabs of the citizen interface. */
  datatype Tab = MapTab | ReportTab | MyReportsTab

  /** What a tab shows: the map, the report form, or the list of one's own reports. */
  datatype Panel = MapPanel | FormPanel | OwnReportsPanel(query: Query)

  /** Whether a user has a text `uid`, as every signed-in account does. */
  predicate HasUid(user: Profile)
  {
    "uid" in user && user["uid"].Str?
  }

  /** The merged user keeps the account's `uid` unless the profile document has one of its own. */
  lemma MergedUid(account: Profile, data: Profile)
    requires HasUid(account)
    ensures "uid" !in data ==> HasUid(Overlay(account, data)) && Overlay(account, data)["uid"] == account["uid"]
    ensures "uid" in data ==> Overlay(account, data)["uid"] == data["uid"]
  {
  }

  /** The citizen interface for a signed-in user. */
  class CitizenInterface {
    const uid: string
    var activeTab: Tab

    /** The interface opens on the map. */
    constructor (user: Profile)
      requires HasUid(user)
      ensures uid == user["uid"].s && activeTab == MapTab
      ensures Content() == MapPanel
    {
      uid := user["uid"].s;
      activeTab := MapTab;
    }

    /** The panel under the tab bar. */
    function Content(): (panel: Panel)
      reads this
      ensures activeTab == MapTab ==> panel == MapPanel
      ensures activeTab == ReportTab ==> panel == FormPanel
      ensures panel.OwnReportsPanel? <==> activeTab == MyReportsTab
      ensures panel.OwnReportsPanel? ==> panel.query == ReportList.QueryFor(true, Some(uid))
    {
      match activeTab
      case MapTab => MapPanel
      case ReportTab => FormPanel
      case MyReportsTab => OwnReportsPanel(ReportList.QueryFor(true, Some(uid)))
    }

    /** A click on a tab button. */
    method SelectTab(t: Tab)
      modifies this`activeTab
      ensures activeTab == t
    {
      activeTab := t;
    }

    /** The form's success callback: the interface moves on to My Reports. */
    method OnReportSubmitted()
      modifies this`activeTab
      ensures activeTab == MyReportsTab
      ensures Content() == OwnReportsPanel(ReportList.QueryFor(true, Some(uid)))
    {
      activeTab := MyReportsTab;
    }
  }

  /** Everything the My Reports tab lists belongs to the signed-in user. */
  lemma MyReportsAreOwn(view: CitizenInterface, store: Store, snap: seq<Report>, r: Report)
    requires view.Content().OwnReportsPanel?
    requires IsSnapshot(view.Content().query, store, snap) && r in snap
    ensures r.userId == view.uid
  {
    ReportList.OwnListIsOwn(view.uid, store, snap, r);
  }
}
