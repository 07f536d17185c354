/** The authentication slice: the signed-in user and bearer token, the busy flag
    and the last error, its four reducers, and the three thunks that consult the
    identity manager (`initializeOAuth`, `checkExistingAuth`, `signOut`).
    Identity-manager and HTTP results are inputs. */
module AuthSlice {
  import opened Common

  /** The portal every credential request targets. */
  const PortalUrl := "https://www.arcgis.com/sharing/rest"
  /** The application id used when no client id is configured. */
  const DefaultAppId := "geovez-web-app"
  /** The role recorded when the profile carries none. */
  const DefaultRole := "user"

  datatype UserInfo = UserInfo(username: string, fullName: string, email: string, role: string, orgId: string)

  datatype AuthState = AuthState(
    isAuthenticated: bool,
    user: Option<UserInfo>,
    token: Option<string>,
    loading: bool,
    error: Option<string>)

  /** One constructor per reducer, carrying its payload. */
  datatype AuthAction =
    | SetLoading(loading: bool)
    | SetError(error: Option<string>)
    | SetAuthentication(user: UserInfo, token: string)
    | ClearAuthentication

  datatype AuthField = IsAuthenticatedField | UserField | TokenField | LoadingField | ErrorField

  /** `s` and `t` agree on field `f`. */
  predicate SameField(s: AuthState, t: AuthState, f: AuthField) {
    match f
    case IsAuthenticatedField => s.isAuthenticated == t.isAuthenticated
    case UserField => s.user == t.user
    case TokenField => s.token == t.token
    case LoadingField => s.loading == t.loading
    case ErrorField => s.error == t.error
  }

  /** The fields a reducer assigns. */
  function Writes(a: AuthAction): set<AuthField> {
    match a
    case SetLoading(_) => {LoadingField}
    case SetError(_) => {ErrorField}
    case _ => {IsAuthenticatedField, UserField, TokenField, LoadingField, ErrorField}
  }

  /** User and token are present together, exactly while authenticated. */
  predicate Consistent(s: AuthState) {
    && (s.user.Some? <==> s.isAuthenticated)
    && (s.token.Some? <==> s.isAuthenticated)
  }

  /** `initialState`: signed out, idle, no error. */
  function InitialState(): (s: AuthState)
    ensures Consistent(s) && !s.isAuthenticated
    ensures !s.loading && s.error == None
  {
    AuthState(false, None, None, false, None)
  }

  /** The slice reducer. */
  function Reduce(s: AuthState, a: AuthAction): (r: AuthState)
    ensures forall f :: f !in Writes(a) ==> SameField(s, r, f)
    ensures Consistent(s) ==> Consistent(r)
    ensures a.SetLoading? ==> r.loading == a.loading
    ensures a.SetError? ==> r.error == a.error
    ensures a.SetAuthentication? ==>
      r.isAuthenticated && r.user == Some(a.user) && r.token == Some(a.token) && !r.loading && r.error == None
    ensures a.ClearAuthentication? ==> r == InitialState()
  {
    match a
    case SetLoading(b) => s.(loading := b)
    case SetError(e) => s.(error := e)
    case SetAuthentication(u, t) =>
      s.(isAuthenticated := true, user := Some(u), token := Some(t), loading := false, error := None)
    case ClearAuthentication =>
      s.(isAuthenticated := false, user := None, token := None, loading := false, error := None)
  }

  /** The state after reducing `actions` in order, starting from `s`. */
  function ReduceAll(s: AuthState, actions: seq<AuthAction>): AuthState
    decreases |actions|
  {
    if actions == [] then s
    else Reduce(ReduceAll(s, actions[..|actions| - 1]), actions[|actions| - 1])
  }

  lemma {:induction false} ReduceAllAppend(s: AuthState, xs: seq<AuthAction>, ys: seq<AuthAction>)
    ensures ReduceAll(s, xs + ys) == ReduceAll(ReduceAll(s, xs), ys)
    decreases |ys|
  {
    if ys == [] {
      assert xs + ys == xs;
    } else {
      assert (xs + ys)[..|xs + ys| - 1] == xs + ys[..|ys| - 1];
      ReduceAllAppend(s, xs, ys[..|ys| - 1]);
    }
  }

  /** Every state the slice can reach keeps user and token together with the flag. */
  lemma {:induction false} ReachableStatesConsistent(actions: seq<AuthAction>)
    ensures Consistent(ReduceAll(InitialState(), actions))
    decreases |actions|
  {
    if actions != [] {
      ReachableStatesConsistent(actions[..|actions| - 1]);
    }
  }

  /** Every reducer of the slice is idempotent: dispatching the same action twice
      equals dispatching it once (in particular `setAuthentication` with the same
      payload and `clearAuthentication`). */
  lemma ReducersIdempotent(s: AuthState, a: AuthAction)
    ensures Reduce(Reduce(s, a), a) == Reduce(s, a)
  {
  }

  /** The slice's state object, updated in place by its reducers. `log` is the
      history of actions the store has reduced. */
  class AuthStore {
    var isAuthenticated: bool
    var user: Option<UserInfo>
    var token: Option<string>
    var loading: bool
    var error: Option<string>
    ghost var log: seq<AuthAction>

    function State(): AuthState
      reads this
    {
      AuthState(isAuthenticated, user, token, loading, error)
    }

    /** The state is the fold of the history, and therefore consistent. */
    ghost predicate Valid()
      reads this
    {
      && State() == ReduceAll(InitialState(), log)
      && Consistent(State())
    }

    constructor ()
      ensures Valid() && log == [] && State() == InitialState()
    {
      isAuthenticated, user, token, loading, error := false, None, None, false, None;
      log := [];
    }

    method SetLoading(b: bool)
      requires Valid()
      modifies this
      ensures Valid() && log == old(log) + [AuthAction.SetLoading(b)]
      ensures State() == Reduce(old(State()), AuthAction.SetLoading(b))
    {
      loading := b;
      log := log + [AuthAction.SetLoading(b)];
    }

    method SetError(e: Option<string>)
      requires Valid()
      modifies this
      ensures Valid() && log == old(log) + [AuthAction.SetError(e)]
      ensures State() == Reduce(old(State()), AuthAction.SetError(e))
    {
      error := e;
      log := log + [AuthAction.SetError(e)];
    }

    method SetAuthentication(u: UserInfo, t: string)
      requires Valid()
      modifies this
      ensures Valid() && log == old(log) + [AuthAction.SetAuthentication(u, t)]
      ensures State() == Reduce(old(State()), AuthAction.SetAuthentication(u, t))
    {
      isAuthenticated := true;
      user := Some(u);
      token := Some(t);
      loading := false;
      error := None;
      log := log + [AuthAction.SetAuthentication(u, t)];
    }

    method ClearAuthentication()
      requires Valid()
      modifies this
      ensures Valid() && log == old(log) + [AuthAction.ClearAuthentication]
      ensures State() == Reduce(old(State()), AuthAction.ClearAuthentication)
    {
      isAuthenticated := false;
      user := None;
      token := None;
      loading := false;
      error := None;
      log := log + [AuthAction.ClearAuthentication];
    }
  }

  /** After a store has reduced `d` on top of its history, its state is
      `d` reduced on top of the old state. */
  lemma StoreAppend(before: seq<AuthAction>, d: seq<AuthAction>)
    ensures ReduceAll(InitialState(), before + d) == ReduceAll(ReduceAll(InitialState(), before), d)
  {
    ReduceAllAppend(InitialState(), before, d);
  }

  // ---------------------------------------------------------------------------
  // Thunks

  /** The OAuth registration the identity manager holds for the portal. */
  datatype OAuthInfo = OAuthInfo(appId: string, popup: bool, portalUrl: string, flowType: string, popupCallbackUrl: string)

  /** `initializeOAuth(clientId)`: the portal's registration after the thunk, given
      the one `findOAuthInfo` returns before it. A registration is created only
      when the SDK is loaded and none exists; an existing one is never replaced. */
  function InitializeOAuth(sdkLoaded: bool, registered: Option<OAuthInfo>, clientId: string, origin: string)
    : (r: Option<OAuthInfo>)
    ensures !sdkLoaded || registered.Some? ==> r == registered
    ensures sdkLoaded && registered.None? ==>
      && r.Some?
      && r.value.portalUrl == PortalUrl
      && r.value.appId == (if clientId != "" then clientId else DefaultAppId)
      && r.value.popupCallbackUrl == origin + "/oauth-callback.html"
      && !r.value.popup && r.value.flowType == "auto"
  {
    if !sdkLoaded || registered.Some? then registered
    else Some(OAuthInfo(OrElse(Some(clientId), DefaultAppId), false, PortalUrl, "auto", origin + "/oauth-callback.html"))
  }

  /** Running `initializeOAuth` a second time changes nothing. */
  lemma InitializeOAuthIdempotent(sdkLoaded: bool, registered: Option<OAuthInfo>, clientId: string, origin: string)
    ensures var once := InitializeOAuth(sdkLoaded, registered, clientId, origin);
            InitializeOAuth(sdkLoaded, once, clientId, origin) == once
  {
  }

  /** A credential as the identity manager returns it; `token` may be missing. */
  datatype Credential = Credential(server: string, token: Option<string>, userId: string)

  /** The `error` member of a profile response. */
  datatype ProfileError = ProfileError(message: Option<string>)

  /** The JSON body of `{server}/community/self`; every member may be missing. */
  datatype Profile = Profile(
    error: Option<ProfileError>,
    username: Option<string>,
    fullName: Option<string>,
    email: Option<string>,
    role: Option<string>,
    orgId: Option<string>)

  /** `credential && credential.token`. */
  predicate HasToken(c: Option<Credential>) {
    c.Some? && Truthy(c.value.token)
  }

  /** `!userInfo.error && userInfo.username`. */
  predicate ProfileAccepted(p: Profile) {
    p.error.None? && Truthy(p.username)
  }

  /** The user record built from an accepted profile: a missing or empty
      `fullName` falls back to the username, `role` to "user", `email` and
      `orgId` to the empty string. */
  function UserFromProfile(p: Profile): (u: UserInfo)
    requires Truthy(p.username)
    ensures u.username == p.username.value
    ensures Truthy(p.fullName) ==> u.fullName == p.fullName.value
    ensures !Truthy(p.fullName) ==> u.fullName == u.username
    ensures Truthy(p.role) ==> u.role == p.role.value
    ensures !Truthy(p.role) ==> u.role == DefaultRole
    ensures Truthy(p.email) ==> u.email == p.email.value
    ensures !Truthy(p.email) ==> u.email == ""
    ensures Truthy(p.orgId) ==> u.orgId == p.orgId.value
    ensures !Truthy(p.orgId) ==> u.orgId == ""
    ensures u.fullName != "" && u.role != ""
  {
    UserInfo(
      p.username.value,
      OrElse(p.fullName, p.username.value),
      OrElse(p.email, ""),
      OrElse(p.role, DefaultRole),
      OrElse(p.orgId, ""))
  }

  /** What `checkExistingAuth` dispatches, given the SDK's presence, the outcome
      of `checkSignInStatus` and the outcome of the profile request (fetch and
      JSON decoding together). `response.ok` is not consulted. */
  function SilentCheckDispatches(sdkLoaded: bool, status: Outcome<Option<Credential>>, profile: Outcome<Profile>)
    : (r: seq<AuthAction>)
    ensures |r| <= 1
    ensures r != [] <==>
      sdkLoaded && status.Resolved? && HasToken(status.value) && profile.Resolved? && ProfileAccepted(profile.value)
    ensures r != [] ==>
      r[0] == SetAuthentication(UserFromProfile(profile.value), status.value.value.token.value)
  {
    if sdkLoaded && status.Resolved? && HasToken(status.value) && profile.Resolved? && ProfileAccepted(profile.value)
    then [SetAuthentication(UserFromProfile(profile.value), status.value.value.token.value)]
    else []
  }

  /** A silent check never signs anybody out or reports an error: it either
      leaves the state alone or authenticates. */
  lemma {:induction false} SilentCheckOnlyAuthenticates(
    s: AuthState, sdkLoaded: bool, status: Outcome<Option<Credential>>, profile: Outcome<Profile>)
    ensures var d := SilentCheckDispatches(sdkLoaded, status, profile);
            var r := ReduceAll(s, d);
            && (d == [] ==> r == s)
            && (d != [] ==> r.isAuthenticated && r.token == Some(status.value.value.token.value) && r.error == None)
  {
    var d := SilentCheckDispatches(sdkLoaded, status, profile);
    if d != [] {
      assert d[..0] == [];
    }
  }

  /** `checkExistingAuth()`: authenticates only when the SDK is loaded, the
      identity manager holds a credential with a token, and the profile has no
      error and a username; every other path, a rejection included, leaves the
      store untouched. */
  method CheckExistingAuth(store: AuthStore, sdkLoaded: bool, status: Outcome<Option<Credential>>, profile: Outcome<Profile>)
    requires store.Valid()
    modifies store
    ensures store.Valid()
    ensures store.log == old(store.log) + SilentCheckDispatches(sdkLoaded, status, profile)
    ensures store.State() == ReduceAll(old(store.State()), SilentCheckDispatches(sdkLoaded, status, profile))
  {
    StoreAppend(store.log, SilentCheckDispatches(sdkLoaded, status, profile));
    if !sdkLoaded {
      assert store.log + [] == store.log;
      return;
    }
    match status
    case Rejected(_) =>
      assert store.log + [] == store.log;
    case Resolved(credential) =>
      if credential.Some? && Truthy(credential.value.token) {
        match profile
        case Rejected(_) =>
          assert store.log + [] == store.log;
        case Resolved(userInfo) =>
          if userInfo.error.None? && Truthy(userInfo.username) {
            store.SetAuthentication(UserFromProfile(userInfo), credential.value.token.value);
          } else {
            assert store.log + [] == store.log;
          }
      } else {
        assert store.log + [] == store.log;
      }
  }

  /** `signOut()`: asks the identity manager, when there is one, to destroy its
      credentials, and clears the slice whether or not that request fails. */
  method SignOut(store: AuthStore, identityManagerPresent: bool, destroyed: Outcome<()>)
    requires store.Valid()
    modifies store
    ensures store.Valid()
    ensures store.log == old(store.log) + [ClearAuthentication]
    ensures store.State() == InitialState()
  {
    if identityManagerPresent && destroyed.Rejected? {
      // the failure is only logged; local state is cleared all the same
      store.ClearAuthentication();
      return;
    }
    store.ClearAuthentication();
  }
}
