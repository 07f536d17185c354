/** The application shell: the organisation taken from the URL, the mock
    configuration stored at start-up and the authentication thunks that follow
    it, the "SDK ready" latch driven by a timeout and a polling interval, and
    the decision between the loading spinner and the shell. The URL parameter,
    the SDK globals and the timer callbacks are inputs and events. */
module App {
  import opened Common
  import ConfigSlice
  import AuthSlice

  const DefaultOrganisation := "copper-string"
  const DemoClientId := "arcgis-js-api-demo-app"

  /** The `organisation` URL parameter, or the default when it is missing or empty. */
  function Organisation(param: Option<string>): (o: string)
    ensures Truthy(param) ==> o == param.value
    ensures !Truthy(param) ==> o == DefaultOrganisation
    ensures o != ""
  {
    OrElse(param, DefaultOrganisation)
  }

  /** The configuration `loadAppConfig` stores for an organisation. */
  function MockConfig(organisation: string): (c: ConfigSlice.AppConfig)
    ensures c.organisation == organisation
    ensures c.clientId == DemoClientId && c.portalUrl == AuthSlice.PortalUrl
    ensures c.defaultMapId.None?
  {
    ConfigSlice.AppConfig(
      organisation,
      "GeoVez Web Mapping",
      "/logo.png",
      ConfigSlice.ThemeColors("#0079C1", "#005CE6", "#00B6F0", "#F8F8F8", "#FFFFFF", "#323232"),
      ConfigSlice.SocialLinks(
        Some("https://facebook.com"),
        Some("https://twitter.com"),
        Some("https://linkedin.com"),
        Some("mailto:contact@geovez.com"),
        Some("mailto:feedback@geovez.com")),
      DemoClientId,
      AuthSlice.PortalUrl,
      None)
  }

  /** What the shell dispatches, in order: slice actions and thunks. */
  datatype Dispatched =
    | ConfigDispatch(action: ConfigSlice.ConfigAction)
    | InitializeOAuthThunk(clientId: string)
    | CheckExistingAuthThunk

  /** `loadAppConfig(organisation)`: the configuration first; the two
      authentication thunks only when the SDK global is present. */
  function BootDispatches(organisation: string, esriPresent: bool): (r: seq<Dispatched>)
    ensures |r| >= 1 && r[0] == ConfigDispatch(ConfigSlice.SetConfig(MockConfig(organisation)))
    ensures |r| > 1 <==> esriPresent
    ensures forall i :: 0 < i < |r| ==> !r[i].ConfigDispatch?
    ensures esriPresent ==> r[1..] == [InitializeOAuthThunk(DemoClientId), CheckExistingAuthThunk]
  {
    [ConfigDispatch(ConfigSlice.SetConfig(MockConfig(organisation)))]
      + (if esriPresent then [InitializeOAuthThunk(DemoClientId), CheckExistingAuthThunk] else [])
  }

  // ---------------------------------------------------------------------------
  // The "SDK ready" latch

  /** `arcgisLoaded` and the two timers: whether each is scheduled and not yet
      cleared or fired, and whether the mount effect is in place. */
  datatype Readiness = Readiness(arcgisLoaded: bool, timeoutPending: bool, intervalPending: bool, mounted: bool)

  /** The events that drive the latch; `detected` is the outcome of the
      presence check (`esri` or `require` defined). */
  datatype ReadinessEvent =
    | EffectMounted(detected: bool)
    | TimeoutFired
    | IntervalFired(detected: bool)
    | EffectCleanedUp

  function InitialReadiness(): Readiness {
    Readiness(false, false, false, false)
  }

  function ReadinessStep(s: Readiness, e: ReadinessEvent): (r: Readiness)
    ensures s.arcgisLoaded ==> r.arcgisLoaded
    ensures e.EffectMounted? ==>
      && r.mounted && (r.arcgisLoaded <==> s.arcgisLoaded || e.detected)
      && (r.timeoutPending <==> !e.detected) && (r.intervalPending <==> !e.detected)
    ensures e.TimeoutFired? && s.timeoutPending ==> r.arcgisLoaded && !r.timeoutPending
    ensures e.IntervalFired? && s.intervalPending && e.detected ==>
      r.arcgisLoaded && !r.timeoutPending && !r.intervalPending
    ensures (e.TimeoutFired? && !s.timeoutPending) || (e.IntervalFired? && !(s.intervalPending && e.detected)) ==>
      r == s
    ensures e.EffectCleanedUp? ==> !r.timeoutPending && !r.intervalPending && !r.mounted
  {
    match e
    case EffectMounted(detected) =>
      if detected then s.(arcgisLoaded := true, timeoutPending := false, intervalPending := false, mounted := true)
      else s.(timeoutPending := true, intervalPending := true, mounted := true)
    case TimeoutFired =>
      if s.timeoutPending then s.(arcgisLoaded := true, timeoutPending := false) else s
    case IntervalFired(detected) =>
      if s.intervalPending && detected
      then s.(arcgisLoaded := true, timeoutPending := false, intervalPending := false)
      else s
    case EffectCleanedUp =>
      s.(timeoutPending := false, intervalPending := false, mounted := false)
  }

  /** The latch after `events`, in order, starting from `s`. Every event keeps
      the timers armed while the shell waits. */
  function ReadinessRun(s: Readiness, events: seq<ReadinessEvent>): (r: Readiness)
    ensures Armed(s) ==> Armed(r)
    decreases |events|
  {
    if events == [] then s
    else ReadinessStep(ReadinessRun(s, events[..|events| - 1]), events[|events| - 1])
  }

  /** While mounted and not yet ready, both timers are still scheduled; a
      timer is only scheduled while mounted. */
  predicate Armed(s: Readiness) {
    && (s.mounted && !s.arcgisLoaded ==> s.timeoutPending && s.intervalPending)
    && (s.timeoutPending || s.intervalPending ==> s.mounted)
  }

  /** Once set, `arcgisLoaded` stays set, whatever happens next. */
  lemma {:induction false} LatchNeverResets(s: Readiness, events: seq<ReadinessEvent>)
    requires s.arcgisLoaded
    ensures ReadinessRun(s, events).arcgisLoaded
    decreases |events|
  {
    if events != [] {
      LatchNeverResets(s, events[..|events| - 1]);
    }
  }

  /** Every reachable state is armed: a mounted shell that is still waiting
      always has its timeout scheduled (the initial state is armed, and runs
      keep it so). */
  lemma ReachableReadinessArmed(events: seq<ReadinessEvent>)
    ensures Armed(ReadinessRun(InitialReadiness(), events))
  {
  }

  /** The spinner cannot last beyond the timeout: in any reachable mounted
      state, the timeout firing sets the latch, whether or not the SDK ever
      appeared. */
  lemma TimeoutEndsWaiting(events: seq<ReadinessEvent>)
    ensures var s := ReadinessRun(InitialReadiness(), events);
            s.mounted ==> ReadinessStep(s, TimeoutFired).arcgisLoaded
  {
    ReachableReadinessArmed(events);
  }

  // ---------------------------------------------------------------------------
  // Render gating

  /** What the shell renders: the spinner, or the shell with its optional parts. */
  datatype Screen = Spinner | Shell(sideNavCollapsed: bool, drawerPanel: bool, authModal: bool)

  function Gate(
    configLoading: bool, config: Option<ConfigSlice.AppConfig>, arcgisLoaded: bool,
    sideNavOpen: bool, drawerOpen: bool, showAuthModal: bool): (r: Screen)
    ensures r.Spinner? <==> configLoading || config.None? || !arcgisLoaded
    ensures r.Shell? ==> (r.drawerPanel <==> drawerOpen) && (r.authModal <==> showAuthModal)
    ensures r.Shell? ==> (r.sideNavCollapsed <==> !sideNavOpen)
  {
    if configLoading || config.None? then Spinner
    else if !arcgisLoaded then Spinner
    else Shell(!sideNavOpen, drawerOpen, showAuthModal)
  }

  /** Once the configuration is stored and the latch is set, the shell is
      shown, whatever the configuration slice held before. */
  lemma {:induction false} ShellAfterBoot(
    cs: ConfigSlice.ConfigState, organisation: string, later: seq<ConfigSlice.ConfigAction>,
    sideNavOpen: bool, drawerOpen: bool, showAuthModal: bool)
    requires forall i :: 0 <= i < |later| ==> later[i].SetLoading? ==> !later[i].loading
    requires forall i :: 0 <= i < |later| ==> later[i].SetLoading? || later[i].SetError?
    ensures var c := ConfigSlice.ReduceAll(ConfigSlice.Reduce(cs, ConfigSlice.SetConfig(MockConfig(organisation))), later);
            Gate(c.loading, c.config, true, sideNavOpen, drawerOpen, showAuthModal).Shell?
    decreases |later|
  {
    ConfigSlice.ConfigSurvivesFlags(cs, MockConfig(organisation), later);
    if later != [] {
      ShellAfterBoot(cs, organisation, later[..|later| - 1], sideNavOpen, drawerOpen, showAuthModal);
    }
  }

  /** The shell component's own state and the stores it dispatches to.
      `dispatched` records what it dispatched, in order. */
  class AppShell {
    var arcgisLoaded: bool
    var timeoutPending: bool
    var intervalPending: bool
    var mounted: bool
    var showAuthModal: bool
    ghost var dispatched: seq<Dispatched>
    const config: ConfigSlice.ConfigStore
    const auth: AuthSlice.AuthStore

    function Latch(): Readiness
      reads this
    {
      Readiness(arcgisLoaded, timeoutPending, intervalPending, mounted)
    }

    constructor (config: ConfigSlice.ConfigStore, auth: AuthSlice.AuthStore)
      ensures this.config == config && this.auth == auth
      ensures Latch() == InitialReadiness() && !showAuthModal && dispatched == []
    {
      this.config := config;
      this.auth := auth;
      arcgisLoaded, timeoutPending, intervalPending, mounted := false, false, false, false;
      showAuthModal := false;
      dispatched := [];
    }

    /** `loadAppConfig(organisation)`. `registered` is the portal's OAuth
        registration before the call, `status` and `profile` how the silent
        check's requests settle. */
    method LoadAppConfig(
      organisation: string, esriPresent: bool, registered: Option<AuthSlice.OAuthInfo>, origin: string,
      status: Outcome<Option<AuthSlice.Credential>>, profile: Outcome<AuthSlice.Profile>)
      returns (registeredAfter: Option<AuthSlice.OAuthInfo>)
      requires config.Valid() && auth.Valid()
      modifies this, config, auth
      ensures config.Valid() && auth.Valid()
      ensures Latch() == old(Latch()) && showAuthModal == old(showAuthModal)
      ensures dispatched == old(dispatched) + BootDispatches(organisation, esriPresent)
      ensures config.log == old(config.log) + [ConfigSlice.SetConfig(MockConfig(organisation))]
      ensures config.State().config == Some(MockConfig(organisation)) && !config.State().loading
      ensures !esriPresent ==> unchanged(auth) && registeredAfter == registered
      ensures esriPresent ==>
        && auth.log == old(auth.log) + AuthSlice.SilentCheckDispatches(true, status, profile)
        && registeredAfter == AuthSlice.InitializeOAuth(true, registered, DemoClientId, origin)
    {
      var c := MockConfig(organisation);
      config.SetConfig(c);
      dispatched := dispatched + [ConfigDispatch(ConfigSlice.SetConfig(c))];
      registeredAfter := registered;
      if esriPresent {
        registeredAfter := AuthSlice.InitializeOAuth(true, registered, c.clientId, origin);
        dispatched := dispatched + [InitializeOAuthThunk(c.clientId)];
        AuthSlice.CheckExistingAuth(auth, true, status, profile);
        dispatched := dispatched + [CheckExistingAuthThunk];
      }
    }

    /** The mount effect: the configuration is loaded for the organisation in
        the URL, the timeout is scheduled, and the presence check runs once
        immediately; if it fails the polling interval is scheduled. */
    method Mount(
      param: Option<string>, esriPresent: bool, requirePresent: bool,
      registered: Option<AuthSlice.OAuthInfo>, origin: string,
      status: Outcome<Option<AuthSlice.Credential>>, profile: Outcome<AuthSlice.Profile>)
      returns (registeredAfter: Option<AuthSlice.OAuthInfo>)
      requires config.Valid() && auth.Valid()
      modifies this, config, auth
      ensures config.Valid() && auth.Valid()
      ensures dispatched == old(dispatched) + BootDispatches(Organisation(param), esriPresent)
      ensures config.log == old(config.log) + [ConfigSlice.SetConfig(MockConfig(Organisation(param)))]
      ensures config.State().config == Some(MockConfig(Organisation(param))) && !config.State().loading
      ensures !esriPresent ==> unchanged(auth) && registeredAfter == registered
      ensures esriPresent ==>
        && auth.log == old(auth.log) + AuthSlice.SilentCheckDispatches(true, status, profile)
        && registeredAfter == AuthSlice.InitializeOAuth(true, registered, DemoClientId, origin)
      ensures Latch() == ReadinessStep(old(Latch()), EffectMounted(esriPresent || requirePresent))
      ensures showAuthModal == old(showAuthModal)
    {
      var organisation := Organisation(param);
      registeredAfter := LoadAppConfig(organisation, esriPresent, registered, origin, status, profile);
      timeoutPending := true;
      mounted := true;
      if esriPresent || requirePresent {
        timeoutPending := false;
        arcgisLoaded := true;
        intervalPending := false;
        return;
      }
      intervalPending := true;
    }

    /** The timeout callback: gives up waiting, SDK or not. */
    method TimeoutFires()
      modifies this
      ensures Latch() == ReadinessStep(old(Latch()), TimeoutFired)
      ensures showAuthModal == old(showAuthModal) && dispatched == old(dispatched)
    {
      if timeoutPending {
        arcgisLoaded := true;
        timeoutPending := false;
      }
    }

    /** The interval callback: a successful check clears both timers. */
    method IntervalFires(detected: bool)
      modifies this
      ensures Latch() == ReadinessStep(old(Latch()), IntervalFired(detected))
      ensures showAuthModal == old(showAuthModal) && dispatched == old(dispatched)
    {
      if intervalPending && detected {
        timeoutPending := false;
        arcgisLoaded := true;
        intervalPending := false;
      }
    }

    /** The effect's cleanup on unmount. */
    method Unmount()
      modifies this
      ensures Latch() == ReadinessStep(old(Latch()), EffectCleanedUp)
      ensures showAuthModal == old(showAuthModal) && dispatched == old(dispatched)
    {
      intervalPending := false;
      timeoutPending := false;
      mounted := false;
    }

    /** The header's sign-in button opens the dialog; the dialog's `onClose` hides it. */
    method SetShowAuthModal(show: bool)
      modifies this
      ensures showAuthModal == show && Latch() == old(Latch()) && dispatched == old(dispatched)
    {
      showAuthModal := show;
    }
  }
}
