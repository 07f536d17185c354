/** The configuration slice: the organisation's application configuration,
    a busy flag and the last error, with four reducers. */
module ConfigSlice {
  import opened Common

  datatype ThemeColors = ThemeColors(
    primary: string, secondary: string, accent: string, background: string, surface: string, text: string)

  /** Every link is optional. */
  datatype SocialLinks = SocialLinks(
    facebook: Option<string>,
    twitter: Option<string>,
    linkedin: Option<string>,
    contactUs: Option<string>,
    feedback: Option<string>)

  datatype AppConfig = AppConfig(
    organisation: string,
    appTitle: string,
    logoUrl: string,
    theme: ThemeColors,
    socialLinks: SocialLinks,
    clientId: string,
    portalUrl: string,
    defaultMapId: Option<string>)

  datatype ConfigState = ConfigState(config: Option<AppConfig>, loading: bool, error: Option<string>)

  /** One constructor per reducer, carrying its payload. */
  datatype ConfigAction =
    | SetConfig(config: AppConfig)
    | SetLoading(loading: bool)
    | SetError(error: Option<string>)
    | ClearConfig

  datatype ConfigField = ConfigValueField | LoadingField | ErrorField

  /** `s` and `t` agree on field `f`. */
  predicate SameField(s: ConfigState, t: ConfigState, f: ConfigField) {
    match f
    case ConfigValueField => s.config == t.config
    case LoadingField => s.loading == t.loading
    case ErrorField => s.error == t.error
  }

  /** The fields a reducer assigns. */
  function Writes(a: ConfigAction): set<ConfigField> {
    match a
    case SetConfig(_) => {ConfigValueField, LoadingField, ErrorField}
    case SetLoading(_) => {LoadingField}
    case SetError(_) => {ErrorField, LoadingField}
    case ClearConfig => {ConfigValueField, LoadingField, ErrorField}
  }

  /** `initialState`: no configuration, idle, no error. */
  function InitialState(): (s: ConfigState)
    ensures s.config == None && !s.loading && s.error == None
  {
    ConfigState(None, false, None)
  }

  /** The slice reducer. */
  function Reduce(s: ConfigState, a: ConfigAction): (r: ConfigState)
    ensures forall f :: f !in Writes(a) ==> SameField(s, r, f)
    ensures a.SetConfig? ==> r.config == Some(a.config) && !r.loading && r.error == None
    ensures a.SetLoading? ==> r.loading == a.loading
    ensures a.SetError? ==> r.error == a.error && !r.loading
    ensures a.ClearConfig? ==> r == InitialState()
  {
    match a
    case SetConfig(c) => s.(config := Some(c), loading := false, error := None)
    case SetLoading(b) => s.(loading := b)
    case SetError(e) => s.(error := e, loading := false)
    case ClearConfig => s.(config := None, loading := false, error := None)
  }

  /** The state after reducing `actions` in order, starting from `s`. */
  function ReduceAll(s: ConfigState, actions: seq<ConfigAction>): ConfigState
    decreases |actions|
  {
    if actions == [] then s
    else Reduce(ReduceAll(s, actions[..|actions| - 1]), actions[|actions| - 1])
  }

  lemma {:induction false} ReduceAllAppend(s: ConfigState, xs: seq<ConfigAction>, ys: seq<ConfigAction>)
    ensures ReduceAll(s, xs + ys) == ReduceAll(ReduceAll(s, xs), ys)
    decreases |ys|
  {
    if ys == [] {
      assert xs + ys == xs;
    } else {
      assert (xs + ys)[..|xs + ys| - 1] == xs + ys[..|ys| - 1];
      ReduceAllAppend(s, xs, ys[..|ys| - 1]);
    }
  }

  /** `clearConfig` returns to the initial state from any state, so it is
      idempotent and forgets everything dispatched before it. */
  lemma {:induction false} ClearConfigResets(s: ConfigState, before: seq<ConfigAction>)
    ensures Reduce(s, ClearConfig) == InitialState()
    ensures Reduce(Reduce(s, ClearConfig), ClearConfig) == Reduce(s, ClearConfig)
    ensures ReduceAll(s, before + [ClearConfig]) == InitialState()
  {
    ReduceAllAppend(s, before, [ClearConfig]);
    assert [ClearConfig][..0] == [];
  }

  /** Once a configuration is stored, only `clearConfig` or another
      `setConfig` replaces it. */
  lemma {:induction false} ConfigSurvivesFlags(s: ConfigState, c: AppConfig, later: seq<ConfigAction>)
    requires forall i :: 0 <= i < |later| ==> later[i].SetLoading? || later[i].SetError?
    ensures ReduceAll(Reduce(s, SetConfig(c)), later).config == Some(c)
    decreases |later|
  {
    if later != [] {
      ConfigSurvivesFlags(s, c, later[..|later| - 1]);
    }
  }

  /** The slice's state object, updated in place by its reducers. `log` is the
      history of actions the store has reduced. */
  class ConfigStore {
    var config: Option<AppConfig>
    var loading: bool
    var error: Option<string>
    ghost var log: seq<ConfigAction>

    function State(): ConfigState
      reads this
    {
      ConfigState(config, loading, error)
    }

    /** The state is the fold of the history. */
    ghost predicate Valid()
      reads this
    {
      State() == ReduceAll(InitialState(), log)
    }

    constructor ()
      ensures Valid() && log == [] && State() == InitialState()
    {
      config, loading, error := None, false, None;
      log := [];
    }

    method SetConfig(c: AppConfig)
      requires Valid()
      modifies this
      ensures Valid() && log == old(log) + [ConfigAction.SetConfig(c)]
      ensures State() == Reduce(old(State()), ConfigAction.SetConfig(c))
    {
      config := Some(c);
      loading := false;
      error := None;
      log := log + [ConfigAction.SetConfig(c)];
    }

    method SetLoading(b: bool)
      requires Valid()
      modifies this
      ensures Valid() && log == old(log) + [ConfigAction.SetLoading(b)]
      ensures State() == Reduce(old(State()), ConfigAction.SetLoading(b))
    {
      loading := b;
      log := log + [ConfigAction.SetLoading(b)];
    }

    method SetError(e: Option<string>)
      requires Valid()
      modifies this
      ensures Valid() && log == old(log) + [ConfigAction.SetError(e)]
      ensures State() == Reduce(old(State()), ConfigAction.SetError(e))
    {
      error := e;
      loading := false;
      log := log + [ConfigAction.SetError(e)];
    }

    method ClearConfig()
      requires Valid()
      modifies this
      ensures Valid() && log == old(log) + [ConfigAction.ClearConfig]
      ensures State() == Reduce(old(State()), ConfigAction.ClearConfig)
    {
      config := None;
      loading := false;
      error := None;
      log := log + [ConfigAction.ClearConfig];
    }
  }
}
