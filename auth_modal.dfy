/** The sign-in dialog. `handleSignIn` runs in two parts separated by the first
    await: pressing "Sign In" (the SDK check, the busy flags, the OAuth
    registration) and finishing once the identity manager's credential request
    and the profile request have settled (their results are inputs). While the
    request is in flight both buttons are disabled. */
module AuthModal {
  import opened Common
  import opened AuthSlice

  const SdkMissingMessage := "ArcGIS API not loaded. Please refresh the page and try again."
  const GenericMessage := "Failed to sign in. Please try again."
  const PopupMessage := "Sign in was cancelled or blocked. Please allow popups and try again."
  const NetworkMessage := "Network error. Please check your internet connection and try again."
  const UnavailableMessage := "ArcGIS service unavailable. Please try again later."
  const NoCredentialMessage := "Failed to obtain authentication credential"
  const NoUserInformationMessage := "Failed to get user information"
  const InvalidUserMessage := "Invalid user information received"
  const ModalCallbackUrl := "https://localhost:3000/oauth-callback.html"

  /** The settled `fetch` of the profile: status line and the outcome of `response.json()`. */
  datatype Response = Response(ok: bool, status: nat, statusText: string, body: Outcome<Profile>)

  /** The registration the dialog creates when the portal has none: the
      default app id, redirect flow, and a fixed local callback page rather
      than the page's own origin. */
  function ModalOAuthInfo(): (info: OAuthInfo)
    ensures info.appId == DefaultAppId && info.portalUrl == PortalUrl
    ensures !info.popup && info.flowType == "auto"
    ensures info.popupCallbackUrl == ModalCallbackUrl
  {
    OAuthInfo(DefaultAppId, false, PortalUrl, "auto", ModalCallbackUrl)
  }

  /** The portal's registration after pressing "Sign In": created only when
      `findOAuthInfo` finds none, never replaced. */
  function RegisterIfMissing(registered: Option<OAuthInfo>): (r: Option<OAuthInfo>)
    ensures r.Some?
    ensures registered.Some? ==> r == registered
    ensures registered.None? ==>
      && r.value.appId == DefaultAppId && r.value.portalUrl == PortalUrl
      && !r.value.popup && r.value.flowType == "auto" && r.value.popupCallbackUrl == ModalCallbackUrl
  {
    if registered.Some? then registered else Some(ModalOAuthInfo())
  }

  const StatusPrefix := "Failed to fetch user info: "

  /** The message thrown for a non-ok profile response: the prefix, the status
      code in decimal, a space and the status text. Reading the digits back
      gives the status code. */
  function StatusMessage(r: Response): (m: string)
    ensures |m| > |StatusPrefix| + |r.statusText| + 1
    ensures m[..|StatusPrefix|] == StatusPrefix
    ensures m[|m| - |r.statusText|..] == r.statusText && m[|m| - |r.statusText| - 1] == ' '
    ensures var digits := m[|StatusPrefix|..|m| - |r.statusText| - 1];
      && (forall i :: 0 <= i < |digits| ==> '0' <= digits[i] <= '9')
      && DigitsValue(digits) == r.status
  {
    var digits := DecimalString(r.status);
    DecimalStringValue(r.status);
    Splice(StatusPrefix, digits, r.statusText);
    StatusPrefix + digits + " " + r.statusText
  }

  /** The parts of `p + d + " " + t` sit where they were put. */
  lemma Splice(p: string, d: string, t: string)
    ensures var m := p + d + " " + t;
      && |m| == |p| + |d| + 1 + |t|
      && m[..|p|] == p && m[|p|..|m| - |t| - 1] == d
      && m[|m| - |t| - 1] == ' ' && m[|m| - |t|..] == t
  {
    var m := p + d + " " + t;
    assert m[..|p|] == p;
    assert m[|p|..|p| + |d|] == d;
    assert m[|p| + |d| + 1..] == t;
  }

  /** How the `try` block of `handleSignIn` ends. */
  datatype Attempt = SignedIn(user: UserInfo, token: string) | Failed(thrown: Thrown)

  /** The `try` block of `handleSignIn` after the registration: the first
      failing step decides what is thrown. */
  function SignInAttempt(credential: Outcome<Option<Credential>>, response: Outcome<Response>): (r: Attempt)
    ensures r.SignedIn? <==>
      && credential.Resolved? && HasToken(credential.value)
      && response.Resolved? && response.value.ok
      && response.value.body.Resolved? && ProfileAccepted(response.value.body.value)
    ensures r.SignedIn? ==>
      r.user == UserFromProfile(response.value.body.value) && r.token == credential.value.value.token.value
    ensures credential.Rejected? ==> r == Failed(credential.reason)
    ensures credential.Resolved? && !HasToken(credential.value) ==> r == Failed(ErrorValue(NoCredentialMessage))
    ensures credential.Resolved? && HasToken(credential.value) ==>
      && (response.Rejected? ==> r == Failed(response.reason))
      && (response.Resolved? && !response.value.ok ==> r == Failed(ErrorValue(StatusMessage(response.value))))
      && (response.Resolved? && response.value.ok && response.value.body.Rejected? ==>
            r == Failed(response.value.body.reason))
    ensures credential.Resolved? && HasToken(credential.value) && response.Resolved? && response.value.ok &&
            response.value.body.Resolved? ==>
      var p := response.value.body.value;
      && (p.error.Some? ==> r == Failed(ErrorValue(OrElse(p.error.value.message, NoUserInformationMessage))))
      && (p.error.None? && !Truthy(p.username) ==> r == Failed(ErrorValue(InvalidUserMessage)))
  {
    match credential
    case Rejected(t) => Failed(t)
    case Resolved(c) =>
      if !HasToken(c) then Failed(ErrorValue(NoCredentialMessage))
      else match response
        case Rejected(t) => Failed(t)
        case Resolved(resp) =>
          if !resp.ok then Failed(ErrorValue(StatusMessage(resp)))
          else match resp.body
            case Rejected(t) => Failed(t)
            case Resolved(p) =>
              if p.error.Some? then Failed(ErrorValue(OrElse(p.error.value.message, NoUserInformationMessage)))
              else if !Truthy(p.username) then Failed(ErrorValue(InvalidUserMessage))
              else SignedIn(UserFromProfile(p), c.value.token.value)
  }

  /** The message the `catch` block shows, decided in order: "popup" first,
      then "network", then "ArcGIS", else the error's own message; a thrown
      value that is not an `Error` gives the generic text. */
  function SignInErrorMessage(t: Thrown): (m: string)
    ensures t.NonErrorValue? ==> m == GenericMessage
    ensures t.ErrorValue? && Contains(t.message, "popup") ==> m == PopupMessage
    ensures t.ErrorValue? && !Contains(t.message, "popup") && Contains(t.message, "network") ==> m == NetworkMessage
    ensures (t.ErrorValue? && !Contains(t.message, "popup") && !Contains(t.message, "network") &&
             Contains(t.message, "ArcGIS")) ==> m == UnavailableMessage
    ensures (t.ErrorValue? && !Contains(t.message, "popup") && !Contains(t.message, "network") &&
             !Contains(t.message, "ArcGIS")) ==> m == t.message
  {
    match t
    case NonErrorValue => GenericMessage
    case ErrorValue(message) =>
      if Contains(message, "popup") then PopupMessage
      else if Contains(message, "network") then NetworkMessage
      else if Contains(message, "ArcGIS") then UnavailableMessage
      else message
  }

  /** What pressing "Sign In" dispatches before the credential request:
      without the SDK only the error, otherwise the busy flag raised and the
      error cleared. It never touches the user or the token. */
  function PressDispatches(sdkLoaded: bool): (r: seq<AuthAction>)
    ensures !sdkLoaded ==> r == [SetError(Some(SdkMissingMessage))]
    ensures sdkLoaded ==> r == [SetLoading(true), SetError(None)]
    ensures forall i :: 0 <= i < |r| ==> r[i].SetLoading? || r[i].SetError?
  {
    if !sdkLoaded then [SetError(Some(SdkMissingMessage))]
    else [SetLoading(true), SetError(None)]
  }

  /** What the rest of `handleSignIn` dispatches once the requests have
      settled: the outcome of the try or the catch block, then the finally
      block's `setLoading(false)`. */
  function FinishDispatches(credential: Outcome<Option<Credential>>, response: Outcome<Response>)
    : (r: seq<AuthAction>)
    ensures |r| == 2 && r[1] == SetLoading(false)
    ensures r[0].SetAuthentication? <==> SignInAttempt(credential, response).SignedIn?
    ensures !r[0].SetAuthentication? ==>
      r[0] == SetError(Some(SignInErrorMessage(SignInAttempt(credential, response).thrown)))
    ensures r[0].SetAuthentication? ==>
      r[0].user == SignInAttempt(credential, response).user && r[0].token == SignInAttempt(credential, response).token
  {
    match SignInAttempt(credential, response)
    case SignedIn(u, t) => [SetAuthentication(u, t), SetLoading(false)]
    case Failed(thrown) => [SetError(Some(SignInErrorMessage(thrown))), SetLoading(false)]
  }

  /** Everything one sign-in attempt dispatches: the press part, then, when the
      SDK is there, the finish part, so the last action lowers the busy flag. */
  function SignInDispatches(sdkLoaded: bool, credential: Outcome<Option<Credential>>, response: Outcome<Response>)
    : (r: seq<AuthAction>)
    ensures !sdkLoaded ==> r == [SetError(Some(SdkMissingMessage))]
    ensures sdkLoaded ==> |r| == 4 && r[..2] == [SetLoading(true), SetError(None)] && r[3] == SetLoading(false)
    ensures sdkLoaded ==> r[2..] == FinishDispatches(credential, response)
  {
    PressDispatches(sdkLoaded) + (if sdkLoaded then FinishDispatches(credential, response) else [])
  }

  /** The effect of one sign-in attempt on the auth slice. Without the SDK only
      the error changes. Otherwise the attempt always ends with `loading`
      false; it authenticates with the defaulted user and the credential's token
      exactly when the try block succeeds, and otherwise records the classified
      message and leaves the user, token and flag as they were. */
  lemma {:induction false} SignInEffect(
    s: AuthState, sdkLoaded: bool, credential: Outcome<Option<Credential>>, response: Outcome<Response>)
    ensures var r := ReduceAll(s, SignInDispatches(sdkLoaded, credential, response));
            var attempt := SignInAttempt(credential, response);
      && (!sdkLoaded ==> r == s.(error := Some(SdkMissingMessage)))
      && (sdkLoaded ==> !r.loading)
      && (sdkLoaded && attempt.SignedIn? ==>
            r.isAuthenticated && r.user == Some(attempt.user) && r.token == Some(attempt.token) && r.error == None)
      && (sdkLoaded && attempt.Failed? ==>
            && r.error == Some(SignInErrorMessage(attempt.thrown))
            && r.isAuthenticated == s.isAuthenticated && r.user == s.user && r.token == s.token)
  {
    var press := PressDispatches(sdkLoaded);
    if !sdkLoaded {
      assert SignInDispatches(sdkLoaded, credential, response) == press;
      assert press[..0] == [];
    } else {
      var finish := FinishDispatches(credential, response);
      ReduceAllAppend(s, press, finish);
      PressStartsLoading(s);
      var mid := ReduceAll(s, press);
      var a0, a1 := finish[0], finish[1];
      assert finish == [a0, a1] && finish[..1] == [a0] && [a0][..0] == [];
      assert ReduceAll(mid, [a0]) == Reduce(ReduceAll(mid, []), a0) == Reduce(mid, a0);
      assert ReduceAll(mid, finish) == Reduce(Reduce(mid, finish[0]), finish[1]);
    }
  }

  /** Before the credential request is made, `loading` is set and the error is cleared. */
  lemma PressStartsLoading(s: AuthState)
    ensures ReduceAll(s, PressDispatches(true)) == s.(loading := true, error := None)
  {
    var d := PressDispatches(true);
    assert d[..1] == [SetLoading(true)] && [SetLoading(true)][..0] == [];
  }

  /** The `try` block of `handleSignIn` from the credential request on, step
      by step; every check that fails throws and skips the rest. */
  method TrySignIn(credential: Outcome<Option<Credential>>, response: Outcome<Response>) returns (attempt: Attempt)
    ensures attempt == SignInAttempt(credential, response)
  {
    if credential.Rejected? {
      return Failed(credential.reason);
    }
    if !HasToken(credential.value) {
      return Failed(ErrorValue(NoCredentialMessage));
    }
    if response.Rejected? {
      return Failed(response.reason);
    }
    if !response.value.ok {
      return Failed(ErrorValue(StatusMessage(response.value)));
    }
    if response.value.body.Rejected? {
      return Failed(response.value.body.reason);
    }
    var userInfo := response.value.body.value;
    if userInfo.error.Some? {
      return Failed(ErrorValue(OrElse(userInfo.error.value.message, NoUserInformationMessage)));
    }
    if !Truthy(userInfo.username) {
      return Failed(ErrorValue(InvalidUserMessage));
    }
    attempt := SignedIn(UserFromProfile(userInfo), credential.value.value.token.value);
  }

  /** The `catch` block's message: a generic default, overwritten in order. */
  method ClassifySignInError(thrown: Thrown) returns (errorMessage: string)
    ensures errorMessage == SignInErrorMessage(thrown)
  {
    errorMessage := GenericMessage;
    if thrown.ErrorValue? {
      if Contains(thrown.message, "popup") {
        errorMessage := PopupMessage;
      } else if Contains(thrown.message, "network") {
        errorMessage := NetworkMessage;
      } else if Contains(thrown.message, "ArcGIS") {
        errorMessage := UnavailableMessage;
      } else {
        errorMessage := thrown.message;
      }
    }
  }

  /** The dialog's local state. `auth` is the store it dispatches to. */
  class Modal {
    var isSigningIn: bool
    const auth: AuthStore

    constructor (auth: AuthStore)
      ensures this.auth == auth && !isSigningIn
    {
      this.auth := auth;
      isSigningIn := false;
    }

    /** "Cancel": calls `onClose` unless the button is disabled by a sign-in in flight. */
    method PressCancel() returns (closed: bool)
      ensures closed <==> !isSigningIn
    {
      closed := !isSigningIn;
    }

    /** "Sign In", up to the credential request. A disabled button (a sign-in
        already in flight) does nothing. Without the SDK only the error is set;
        otherwise the busy flags are raised, the error cleared and the OAuth
        registration made if missing. */
    method PressSignIn(sdkLoaded: bool, registered: Option<OAuthInfo>)
      returns (started: bool, registeredAfter: Option<OAuthInfo>)
      requires auth.Valid()
      modifies this, auth
      ensures auth.Valid()
      ensures old(isSigningIn) ==> !started && isSigningIn && registeredAfter == registered && unchanged(auth)
      ensures !old(isSigningIn) ==>
        && started == sdkLoaded && isSigningIn == sdkLoaded
        && auth.log == old(auth.log) + PressDispatches(sdkLoaded)
        && registeredAfter == (if sdkLoaded then RegisterIfMissing(registered) else registered)
    {
      started, registeredAfter := false, registered;
      if isSigningIn {
        return;
      }
      if !sdkLoaded {
        auth.SetError(Some(SdkMissingMessage));
        return;
      }
      isSigningIn := true;
      auth.SetLoading(true);
      auth.SetError(None);
      if registered.None? {
        registeredAfter := Some(ModalOAuthInfo());
      }
      started := true;
    }

    /** The rest of `handleSignIn`: the try block over the settled results, the
        classification in the catch block, and the finally block that always
        lowers both busy flags. `closed` says whether `onClose` was called. */
    method FinishSignIn(credential: Outcome<Option<Credential>>, response: Outcome<Response>)
      returns (closed: bool)
      requires auth.Valid() && isSigningIn
      modifies this, auth
      ensures auth.Valid() && !isSigningIn
      ensures auth.log == old(auth.log) + FinishDispatches(credential, response)
      ensures closed <==> SignInAttempt(credential, response).SignedIn?
    {
      closed := false;
      var attempt := TrySignIn(credential, response);
      match attempt {
        case SignedIn(user, token) =>
          auth.SetAuthentication(user, token);
          closed := true;
        case Failed(thrown) =>
          var errorMessage := ClassifySignInError(thrown);
          auth.SetError(Some(errorMessage));
      }
      // finally
      isSigningIn := false;
      auth.SetLoading(false);
    }
  }
}
