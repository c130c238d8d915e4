/**
 * The login page: where a successful sign-in returns to, which field values
 * let the form through, and what the two sign-in handlers show and where
 * they navigate.
 */
module LoginPage {
  import opened Wrappers
  import opened JsValues
  import opened Effects
  import opened FieldRules
  import opened Session

  /** The page the visitor was sent away from (`location.state.from`), or the home page. */
  function ReturnTarget(from: Option<string>): (target: string)
    ensures target != ""
    ensures from.Some? && from.value != "" ==> target == from.value
    ensures from.None? || from == Some("") ==> target == "/"
  {
    TextOr(from, "/")
  }

  /** The form reaches `onSubmit` only when both fields pass their rules. */
  predicate LoginFormValid(email: string, password: string) {
    EmailError(email).None? && LoginPasswordError(password).None?
  }

  /** Any non-empty password passes: the login form checks no length and no letter case. */
  lemma LoginAcceptsAnyPassword(email: string, password: string)
    ensures LoginFormValid(email, password) <==> ValidEmail(email) && password != ""
  {
  }

  /** What a settled sign-in shows, and where it goes: back to the target, replacing the login page. */
  function SignInEffects(target: string, reply: Reply, fallback: string): seq<Effect> {
    match reply
    case Ok => [ToastSuccess("Login successful!"), Navigate(target, true, None)]
    case Failed(message) => [ToastError(TextOr(message, fallback))]
  }

  /**
   * A sign-in navigates exactly when it succeeds, and then only to the return
   * target with `replace`; a failure shows the provider's message or the
   * fallback. Neither sends a request of its own.
   */
  lemma SignInNavigatesOnlyOnSuccess(from: Option<string>, reply: Reply, fallback: string)
    ensures Navigates(SignInEffects(ReturnTarget(from), reply, fallback)) <==> reply.Ok?
    ensures reply.Ok? ==> SignInEffects(ReturnTarget(from), reply, fallback)[1] == Navigate(ReturnTarget(from), true, None)
    ensures reply.Failed? ==> SignInEffects(ReturnTarget(from), reply, fallback) == [ToastError(TextOr(reply.message, fallback))]
    ensures Requests(SignInEffects(ReturnTarget(from), reply, fallback)) == []
  {
    var es := SignInEffects(ReturnTarget(from), reply, fallback);
    if reply.Ok? {
      assert es[1].Navigate?;
    }
    RequestsNone(es);
  }

  /** The login form: its return target, its busy flag and what it has shown and navigated. */
  class LoginForm {
    const from: Option<string>
    var loading: bool
    var effects: seq<Effect>

    constructor(from0: Option<string>)
      ensures from == from0 && !loading && effects == []
    {
      from := from0;
      loading := false;
      effects := [];
    }

    /**
     * Submitting the form: nothing happens unless both fields pass; otherwise
     * the password sign-in runs and its outcome is shown, and the form is
     * idle again afterwards whatever the outcome.
     */
    method Submit(session: AuthSession, email: string, password: string, signedIn: Reply)
      modifies this, session
      ensures !LoginFormValid(email, password) ==> unchanged(this) && unchanged(session)
      ensures LoginFormValid(email, password) ==>
        !loading
        && effects == old(effects) + SignInEffects(ReturnTarget(from), signedIn, "Login failed")
        && session.calls == old(session.calls) + [PasswordSignIn(email, password)]
        && session.loading && session.user == old(session.user) && session.dbUser == old(session.dbUser)
    {
      if EmailError(email).Some? || LoginPasswordError(password).Some? {
        return;
      }
      loading := true;
      var result := session.LoginUser(email, password, signedIn);
      if result.Ok? {
        effects := effects + [ToastSuccess("Login successful!"), Navigate(ReturnTarget(from), true, None)];
      } else {
        effects := effects + [ToastError(TextOr(result.message, "Login failed"))];
      }
      loading := false;
    }

    /** The Google button: the popup sign-in runs and its outcome is shown the same way. */
    method GoogleSubmit(session: AuthSession, signedIn: Reply)
      modifies this, session
      ensures !loading
      ensures effects == old(effects) + SignInEffects(ReturnTarget(from), signedIn, "Google login failed")
      ensures session.calls == old(session.calls) + [GoogleSignIn]
      ensures session.loading && session.user == old(session.user) && session.dbUser == old(session.dbUser)
    {
      loading := true;
      var result := session.GoogleLogin(signedIn);
      if result.Ok? {
        effects := effects + [ToastSuccess("Login successful!"), Navigate(ReturnTarget(from), true, None)];
      } else {
        effects := effects + [ToastError(TextOr(result.message, "Google login failed"))];
      }
      loading := false;
    }
  }
}
