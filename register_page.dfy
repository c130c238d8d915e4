/**
 * The registration page: its field rules, the password strength ticks, the
 * user record it posts to the backend once the account exists, and what its
 * two handlers show and where they navigate.
 */
module RegisterPage {
  import opened Wrappers
  import opened JsValues
  import opened Effects
  import opened FieldRules
  import opened Session

  /** The form reaches `onSubmit` only when name, email and password pass their rules; the photo has none. */
  predicate RegisterFormValid(name: string, email: string, password: string) {
    NameError(name).None? && EmailError(email).None? && PasswordError(password).None?
  }

  /** The backend's user record: the name and email as typed, and the photo value or `""` when it is empty. */
  function UserRecord(name: string, email: string, photo: JsValue): (body: FormData)
    ensures body.Keys == {"name", "email", "photoURL"}
    ensures body["name"] == Str(name) && body["email"] == Str(email)
    ensures !Truthy(photo) ==> body["photoURL"] == Str("")
    ensures Truthy(photo) ==> body["photoURL"] == photo
  {
    map["name" := Str(name), "email" := Str(email), "photoURL" := Or(photo, Str(""))]
  }

  /** `POST /users` with the user record. */
  function UserRecordRequest(name: string, email: string, photo: JsValue): Request {
    Request(Post, "/users", UserRecord(name, email, photo))
  }

  /**
   * What `onSubmit` shows and sends once `createUser` has settled with
   * `account`, the new user's ID token with `token`, and the record's POST with
   * `posted`; the first rejection's message (or the fallback) is shown.
   * Here a rejection's message is the caught error's own `message`: for the
   * identity provider its error text, and for the POST the HTTP client's
   * status text (never empty), not the server's reply body.
   */
  function RegisterEffects(name: string, email: string, photo: JsValue, account: Reply, token: Reply, posted: Reply): seq<Effect> {
    match (account, token)
    case (Failed(message), _) => [ToastError(TextOr(message, "Registration failed"))]
    case (Ok, Failed(message)) => [ToastError(TextOr(message, "Registration failed"))]
    case (Ok, Ok) =>
      Mutation(UserRecordRequest(name, email, photo), posted,
               [ToastSuccess("Registration successful!"), Goto("/")], "Registration failed")
  }

  /**
   * The user record is posted exactly once when the account and its token
   * exist, and never otherwise; the page goes home exactly when every step
   * succeeded.
   */
  lemma RegisterOutcome(name: string, email: string, photo: JsValue, account: Reply, token: Reply, posted: Reply)
    ensures Requests(RegisterEffects(name, email, photo, account, token, posted)) ==
      if account.Ok? && token.Ok? then [UserRecordRequest(name, email, photo)] else []
    ensures Navigates(RegisterEffects(name, email, photo, account, token, posted)) <==>
      account.Ok? && token.Ok? && posted.Ok?
    ensures account.Ok? && token.Ok? && posted.Ok? ==>
      Goto("/") in RegisterEffects(name, email, photo, account, token, posted)
  {
    var es := RegisterEffects(name, email, photo, account, token, posted);
    if account.Ok? && token.Ok? {
      MutationSendsOnce(UserRecordRequest(name, email, photo), posted,
                        [ToastSuccess("Registration successful!"), Goto("/")], "Registration failed");
      if posted.Ok? {
        assert es[2] == Goto("/");
      }
    } else {
      RequestsNone(es);
    }
  }

  /** What the Google button shows and where it goes. */
  function GoogleRegisterEffects(reply: Reply): seq<Effect> {
    match reply
    case Ok => [ToastSuccess("Registration successful!"), Goto("/")]
    case Failed(message) => [ToastError(TextOr(message, "Google registration failed"))]
  }

  /** The registration form: its busy flag and what it has shown, sent and navigated. */
  class RegisterForm {
    var loading: bool
    var effects: seq<Effect>

    constructor()
      ensures !loading && effects == []
    {
      loading := false;
      effects := [];
    }

    /**
     * Submitting the form: nothing happens unless the fields pass; otherwise
     * the account is created with the form's photo value as it is, and the
     * outcome follows `RegisterEffects`; the form is idle afterwards.
     */
    method Submit(session: AuthSession, name: string, email: string, password: string, photo: JsValue,
                  created: Reply, profiled: Reply, token: Reply, posted: Reply)
      modifies this, session
      ensures !RegisterFormValid(name, email, password) ==> unchanged(this) && unchanged(session)
      ensures RegisterFormValid(name, email, password) ==>
        var account := if created.Failed? then created else profiled;
        !loading
        && effects == old(effects) + RegisterEffects(name, email, photo, account, token, posted)
        && session.calls ==
          old(session.calls) + [CreateAccount(email, password)] + (if created.Ok? then [UpdateProfile(name, photo)] else [])
        && session.loading
    {
      if NameError(name).Some? || EmailError(email).Some? || PasswordError(password).Some? {
        return;
      }
      loading := true;
      var result := session.CreateUser(email, password, name, photo, created, profiled);
      if result.Failed? {
        effects := effects + [ToastError(TextOr(result.message, "Registration failed"))];
      } else if token.Failed? {
        effects := effects + [ToastError(TextOr(token.message, "Registration failed"))];
      } else {
        effects := effects + [Send(UserRecordRequest(name, email, photo))];
        if posted.Ok? {
          effects := effects + [ToastSuccess("Registration successful!"), Goto("/")];
        } else {
          effects := effects + [ToastError(TextOr(posted.message, "Registration failed"))];
        }
      }
      loading := false;
    }

    /** The Google button: the popup sign-in runs, then home or a toast. */
    method GoogleSubmit(session: AuthSession, signedIn: Reply)
      modifies this, session
      ensures !loading
      ensures effects == old(effects) + GoogleRegisterEffects(signedIn)
      ensures session.calls == old(session.calls) + [GoogleSignIn] && session.loading
    {
      loading := true;
      var result := session.GoogleLogin(signedIn);
      if result.Ok? {
        effects := effects + [ToastSuccess("Registration successful!"), Goto("/")];
      } else {
        effects := effects + [ToastError(TextOr(result.message, "Google registration failed"))];
      }
      loading := false;
    }
  }
}
