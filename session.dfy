/**
 * `AuthProvider`: the session state `{user, dbUser, loading}` and its
 * transitions. The identity provider and the backend are outside the model:
 * each call they receive is appended to `calls`, and how it settles is a
 * parameter of the transition.
 */
module Session {
  import opened Wrappers
  import opened JsValues
  import opened Effects
  import opened Roles
  import opened Gates

  /** The identity provider's signed-in user, with the ID token it currently hands out. */
  datatype AuthUser = AuthUser(uid: string, email: string, displayName: string, photoURL: string, idToken: string)

  /** A call made to the identity provider or to the backend's session endpoints. */
  datatype ProviderCall =
    | CreateAccount(email: string, password: string)
    | UpdateProfile(displayName: string, photoURL: JsValue)   // the form's value, passed on as it is
    | PasswordSignIn(email: string, password: string)
    | GoogleSignIn
    | PostLogout        // POST /auth/logout
    | SignOut
    | PostJwt(token: string)   // POST /auth/jwt with `Authorization: Bearer <token>`

  /** How the auth-state callback's token exchange settles. */
  datatype JwtExchange =
    | TokenFailed                  // `currentUser.getIdToken()` rejected
    | PostFailed                   // POST /auth/jwt rejected
    | Exchanged(record: Option<DbUser>)   // `response.data.user`, possibly missing

  class AuthSession {
    var user: Option<AuthUser>
    var dbUser: Option<DbUser>
    var loading: bool
    var calls: seq<ProviderCall>

    /** A fresh provider: nobody signed in yet, and loading until the first auth-state event. */
    constructor()
      ensures user == None && dbUser == None && loading && calls == []
    {
      user := None;
      dbUser := None;
      loading := true;
      calls := [];
    }

    /** `getIdToken`: the signed-in user's token, `null` without a user. */
    function GetIdToken(): (token: Option<string>)
      reads this
      ensures token.None? <==> user.None?
      ensures token.Some? ==> token.value == user.value.idToken
    {
      match user
      case Some(u) => Some(u.idToken)
      case None => None
    }

    /** What `useRole` reads from this session. */
    function RoleNow(): RoleInfo
      reads this
    {
      UseRole(dbUser, loading)
    }

    /**
     * `createUser`: loading is raised, the account is created, then its profile
     * is set; the result is the first rejection, or the profile update's outcome.
     */
    method CreateUser(email: string, password: string, name: string, photoURL: JsValue, created: Reply, profiled: Reply)
      returns (result: Reply)
      modifies this
      ensures loading && user == old(user) && dbUser == old(dbUser)
      ensures created.Failed? ==> calls == old(calls) + [CreateAccount(email, password)] && result == created
      ensures created.Ok? ==>
        calls == old(calls) + [CreateAccount(email, password), UpdateProfile(name, photoURL)] && result == profiled
    {
      loading := true;
      calls := calls + [CreateAccount(email, password)];
      if created.Failed? {
        return created;
      }
      calls := calls + [UpdateProfile(name, photoURL)];
      result := profiled;
    }

    /** `loginUser`: loading is raised, then the password sign-in runs. */
    method LoginUser(email: string, password: string, signedIn: Reply) returns (result: Reply)
      modifies this
      ensures loading && user == old(user) && dbUser == old(dbUser)
      ensures calls == old(calls) + [PasswordSignIn(email, password)] && result == signedIn
    {
      loading := true;
      calls := calls + [PasswordSignIn(email, password)];
      result := signedIn;
    }

    /** `googleLogin`: loading is raised, then the Google popup sign-in runs. */
    method GoogleLogin(signedIn: Reply) returns (result: Reply)
      modifies this
      ensures loading && user == old(user) && dbUser == old(dbUser)
      ensures calls == old(calls) + [GoogleSignIn] && result == signedIn
    {
      loading := true;
      calls := calls + [GoogleSignIn];
      result := signedIn;
    }

    /**
     * `logoutUser`: loading is raised and the backend logout is posted; only
     * when that post succeeds is the identity provider signed out.
     */
    method LogoutUser(posted: Reply, signedOut: Reply) returns (result: Reply)
      modifies this
      ensures loading && user == old(user) && dbUser == old(dbUser)
      ensures posted.Failed? ==> calls == old(calls) + [PostLogout] && result == posted
      ensures posted.Ok? ==> calls == old(calls) + [PostLogout, SignOut] && result == signedOut
    {
      loading := true;
      calls := calls + [PostLogout];
      if posted.Failed? {
        return posted;
      }
      calls := calls + [SignOut];
      result := signedOut;
    }

    /**
     * The `onAuthStateChanged` callback: it stores the current user, exchanges
     * its ID token for the backend record when there is one (any failure leaves
     * no record), and always ends with loading lowered.
     */
    method OnAuthStateChanged(current: Option<AuthUser>, exchange: JwtExchange)
      modifies this
      ensures user == current && !loading
      ensures current.None? ==> dbUser == None && calls == old(calls)
      ensures current.Some? && exchange.Exchanged? ==> dbUser == exchange.record
      ensures current.Some? && !exchange.Exchanged? ==> dbUser == None
      ensures current.Some? && exchange.TokenFailed? ==> calls == old(calls)
      ensures current.Some? && !exchange.TokenFailed? ==> calls == old(calls) + [PostJwt(current.value.idToken)]
    {
      user := current;
      if current.Some? {
        if exchange.TokenFailed? {
          dbUser := None;
        } else {
          calls := calls + [PostJwt(current.value.idToken)];
          if exchange.Exchanged? {
            dbUser := exchange.record;
          } else {
            dbUser := None;
          }
        }
      } else {
        dbUser := None;
      }
      loading := false;
    }
  }

  /**
   * An admin whose backend logout is rejected: the session keeps its user and
   * record, but `loading` stays raised, so every role guard keeps showing its
   * spinner until another auth-state event arrives.
   */
  method RejectedLogoutKeepsSpinner(admin: AuthUser, record: DbUser, message: Option<string>)
    returns (before: GateOutcome, after: GateOutcome, signedOut: bool)
    requires record.role == Some(AdminRole)
    ensures before == Children && after == Spinner && !signedOut
  {
    var session := new AuthSession();
    session.OnAuthStateChanged(Some(admin), Exchanged(Some(record)));
    before := AdminGate(session.RoleNow());
    var result := session.LogoutUser(Failed(message), Ok);
    after := AdminGate(session.RoleNow());
    signedOut := SignOut in session.calls;
    assert session.calls == [PostJwt(admin.idToken), PostLogout];
  }
}
