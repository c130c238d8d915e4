/**
 * `useAxiosSecure`: the interceptors it registers on the shared authenticated
 * HTTP client. The request interceptor attaches the session's ID token; the
 * response interceptor logs out and goes to the login page on 401 and 403.
 */
module SecureClient {
  import opened Wrappers
  import opened Effects
  import opened Session

  /** The headers of an outgoing request, which the request interceptor edits in place. */
  class RequestConfig {
    var headers: map<string, string>

    constructor(headers0: map<string, string>)
      ensures headers == headers0
    {
      headers := headers0;
    }

    /** `if (token) config.headers.Authorization = "Bearer " + token`. */
    method AttachToken(token: Option<string>)
      modifies this
      ensures token.Some? && token.value != "" ==> headers == old(headers)["Authorization" := "Bearer " + token.value]
      ensures token.None? || token.value == "" ==> headers == old(headers)
    {
      if token.Some? && token.value != "" {
        headers := headers["Authorization" := "Bearer " + token.value];
      }
    }
  }

  /** The request interceptor: the token comes from the session's `getIdToken`. */
  method InterceptRequest(session: AuthSession, config: RequestConfig)
    modifies config
    ensures session.user.None? || session.user.value.idToken == "" ==> config.headers == old(config.headers)
    ensures session.user.Some? && session.user.value.idToken != "" ==>
      config.headers == old(config.headers)["Authorization" := "Bearer " + session.user.value.idToken]
  {
    config.AttachToken(session.GetIdToken());
  }

  /** A successful HTTP response. */
  datatype HttpResponse = HttpResponse(status: int, body: string)

  /** A failed request: the response when the server answered, and the error message. */
  datatype HttpError = HttpError(response: Option<HttpResponse>, message: string)

  /** How the response interceptor settles a failed request. */
  datatype Settlement =
    | Rejects(error: HttpError)        // the original error is re-rejected
    | LogoutRejects(failure: Reply)    // awaiting the logout threw first

  /** `error.response?.status === 401 || error.response?.status === 403`. */
  predicate ForcesLogout(e: HttpError) {
    e.response.Some? && (e.response.value.status == 401 || e.response.value.status == 403)
  }

  /** The response interceptor's success handler: the response is passed on unchanged. */
  function OnResponse(response: HttpResponse): (passed: HttpResponse)
    ensures passed == response
  {
    response
  }

  /**
   * The response interceptor's error handler. A 401 or 403 awaits the
   * session's logout, then navigates to `/login`; every other failure,
   * including one with no response, is re-rejected untouched. The original
   * error is re-rejected in both cases, unless the logout itself rejects first.
   */
  method OnResponseError(session: AuthSession, e: HttpError, posted: Reply, signedOut: Reply)
    returns (settled: Settlement, navigation: seq<Effect>)
    modifies session
    ensures !ForcesLogout(e) ==>
      settled == Rejects(e) && navigation == [] && session.calls == old(session.calls)
      && session.loading == old(session.loading) && session.user == old(session.user) && session.dbUser == old(session.dbUser)
    ensures ForcesLogout(e) ==> session.loading
    ensures ForcesLogout(e) && posted.Failed? ==>
      session.calls == old(session.calls) + [PostLogout] && settled == LogoutRejects(posted) && navigation == []
    ensures ForcesLogout(e) && posted.Ok? ==> session.calls == old(session.calls) + [PostLogout, SignOut]
    ensures ForcesLogout(e) && posted.Ok? && signedOut.Failed? ==> settled == LogoutRejects(signedOut) && navigation == []
    ensures ForcesLogout(e) && posted.Ok? && signedOut.Ok? ==> settled == Rejects(e) && navigation == [Goto("/login")]
  {
    navigation := [];
    if ForcesLogout(e) {
      var loggedOut := session.LogoutUser(posted, signedOut);
      if loggedOut.Failed? {
        return LogoutRejects(loggedOut), navigation;
      }
      navigation := [Goto("/login")];
    }
    settled := Rejects(e);
  }

  /**
   * One of axios's interceptor lists: `use` appends a handler and returns its
   * position, `eject` clears the handler at a position.
   */
  class InterceptorList {
    var active: seq<bool>

    constructor()
      ensures active == []
    {
      active := [];
    }

    method Use() returns (id: nat)
      modifies this
      ensures id == |old(active)| && active == old(active) + [true]
    {
      id := |active|;
      active := active + [true];
    }

    method Eject(id: nat)
      modifies this
      ensures id < |old(active)| ==> active == old(active)[id := false]
      ensures id >= |old(active)| ==> active == old(active)
    {
      if id < |active| {
        active := active[id := false];
      }
    }
  }

  /** The hook's effect: one handler is registered on each list. */
  method Mount(requests: InterceptorList, responses: InterceptorList) returns (requestId: nat, responseId: nat)
    requires requests != responses
    modifies requests, responses
    ensures requestId == |old(requests.active)| && requests.active == old(requests.active) + [true]
    ensures responseId == |old(responses.active)| && responses.active == old(responses.active) + [true]
  {
    requestId := requests.Use();
    responseId := responses.Use();
  }

  /** The effect's cleanup: each list ejects the handler the mount registered on it. */
  method Unmount(requests: InterceptorList, responses: InterceptorList, requestId: nat, responseId: nat)
    requires requests != responses
    requires requestId < |requests.active| && responseId < |responses.active|
    modifies requests, responses
    ensures requests.active == old(requests.active)[requestId := false]
    ensures responses.active == old(responses.active)[responseId := false]
  {
    requests.Eject(requestId);
    responses.Eject(responseId);
  }

  /**
   * Mounting then cleaning up leaves every handler registered by others as it
   * was and deactivates exactly the two this hook added.
   */
  method MountThenUnmount(requests: InterceptorList, responses: InterceptorList)
    requires requests != responses
    modifies requests, responses
    ensures requests.active == old(requests.active) + [false]
    ensures responses.active == old(responses.active) + [false]
  {
    var requestId, responseId := Mount(requests, responses);
    Unmount(requests, responses, requestId, responseId);
  }
}
