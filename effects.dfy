/**
 * What a page handler does to the world, recorded as data: navigations,
 * HTTP requests to the backend, confirmation dialogs, cache invalidations and
 * toasts. Outcomes that come back from the world (an HTTP reply, a dialog
 * answer) are inputs to the handlers.
 */
module Effects {
  import opened Wrappers
  import opened JsValues

  datatype Verb = Get | Post | Patch

  /** An HTTP request to the backend: verb, path and JSON body. */
  datatype Request = Request(verb: Verb, path: string, body: FormData)

  datatype Effect =
    | Navigate(to: string, replace: bool, from: Option<string>)   // `navigate(to, {replace, state: {from}})`
    | NavigateBack                                                 // `navigate(-1)`
    | Send(request: Request)
    | Confirm(title: string)                                       // a confirmation dialog was shown
    | Invalidate(key: seq<string>)                                 // `queryClient.invalidateQueries(key)`
    | ToastSuccess(text: string)
    | ToastError(text: string)

  /** The settled outcome of a backend call: success, or a rejection with an optional server message. */
  datatype Reply = Ok | Failed(message: Option<string>)

  /** A plain navigation with neither `replace` nor state. */
  function Goto(to: string): Effect {
    Navigate(to, false, None)
  }

  /**
   * A react-query mutation: the request goes out; on success the page's
   * `onSuccess` effects follow, on failure a toast shows
   * `error.response?.data?.message || fallback`.
   */
  function Mutation(request: Request, reply: Reply, onSuccess: seq<Effect>, fallback: string): seq<Effect> {
    [Send(request)] +
    match reply
    case Ok => onSuccess
    case Failed(message) => [ToastError(TextOr(message, fallback))]
  }

  /** A form's Cancel button: back one page, nothing sent. */
  function CancelEffects(): (es: seq<Effect>)
    ensures Requests(es) == [] && Navigates(es)
  {
    assert [NavigateBack][0].NavigateBack?;
    [NavigateBack]
  }

  /** The requests among some effects, in order. */
  function Requests(es: seq<Effect>): seq<Request> {
    if |es| == 0 then []
    else (if es[0].Send? then [es[0].request] else []) + Requests(es[1..])
  }

  /** Whether some effect is a navigation (forward or back). */
  predicate Navigates(es: seq<Effect>) {
    exists k :: 0 <= k < |es| && (es[k].Navigate? || es[k].NavigateBack?)
  }

  lemma {:induction false} RequestsAppend(a: seq<Effect>, b: seq<Effect>)
    ensures Requests(a + b) == Requests(a) + Requests(b)
  {
    if |a| == 0 {
      assert a + b == b;
    } else {
      var head := if a[0].Send? then [a[0].request] else [];
      assert (a + b)[0] == a[0];
      assert (a + b)[1..] == a[1..] + b;
      assert Requests(a + b) == head + Requests(a[1..] + b);
      RequestsAppend(a[1..], b);
      assert Requests(a) == head + Requests(a[1..]);
    }
  }

  /** No request is among effects that contain no `Send`. */
  lemma {:induction false} RequestsNone(es: seq<Effect>)
    requires forall k :: 0 <= k < |es| ==> !es[k].Send?
    ensures Requests(es) == []
  {
    if |es| > 0 {
      RequestsNone(es[1..]);
    }
  }

  /** A mutation sends exactly its own request, whatever the reply and the success effects that send nothing. */
  lemma MutationSendsOnce(request: Request, reply: Reply, onSuccess: seq<Effect>, fallback: string)
    requires forall k :: 0 <= k < |onSuccess| ==> !onSuccess[k].Send?
    ensures Requests(Mutation(request, reply, onSuccess, fallback)) == [request]
  {
    var tail := Mutation(request, reply, onSuccess, fallback)[1..];
    assert Mutation(request, reply, onSuccess, fallback) == [Send(request)] + tail;
    RequestsAppend([Send(request)], tail);
    RequestsNone(tail);
    RequestsNone([]);
    assert [Send(request)][1..] == [];
  }

  /** A confirmation dialog, then the mutation only when the dialog was confirmed. */
  function ConfirmedMutation(title: string, confirmed: bool, request: Request, reply: Reply, onSuccess: seq<Effect>, fallback: string): seq<Effect> {
    [Confirm(title)] + if confirmed then Mutation(request, reply, onSuccess, fallback) else []
  }

  /** The dialog always shows first; the request goes out once when confirmed and never otherwise. */
  lemma ConfirmedMutationSends(title: string, confirmed: bool, request: Request, reply: Reply, onSuccess: seq<Effect>, fallback: string)
    requires forall k :: 0 <= k < |onSuccess| ==> !onSuccess[k].Send?
    ensures ConfirmedMutation(title, confirmed, request, reply, onSuccess, fallback)[0] == Confirm(title)
    ensures Requests(ConfirmedMutation(title, confirmed, request, reply, onSuccess, fallback)) ==
      if confirmed then [request] else []
  {
    var rest := if confirmed then Mutation(request, reply, onSuccess, fallback) else [];
    RequestsAppend([Confirm(title)], rest);
    RequestsNone([Confirm(title)]);
    if confirmed {
      MutationSendsOnce(request, reply, onSuccess, fallback);
    } else {
      RequestsNone(rest);
    }
  }
}
