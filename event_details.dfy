/**
 * The event page: whether the event is over or full, which panel the sidebar
 * shows, and what the register button does.
 */
module EventDetails {
  import opened Wrappers
  import opened JsValues
  import opened Effects
  import opened Checkout

  /** The event record the page fetched; dates are timestamps, `null` capacity is `None`. */
  datatype EventRecord = EventRecord(
    id: string, title: string, clubId: string, eventDate: int,
    isPaid: bool, eventFee: real, maxAttendees: Option<int>, registrationsCount: int)

  /** One of the member's registrations. */
  datatype Registration = Registration(eventId: string, registeredAt: int)

  /** `eventDate < now`: strictly before the current time. */
  predicate IsPast(e: EventRecord, now: int) {
    e.eventDate < now
  }

  /** `maxAttendees && registrationsCount >= maxAttendees`: a missing or zero capacity never fills. */
  predicate IsFull(e: EventRecord) {
    e.maxAttendees.Some? && e.maxAttendees.value != 0 && e.registrationsCount >= e.maxAttendees.value
  }

  /** Whether a registration needs the card form: paid, with a positive fee. */
  predicate NeedsPayment(e: EventRecord) {
    e.isPaid && e.eventFee > 0.0
  }

  /** The member's registration for this event: the first one whose event id is the page's. */
  function FindRegistration(registrations: seq<Registration>, id: string): (r: Option<Registration>)
    ensures r.Some? ==> r.value in registrations && r.value.eventId == id
    ensures r.None? <==> forall k :: 0 <= k < |registrations| ==> registrations[k].eventId != id
    ensures (r.Some? ==> exists k :: (0 <= k < |registrations| && registrations[k] == r.value &&
               forall j :: 0 <= j < k ==> registrations[j].eventId != id))
  {
    if |registrations| == 0 then None
    else if registrations[0].eventId == id then Some(registrations[0])
    else
      assert forall k :: 1 <= k < |registrations| ==> registrations[k] == registrations[1..][k - 1];
      var r := FindRegistration(registrations[1..], id);
      assert (r.Some? ==> exists k :: (0 <= k < |registrations| && registrations[k] == r.value &&
                forall j :: 0 <= j < k ==> registrations[j].eventId != id)) by {
        if r.Some? {
          var k :| 0 <= k < |registrations[1..]| && registrations[1..][k] == r.value &&
                   forall j :: 0 <= j < k ==> registrations[1..][j].eventId != id;
          assert registrations[k + 1] == r.value;
          assert forall j :: 1 <= j < k + 1 ==> registrations[j] == registrations[1..][j - 1];
        }
      }
      r
  }

  datatype EventPanel = RegisteredNotice | EndedNotice | FullNotice | CardForm | RegisterButton

  /** The sidebar's chain of conditions, first match wins. */
  function PanelOf(registered: bool, e: EventRecord, now: int, showPayment: bool): EventPanel {
    if registered then RegisteredNotice
    else if IsPast(e, now) then EndedNotice
    else if IsFull(e) then FullNotice
    else if showPayment && NeedsPayment(e) then CardForm
    else RegisterButton
  }

  /** Each panel is shown exactly when its condition holds and none of the earlier ones does. */
  lemma PanelPriority(registered: bool, e: EventRecord, now: int, showPayment: bool)
    ensures PanelOf(registered, e, now, showPayment) == RegisteredNotice <==> registered
    ensures PanelOf(registered, e, now, showPayment) == EndedNotice <==> !registered && e.eventDate < now
    ensures PanelOf(registered, e, now, showPayment) == FullNotice <==> !registered && !IsPast(e, now) && IsFull(e)
    ensures PanelOf(registered, e, now, showPayment) == CardForm
      <==> !registered && !IsPast(e, now) && !IsFull(e) && showPayment && e.isPaid && e.eventFee > 0.0
    ensures PanelOf(registered, e, now, showPayment) == RegisterButton
      <==> !registered && !IsPast(e, now) && !IsFull(e) && !(showPayment && NeedsPayment(e))
  {
  }

  /** Capacity: absent or zero never fills; otherwise full once the count reaches it. */
  lemma FullnessRule(e: EventRecord)
    ensures e.maxAttendees == None || e.maxAttendees == Some(0) ==> !IsFull(e)
    ensures e.maxAttendees.Some? && e.maxAttendees.value != 0 ==> (IsFull(e) <==> e.registrationsCount >= e.maxAttendees.value)
  {
  }

  /** The "log in to register" hint: no user, and the event neither over nor full. */
  predicate LoginHint(signedIn: bool, e: EventRecord, now: int) {
    !signedIn && !IsPast(e, now) && !IsFull(e)
  }

  /**
   * For a visitor with no user, the hint appears exactly when the register
   * controls (the card form or the button) are what the sidebar shows.
   */
  lemma HintBesideControls(e: EventRecord, now: int, showPayment: bool)
    ensures LoginHint(false, e, now) <==>
      (PanelOf(false, e, now, showPayment) == CardForm || PanelOf(false, e, now, showPayment) == RegisterButton)
    ensures !LoginHint(true, e, now)
  {
  }

  /** The sidebar price: the fee for a paid event with a positive fee, otherwise free. */
  function PriceOf(e: EventRecord): (price: Option<real>)
    ensures price.None? <==> !e.isPaid || e.eventFee <= 0.0
    ensures price.Some? ==> price.value == e.eventFee
  {
    if NeedsPayment(e) then Some(e.eventFee) else None
  }

  /** The route a visitor is sent back to after logging in. */
  function EventHref(id: string): string {
    "/events/" + id
  }

  function RegisterRequest(id: string): Request {
    Request(Post, "/events/" + id + "/register", map[])
  }

  /**
   * What the register button does: an anonymous visitor is sent to the login
   * page; a paid event opens the card form (no effect here); otherwise the
   * dialog is shown and, when confirmed, the registration is posted.
   */
  function RegisterEffects(id: string, signedIn: bool, e: EventRecord, confirmed: bool, reply: Reply): seq<Effect> {
    if !signedIn then [Navigate("/login", false, Some(EventHref(id)))]
    else if NeedsPayment(e) then []
    else
      [Confirm("Register for Event")] +
      if confirmed then
        Mutation(RegisterRequest(id), reply,
                 [ToastSuccess("Successfully registered for the event!"), Invalidate(["eventRegistration", id])],
                 "Failed to register")
      else []
  }

  /**
   * The registration is posted only for a signed-in visitor, on a free event,
   * after the dialog was confirmed; an anonymous visitor only navigates, with
   * the page as the return target.
   */
  lemma RegisterPostedOnlyWhenConfirmed(id: string, signedIn: bool, e: EventRecord, confirmed: bool, reply: Reply)
    ensures Requests(RegisterEffects(id, signedIn, e, confirmed, reply)) ==
      if signedIn && !NeedsPayment(e) && confirmed then [RegisterRequest(id)] else []
    ensures !signedIn ==> RegisterEffects(id, signedIn, e, confirmed, reply) == [Navigate("/login", false, Some("/events/" + id))]
  {
    var es := RegisterEffects(id, signedIn, e, confirmed, reply);
    if !signedIn {
      RequestsNone(es);
    } else if NeedsPayment(e) {
    } else {
      var rest := es[1..];
      assert es == [Confirm("Register for Event")] + rest;
      RequestsAppend([Confirm("Register for Event")], rest);
      RequestsNone([Confirm("Register for Event")]);
      if confirmed {
        MutationSendsOnce(RegisterRequest(id), reply,
                          [ToastSuccess("Successfully registered for the event!"), Invalidate(["eventRegistration", id])],
                          "Failed to register");
      } else {
        RequestsNone(rest);
      }
    }
  }

  /** The event page's own state: which event, whether the card form was opened, and what it did. */
  class EventPage {
    const id: string
    var showPayment: bool
    var effects: seq<Effect>

    constructor(id0: string)
      ensures id == id0 && !showPayment && effects == []
    {
      id := id0;
      showPayment := false;
      effects := [];
    }

    /** `handleRegister`, with the session, the event and the dialog's answer as inputs. */
    method HandleRegister(signedIn: bool, e: EventRecord, confirmed: bool, reply: Reply)
      modifies this
      ensures showPayment == (old(showPayment) || (signedIn && NeedsPayment(e)))
      ensures effects == old(effects) + RegisterEffects(id, signedIn, e, confirmed, reply)
    {
      if !signedIn {
        effects := effects + [Navigate("/login", false, Some(EventHref(id)))];
        return;
      }
      if e.isPaid && e.eventFee > 0.0 {
        showPayment := true;
      } else {
        effects := effects + [Confirm("Register for Event")];
        if confirmed {
          effects := effects + Mutation(RegisterRequest(id), reply,
                                        [ToastSuccess("Successfully registered for the event!"), Invalidate(["eventRegistration", id])],
                                        "Failed to register");
        }
      }
    }

    /** The card form's `onSuccess`: the form closes and the registration is refetched. */
    method OnPaymentSuccess()
      modifies this
      ensures !showPayment && effects == old(effects) + [Invalidate(["eventRegistration", id])]
    {
      showPayment := false;
      effects := effects + [Invalidate(["eventRegistration", id])];
    }
  }
}
