/**
 * The manager's event forms: which clubs the create form offers, the field
 * rules of the create and edit forms, the payload both send (fee and capacity
 * normalised), the edit form's prefill, and what a submission does.
 */
module EventForms {
  import opened Wrappers
  import opened JsValues
  import opened Effects
  import opened FieldRules

  /** A club as the manager's club list returns it. */
  datatype ManagedClub = ManagedClub(id: string, clubName: string, status: string)

  /** The create form offers only the approved clubs, in their order. */
  function ApprovedClubs(clubs: seq<ManagedClub>): (offered: seq<ManagedClub>)
    ensures |offered| <= |clubs|
    ensures forall c :: c in offered ==> c in clubs && c.status == "approved"
    ensures forall k :: 0 <= k < |clubs| && clubs[k].status == "approved" ==> clubs[k] in offered
  {
    if |clubs| == 0 then []
    else (if clubs[0].status == "approved" then [clubs[0]] else []) + ApprovedClubs(clubs[1..])
  }

  /** What the create page shows once the clubs are loaded. */
  datatype CreateView = NoApprovedClubs | EventForm(options: seq<ManagedClub>)

  function CreateViewOf(clubs: seq<ManagedClub>): (v: CreateView)
    ensures v.NoApprovedClubs? <==> forall k :: 0 <= k < |clubs| ==> clubs[k].status != "approved"
    ensures v.EventForm? ==> |v.options| > 0 && forall c :: c in v.options ==> c.status == "approved"
  {
    var offered := ApprovedClubs(clubs);
    if |offered| == 0 then NoApprovedClubs
    else
      assert offered[0] in offered;
      EventForm(offered)
  }

  /** The required fields both event forms share. */
  predicate EventBasicsPresent(data: FormData) {
    RequiredError(data, "title", "Title is required").None?
    && RequiredError(data, "description", "Description is required").None?
    && RequiredError(data, "eventDate", "Date is required").None?
    && RequiredError(data, "location", "Location is required").None?
  }

  /**
   * The create form's fee rule: the fee field exists only for a paid event,
   * and there it is required and at least 0.01.
   */
  function FeeError(data: FormData): (e: Option<string>)
    ensures e.Some? ==> Truthy(Field(data, "isPaid"))
    ensures Truthy(Field(data, "isPaid")) && Blank(Field(data, "eventFee")) ==> e == Some("Event fee is required for paid events")
    ensures (Truthy(Field(data, "isPaid")) && !Blank(Field(data, "eventFee"))
             && ParseFloatValue(Field(data, "eventFee")).Some?
             && ParseFloatValue(Field(data, "eventFee")).value < 0.01) ==> e == Some("Fee must be greater than 0")
    ensures (Truthy(Field(data, "isPaid")) && !Blank(Field(data, "eventFee"))
             && (ParseFloatValue(Field(data, "eventFee")).None? || ParseFloatValue(Field(data, "eventFee")).value >= 0.01)) ==> e.None?
  {
    var fee := Field(data, "eventFee");
    if !Truthy(Field(data, "isPaid")) then None
    else if Blank(fee) then Some("Event fee is required for paid events")
    else match ParseFloatValue(fee)
      case Some(x) => if x < 0.01 then Some("Fee must be greater than 0") else None
      case None => None
  }

  /** The create form submits when a club is chosen, the basics are present and the fee rule passes. */
  predicate CreateEventAccepted(data: FormData) {
    RequiredError(data, "clubId", "Please select a club").None? && EventBasicsPresent(data) && FeeError(data).None?
  }

  /**
   * The edit form registers rules only for the basics: its fee and capacity
   * inputs carry no react-hook-form rule (the browser's own number
   * constraints on them are not modelled).
   */
  predicate EditEventAccepted(data: FormData) {
    EventBasicsPresent(data)
  }

  /** The three keys the payload rewrites. */
  predicate Normalised(k: string) {
    k == "isPaid" || k == "eventFee" || k == "maxAttendees"
  }

  /** `Number.parseInt(v)` as a JSON value: a number, or `NaN` when nothing parses. */
  function IntValue(v: JsValue): JsValue {
    match ParseIntValue(v)
    case Some(n) => Num(n as real)
    case None => NaN
  }

  /**
   * The body both forms send: every field as submitted, except that `isPaid`
   * defaults to false, the fee is 0 for an unpaid event or when it does not
   * parse, and an empty capacity becomes `null`.
   */
  function EventPayload(data: FormData): (body: FormData)
    ensures body.Keys == data.Keys + {"isPaid", "eventFee", "maxAttendees"}
    ensures forall k :: k in data && !Normalised(k) ==> body[k] == data[k]
    ensures Truthy(Field(data, "isPaid")) ==> body["isPaid"] == Field(data, "isPaid")
    ensures !Truthy(Field(data, "isPaid")) ==> body["isPaid"] == Bool(false)
    ensures !Truthy(Field(data, "isPaid")) ==> body["eventFee"] == Num(0.0)
    ensures Truthy(Field(data, "isPaid")) && ParseFloatValue(Field(data, "eventFee")).None? ==> body["eventFee"] == Num(0.0)
    ensures Truthy(Field(data, "isPaid")) && ParseFloatValue(Field(data, "eventFee")).Some? ==>
      body["eventFee"] == Num(ParseFloatValue(Field(data, "eventFee")).value)
    ensures !Truthy(Field(data, "maxAttendees")) ==> body["maxAttendees"] == Null
    ensures Truthy(Field(data, "maxAttendees")) && ParseIntValue(Field(data, "maxAttendees")).Some? ==>
      body["maxAttendees"] == Num(ParseIntValue(Field(data, "maxAttendees")).value as real)
    ensures Truthy(Field(data, "maxAttendees")) && ParseIntValue(Field(data, "maxAttendees")).None? ==> body["maxAttendees"] == NaN
  {
    var paid := Field(data, "isPaid");
    data["isPaid" := Or(paid, Bool(false))]
        ["eventFee" := if Truthy(paid) then Num(FloatOrZero(Field(data, "eventFee"))) else Num(0.0)]
        ["maxAttendees" := if Truthy(Field(data, "maxAttendees")) then IntValue(Field(data, "maxAttendees")) else Null]
  }

  /** A paid event whose fee field is empty: the edit form lets it through and saves fee 0; the create form refuses it. */
  lemma EditSavesEmptyFeeAsZero(data: FormData)
    requires EventBasicsPresent(data) && Truthy(Field(data, "isPaid")) && Field(data, "eventFee") == Str("")
    ensures EditEventAccepted(data) && !CreateEventAccepted(data)
    ensures EventPayload(data)["eventFee"] == Num(0.0)
  {
    assert ParseFloatText("") == None;
  }

  /** An event as the backend stores it; the date is kept as its ISO text. */
  datatype StoredEvent = StoredEvent(
    title: string, description: string, eventDate: string, location: string,
    isPaid: bool, eventFee: real, maxAttendees: Option<int>)

  /** The edit form's `reset`: the stored fields, the date cut to minutes, and `maxAttendees || ""`. */
  function EventPrefill(e: StoredEvent): (data: FormData)
    ensures data.Keys == {"title", "description", "eventDate", "location", "isPaid", "eventFee", "maxAttendees"}
    ensures data["title"] == Str(e.title) && data["description"] == Str(e.description) && data["location"] == Str(e.location)
    ensures data["isPaid"] == Bool(e.isPaid) && data["eventFee"] == Num(e.eventFee)
    ensures data["eventDate"] == Str(Prefix(e.eventDate, 16))
    ensures e.maxAttendees.None? || e.maxAttendees == Some(0) ==> data["maxAttendees"] == Str("")
    ensures e.maxAttendees.Some? && e.maxAttendees.value != 0 ==> data["maxAttendees"] == Num(e.maxAttendees.value as real)
  {
    map[
      "title" := Str(e.title),
      "description" := Str(e.description),
      "eventDate" := Str(Prefix(e.eventDate, 16)),
      "location" := Str(e.location),
      "isPaid" := Bool(e.isPaid),
      "eventFee" := Num(e.eventFee),
      "maxAttendees" := match e.maxAttendees
        case Some(n) => if n != 0 then Num(n as real) else Str("")
        case None => Str("")
    ]
  }

  /**
   * Saving the edit form untouched: a stored capacity other than 0 is sent
   * back as it was, a missing or zero one as `null`; an unpaid event is sent
   * with fee 0 whatever fee was stored, a paid one with its stored fee.
   */
  lemma ResubmitUnedited(e: StoredEvent)
    ensures var body := EventPayload(EventPrefill(e));
      && body["maxAttendees"] == (if e.maxAttendees.Some? && e.maxAttendees.value != 0 then Num(e.maxAttendees.value as real) else Null)
      && body["eventFee"] == (if e.isPaid then Num(e.eventFee) else Num(0.0))
      && body["isPaid"] == Bool(e.isPaid)
      && body["title"] == Str(e.title) && body["location"] == Str(e.location)
  {
    var data := EventPrefill(e);
    if e.maxAttendees.Some? && e.maxAttendees.value != 0 {
      var n := e.maxAttendees.value;
      assert Trunc(n as real) == n;
      assert ParseIntValue(data["maxAttendees"]) == Some(n);
    }
  }

  const ManagerEventsPath := "/dashboard/manager/events"

  /** What submitting the create form does, given the server's reply. */
  function CreateEventEffects(data: FormData, reply: Reply): seq<Effect> {
    if !CreateEventAccepted(data) then []
    else Mutation(Request(Post, "/events", EventPayload(data)), reply,
                  [ToastSuccess("Event created successfully!"), Goto(ManagerEventsPath)], "Failed to create event")
  }

  /** What submitting the edit form of event `id` does, given the server's reply. */
  function EditEventEffects(id: string, data: FormData, reply: Reply): seq<Effect> {
    if !EditEventAccepted(data) then []
    else Mutation(Request(Patch, "/events/" + id, EventPayload(data)), reply,
                  [ToastSuccess("Event updated successfully"), Invalidate(["managerEvents"]), Goto(ManagerEventsPath)],
                  "Failed to update event")
  }

  /**
   * A submission sends exactly one request, with the normalised payload,
   * when the form's rules pass, and nothing otherwise; it leaves for the
   * event list exactly when the server accepts.
   */
  lemma CreateEventOutcome(data: FormData, reply: Reply)
    ensures Requests(CreateEventEffects(data, reply)) ==
      if CreateEventAccepted(data) then [Request(Post, "/events", EventPayload(data))] else []
    ensures CreateEventAccepted(data) && reply.Ok? ==> CreateEventEffects(data, reply)[2] == Goto(ManagerEventsPath)
    ensures Navigates(CreateEventEffects(data, reply)) ==> CreateEventAccepted(data) && reply.Ok?
  {
    var es := CreateEventEffects(data, reply);
    if CreateEventAccepted(data) {
      MutationSendsOnce(Request(Post, "/events", EventPayload(data)), reply,
                        [ToastSuccess("Event created successfully!"), Goto(ManagerEventsPath)], "Failed to create event");
    } else {
      RequestsNone(es);
    }
  }

  lemma EditEventOutcome(id: string, data: FormData, reply: Reply)
    ensures Requests(EditEventEffects(id, data, reply)) ==
      if EditEventAccepted(data) then [Request(Patch, "/events/" + id, EventPayload(data))] else []
    ensures EditEventAccepted(data) && reply.Ok? ==>
      EditEventEffects(id, data, reply)[2..] == [Invalidate(["managerEvents"]), Goto(ManagerEventsPath)]
    ensures Navigates(EditEventEffects(id, data, reply)) ==> EditEventAccepted(data) && reply.Ok?
  {
    var es := EditEventEffects(id, data, reply);
    if EditEventAccepted(data) {
      MutationSendsOnce(Request(Patch, "/events/" + id, EventPayload(data)), reply,
                        [ToastSuccess("Event updated successfully"), Invalidate(["managerEvents"]), Goto(ManagerEventsPath)],
                        "Failed to update event");
    } else {
      RequestsNone(es);
    }
  }
}
