/**
 * The manager's club forms: the category choices, the required fields, the
 * payload both forms send (the fee normalised to a number), the edit form's
 * prefill, and what a submission does.
 */
module ClubForms {
  import opened Wrappers
  import opened JsValues
  import opened Effects
  import opened FieldRules

  /** The categories a club can be filed under. */
  const ClubCategories: seq<string> := [
    "Photography", "Sports", "Technology", "Arts & Crafts", "Music", "Outdoors", "Gaming", "Books",
    "Food & Cooking", "Other"
  ]

  /** What the category select can yield: its empty placeholder, or one of the categories. */
  const CategoryChoices: seq<string> := [""] + ClubCategories

  /** The four required fields; the banner image and the fee are optional. */
  predicate ClubAccepted(data: FormData) {
    RequiredError(data, "clubName", "Club name is required").None?
    && RequiredError(data, "description", "Description is required").None?
    && RequiredError(data, "category", "Category is required").None?
    && RequiredError(data, "location", "Location is required").None?
  }

  /** A form that passes, with the category taken from the select, carries one of the ten categories. */
  lemma AcceptedCategoryIsListed(data: FormData, choice: string)
    requires choice in CategoryChoices && Field(data, "category") == Str(choice)
    ensures ClubAccepted(data) ==> choice in ClubCategories
  {
    if ClubAccepted(data) {
      assert choice != "";
      assert choice == CategoryChoices[0] || choice in CategoryChoices[1..];
      assert CategoryChoices[1..] == ClubCategories;
    }
  }

  /** The body both forms send: every field as submitted, with the fee parsed and 0 when it does not parse. */
  function ClubPayload(data: FormData): (body: FormData)
    ensures body.Keys == data.Keys + {"membershipFee"}
    ensures forall k :: k in data && k != "membershipFee" ==> body[k] == data[k]
    ensures ParseFloatValue(Field(data, "membershipFee")).None? ==> body["membershipFee"] == Num(0.0)
    ensures ParseFloatValue(Field(data, "membershipFee")).Some? ==>
      body["membershipFee"] == Num(ParseFloatValue(Field(data, "membershipFee")).value)
  {
    data["membershipFee" := Num(FloatOrZero(Field(data, "membershipFee")))]
  }

  /** An empty or missing fee field is sent as 0, the fee the form calls free membership. */
  lemma EmptyFeeIsFree(data: FormData)
    requires Field(data, "membershipFee") == Str("") || Field(data, "membershipFee") == Undefined
    ensures ClubPayload(data)["membershipFee"] == Num(0.0)
  {
    assert ParseFloatText("") == None;
  }

  /** A club as the backend stores it. */
  datatype StoredClub = StoredClub(
    clubName: string, description: string, category: string, location: string,
    bannerImage: string, membershipFee: real)

  /** The edit form's `reset`: the six stored fields, unchanged. */
  function ClubPrefill(c: StoredClub): (data: FormData)
    ensures data.Keys == {"clubName", "description", "category", "location", "bannerImage", "membershipFee"}
    ensures data["clubName"] == Str(c.clubName) && data["description"] == Str(c.description)
    ensures data["category"] == Str(c.category) && data["location"] == Str(c.location)
    ensures data["bannerImage"] == Str(c.bannerImage) && data["membershipFee"] == Num(c.membershipFee)
  {
    map[
      "clubName" := Str(c.clubName),
      "description" := Str(c.description),
      "category" := Str(c.category),
      "location" := Str(c.location),
      "bannerImage" := Str(c.bannerImage),
      "membershipFee" := Num(c.membershipFee)
    ]
  }

  /** Saving the edit form untouched sends back exactly the stored fields. */
  lemma ResubmitUnedited(c: StoredClub)
    ensures ClubPayload(ClubPrefill(c)) == ClubPrefill(c)
  {
    var data := ClubPrefill(c);
    assert ParseFloatValue(data["membershipFee"]) == Some(c.membershipFee);
    assert ClubPayload(data).Keys == data.Keys;
  }

  const ManagerClubsPath := "/dashboard/manager/clubs"

  /** What submitting the create form does, given the server's reply. */
  function CreateClubEffects(data: FormData, reply: Reply): seq<Effect> {
    if !ClubAccepted(data) then []
    else Mutation(Request(Post, "/clubs", ClubPayload(data)), reply,
                  [ToastSuccess("Club created! Awaiting admin approval."), Goto(ManagerClubsPath)], "Failed to create club")
  }

  /** What submitting the edit form of club `id` does, given the server's reply. */
  function EditClubEffects(id: string, data: FormData, reply: Reply): seq<Effect> {
    if !ClubAccepted(data) then []
    else Mutation(Request(Patch, "/clubs/" + id, ClubPayload(data)), reply,
                  [ToastSuccess("Club updated successfully"), Invalidate(["managerClubs"]), Goto(ManagerClubsPath)],
                  "Failed to update club")
  }

  /**
   * A create submission sends one request with the normalised payload when
   * the rules pass, and nothing otherwise; it leaves for the club list
   * exactly when the server accepts.
   */
  lemma CreateClubOutcome(data: FormData, reply: Reply)
    ensures Requests(CreateClubEffects(data, reply)) ==
      if ClubAccepted(data) then [Request(Post, "/clubs", ClubPayload(data))] else []
    ensures ClubAccepted(data) && reply.Ok? ==> CreateClubEffects(data, reply)[2] == Goto(ManagerClubsPath)
    ensures Navigates(CreateClubEffects(data, reply)) ==> ClubAccepted(data) && reply.Ok?
  {
    var es := CreateClubEffects(data, reply);
    if ClubAccepted(data) {
      MutationSendsOnce(Request(Post, "/clubs", ClubPayload(data)), reply,
                        [ToastSuccess("Club created! Awaiting admin approval."), Goto(ManagerClubsPath)], "Failed to create club");
    } else {
      RequestsNone(es);
    }
  }

  lemma EditClubOutcome(id: string, data: FormData, reply: Reply)
    ensures Requests(EditClubEffects(id, data, reply)) ==
      if ClubAccepted(data) then [Request(Patch, "/clubs/" + id, ClubPayload(data))] else []
    ensures ClubAccepted(data) && reply.Ok? ==>
      EditClubEffects(id, data, reply)[2..] == [Invalidate(["managerClubs"]), Goto(ManagerClubsPath)]
    ensures Navigates(EditClubEffects(id, data, reply)) ==> ClubAccepted(data) && reply.Ok?
  {
    var es := EditClubEffects(id, data, reply);
    if ClubAccepted(data) {
      MutationSendsOnce(Request(Patch, "/clubs/" + id, ClubPayload(data)), reply,
                        [ToastSuccess("Club updated successfully"), Invalidate(["managerClubs"]), Goto(ManagerClubsPath)],
                        "Failed to update club");
    } else {
      RequestsNone(es);
    }
  }
}
