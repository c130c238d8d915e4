/**
 * The manager's member table for one club: the status badges, the status
 * choices, and the immediate status update a choice makes.
 */
module ClubMembers {
  import opened JsValues
  import opened Effects

  /** A membership as the club's member list returns it. */
  datatype MemberRow = MemberRow(id: string, userEmail: string, status: string)

  /** The statuses the select offers. */
  const StatusOptions: seq<string> := ["active", "expired", "pendingPayment"]

  datatype MemberBadge = SuccessBadge | ErrorBadge | WarningBadge

  /** Active memberships succeed, expired ones err, every other status warns. */
  function MemberBadgeOf(status: string): (b: MemberBadge)
    ensures b == SuccessBadge <==> status == "active"
    ensures b == ErrorBadge <==> status == "expired"
    ensures b == WarningBadge <==> status != "active" && status != "expired"
  {
    if status == "active" then SuccessBadge
    else if status == "expired" then ErrorBadge
    else WarningBadge
  }

  /** The table body: a placeholder row for an empty list, otherwise one row per membership. */
  datatype MemberTable = NoMembersYet | Rows(rows: seq<MemberRow>)

  function MemberTableOf(members: seq<MemberRow>): (t: MemberTable)
    ensures t.NoMembersYet? <==> |members| == 0
    ensures t.Rows? ==> t.rows == members
  {
    if |members| > 0 then Rows(members) else NoMembersYet
  }

  /** `PATCH /memberships/<id>/status` with the chosen status. */
  function StatusRequest(membershipId: string, status: string): Request {
    Request(Patch, "/memberships/" + membershipId + "/status", map["status" := Str(status)])
  }

  /** Choosing a status on a row of club `clubId`'s table: the update goes out at once. */
  function StatusChoiceEffects(clubId: string, member: MemberRow, status: string, reply: Reply): seq<Effect> {
    Mutation(StatusRequest(member.id, status), reply,
             [ToastSuccess("Membership status updated"), Invalidate(["clubMembers", clubId])], "Failed to update status")
  }

  /**
   * A choice sends exactly one update, for that row's membership and the
   * chosen status, without any dialog; success refreshes this club's member list.
   */
  lemma ChoiceUpdatesAtOnce(clubId: string, member: MemberRow, k: nat, reply: Reply)
    requires k < |StatusOptions|
    ensures Requests(StatusChoiceEffects(clubId, member, StatusOptions[k], reply)) == [StatusRequest(member.id, StatusOptions[k])]
    ensures forall j :: 0 <= j < |StatusChoiceEffects(clubId, member, StatusOptions[k], reply)| ==>
      !StatusChoiceEffects(clubId, member, StatusOptions[k], reply)[j].Confirm?
    ensures reply.Ok? ==> StatusChoiceEffects(clubId, member, StatusOptions[k], reply)[2] == Invalidate(["clubMembers", clubId])
  {
    MutationSendsOnce(StatusRequest(member.id, StatusOptions[k]), reply,
                      [ToastSuccess("Membership status updated"), Invalidate(["clubMembers", clubId])], "Failed to update status");
  }
}
