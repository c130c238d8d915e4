/**
 * The admin's club table: status badges, which clubs get approve and reject
 * controls, the dialog wording, and what a decision does.
 */
module ManageClubs {
  import opened JsValues
  import opened Effects

  /** A club as the admin's club list returns it. */
  datatype AdminClub = AdminClub(id: string, clubName: string, status: string)

  /** The verb the dialog uses for a new status. */
  function ActionWord(newStatus: string): (word: string)
    ensures word == "approve" <==> newStatus == "approved"
    ensures word == "approve" || word == "reject"
  {
    if newStatus == "approved" then "approve" else "reject"
  }

  /** An ASCII lower-case letter's upper-case form; anything else unchanged. */
  function UpperChar(c: char): char {
    if 'a' <= c <= 'z' then (c as int - 32) as char else c
  }

  /** The text with its first letter in upper case (`charAt(0).toUpperCase() + slice(1)`). */
  function Capitalised(s: string): (t: string)
    ensures |t| == |s|
    ensures |s| > 0 ==> t[1..] == s[1..]
    ensures |s| > 0 && 'a' <= s[0] <= 'z' ==> 'A' <= t[0] <= 'Z' && t[0] as int == s[0] as int - 32
    ensures |s| > 0 && !('a' <= s[0] <= 'z') ==> t[0] == s[0]
  {
    if |s| == 0 then "" else [UpperChar(s[0])] + s[1..]
  }

  /** The dialog title. */
  function DialogTitle(newStatus: string): (title: string)
    ensures title == (if newStatus == "approved" then "Approve Club" else "Reject Club")
  {
    var word := ActionWord(newStatus);
    var title := Capitalised(word) + " Club";
    if newStatus == "approved" then
      assert [UpperChar('a')] + "pprove" == "Approve";
      title
    else
      assert [UpperChar('r')] + "eject" == "Reject";
      title
  }

  datatype StatusBadge = ApprovedBadge | RejectedBadge | WarningBadge

  /** Approved and rejected clubs have badges of their own; every other status gets the warning badge. */
  function StatusBadgeOf(status: string): (b: StatusBadge)
    ensures b == ApprovedBadge <==> status == "approved"
    ensures b == RejectedBadge <==> status == "rejected"
    ensures b == WarningBadge <==> status != "approved" && status != "rejected"
  {
    if status == "approved" then ApprovedBadge
    else if status == "rejected" then RejectedBadge
    else WarningBadge
  }

  /** The decisions a row offers: approve and reject on a pending club, none on any other. */
  function Controls(club: AdminClub): (choices: seq<string>)
    ensures |choices| > 0 <==> club.status == "pending"
    ensures forall k :: 0 <= k < |choices| ==> choices[k] == "approved" || choices[k] == "rejected"
  {
    if club.status == "pending" then ["approved", "rejected"] else []
  }

  /** `PATCH /admin/clubs/<id>/status` with the new status. */
  function StatusRequest(id: string, status: string): Request {
    Request(Patch, "/admin/clubs/" + id + "/status", map["status" := Str(status)])
  }

  /** `handleStatusChange`: the dialog, then the update only when confirmed. */
  function StatusChangeEffects(club: AdminClub, newStatus: string, confirmed: bool, reply: Reply): seq<Effect> {
    ConfirmedMutation(DialogTitle(newStatus), confirmed, StatusRequest(club.id, newStatus), reply,
                      [ToastSuccess("Club status updated"), Invalidate(["adminClubs"])], "Failed to update status")
  }

  /**
   * A decision taken from a row's controls concerns a pending club; its
   * dialog comes first, and the update carrying that club's id and the new
   * status is sent only when confirmed.
   */
  lemma DecisionOnPendingOnly(club: AdminClub, k: nat, confirmed: bool, reply: Reply)
    requires k < |Controls(club)|
    ensures club.status == "pending"
    ensures StatusChangeEffects(club, Controls(club)[k], confirmed, reply)[0] ==
      Confirm(if k == 0 then "Approve Club" else "Reject Club")
    ensures Requests(StatusChangeEffects(club, Controls(club)[k], confirmed, reply)) ==
      if confirmed then [StatusRequest(club.id, Controls(club)[k])] else []
    ensures !confirmed ==> |StatusChangeEffects(club, Controls(club)[k], confirmed, reply)| == 1
    ensures (confirmed && reply.Ok? ==>
      StatusChangeEffects(club, Controls(club)[k], confirmed, reply)[1..] ==
        [Send(StatusRequest(club.id, Controls(club)[k])), ToastSuccess("Club status updated"), Invalidate(["adminClubs"])])
    ensures (confirmed && reply.Failed? ==>
      StatusChangeEffects(club, Controls(club)[k], confirmed, reply)[1..] ==
        [Send(StatusRequest(club.id, Controls(club)[k])), ToastError(TextOr(reply.message, "Failed to update status"))])
  {
    var newStatus := Controls(club)[k];
    ConfirmedMutationSends(DialogTitle(newStatus), confirmed, StatusRequest(club.id, newStatus), reply,
                           [ToastSuccess("Club status updated"), Invalidate(["adminClubs"])], "Failed to update status");
  }
}
