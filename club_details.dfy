/**
 * The club page: the member's membership lookup, which panel the sidebar
 * shows, the price label, the upcoming-event preview, and what the join
 * button does.
 */
module ClubDetails {
  import opened Wrappers
  import opened JsValues
  import opened Effects
  import opened Checkout

  datatype ClubRecord = ClubRecord(id: string, clubName: string, membershipFee: real)

  /** One of the member's memberships, in whatever status. */
  datatype MembershipRecord = MembershipRecord(id: string, clubId: string, status: string)

  /** The membership query: nothing without a user, else the first membership for this club. */
  function FindMembership(signedIn: bool, memberships: seq<MembershipRecord>, clubId: string): (m: Option<MembershipRecord>)
    ensures !signedIn ==> m.None?
    ensures m.Some? ==> m.value in memberships && m.value.clubId == clubId
    ensures signedIn && m.None? ==> forall k :: 0 <= k < |memberships| ==> memberships[k].clubId != clubId
    ensures (m.Some? ==> exists k :: (0 <= k < |memberships| && memberships[k] == m.value &&
               forall j :: 0 <= j < k ==> memberships[j].clubId != clubId))
  {
    if !signedIn then None else FirstForClub(memberships, clubId)
  }

  function FirstForClub(memberships: seq<MembershipRecord>, clubId: string): (m: Option<MembershipRecord>)
    ensures m.Some? ==> m.value in memberships && m.value.clubId == clubId
    ensures m.None? ==> forall k :: 0 <= k < |memberships| ==> memberships[k].clubId != clubId
    ensures (m.Some? ==> exists k :: (0 <= k < |memberships| && memberships[k] == m.value &&
               forall j :: 0 <= j < k ==> memberships[j].clubId != clubId))
  {
    if |memberships| == 0 then None
    else if memberships[0].clubId == clubId then Some(memberships[0])
    else
      assert forall k :: 1 <= k < |memberships| ==> memberships[k] == memberships[1..][k - 1];
      var m := FirstForClub(memberships[1..], clubId);
      assert (m.Some? ==> exists k :: (0 <= k < |memberships| && memberships[k] == m.value &&
                forall j :: 0 <= j < k ==> memberships[j].clubId != clubId)) by {
        if m.Some? {
          var k :| 0 <= k < |memberships[1..]| && memberships[1..][k] == m.value &&
                   forall j :: 0 <= j < k ==> memberships[1..][j].clubId != clubId;
          assert memberships[k + 1] == m.value;
        }
      }
      m
  }

  datatype ClubPanel = MemberNotice | CardForm | JoinButton

  /** The sidebar: any membership record wins; then the card form when opened for a positive fee; else the button. */
  function PanelOf(membership: Option<MembershipRecord>, showPayment: bool, club: ClubRecord): ClubPanel {
    if membership.Some? then MemberNotice
    else if showPayment && club.membershipFee > 0.0 then CardForm
    else JoinButton
  }

  /**
   * A membership in any status hides every join control; the card form needs
   * both the opened form and a positive fee.
   */
  lemma PanelPriority(membership: Option<MembershipRecord>, showPayment: bool, club: ClubRecord)
    ensures PanelOf(membership, showPayment, club) == MemberNotice <==> membership.Some?
    ensures PanelOf(membership, showPayment, club) == CardForm
      <==> membership.None? && showPayment && club.membershipFee > 0.0
    ensures PanelOf(membership, showPayment, club) == JoinButton
      <==> membership.None? && !(showPayment && club.membershipFee > 0.0)
  {
  }

  /** A signed-in member with a membership record for the club, whatever its status, sees the notice. */
  lemma AnyStatusIsMember(memberships: seq<MembershipRecord>, k: nat, club: ClubRecord, showPayment: bool)
    requires k < |memberships| && memberships[k].clubId == club.id
    ensures PanelOf(FindMembership(true, memberships, club.id), showPayment, club) == MemberNotice
  {
  }

  /** The "log in to join" hint is shown to every anonymous visitor. */
  predicate LoginHint(signedIn: bool) {
    !signedIn
  }

  /**
   * An anonymous visitor, whose membership query finds nothing, sees the hint
   * under the join controls (the card form or the button); a signed-in
   * visitor never sees it.
   */
  lemma HintBesideControls(memberships: seq<MembershipRecord>, showPayment: bool, club: ClubRecord)
    ensures LoginHint(false)
    ensures PanelOf(FindMembership(false, memberships, club.id), showPayment, club) != MemberNotice
    ensures !LoginHint(true)
  {
  }

  /** The price label: `None` reads "Free". */
  function PriceOf(club: ClubRecord): (price: Option<real>)
    ensures price.None? <==> club.membershipFee <= 0.0
    ensures price.Some? ==> price.value == club.membershipFee
  {
    if club.membershipFee > 0.0 then Some(club.membershipFee) else None
  }

  /** `events.slice(0, 3)`: the first three upcoming events at most, in order. */
  function UpcomingPreview<T>(events: seq<T>): (shown: seq<T>)
    ensures |shown| <= 3 && |shown| <= |events| && shown == events[..|shown|]
    ensures |events| <= 3 ==> shown == events
    ensures |events| > 3 ==> |shown| == 3
  {
    if |events| <= 3 then events else events[..3]
  }

  function ClubHref(id: string): string {
    "/clubs/" + id
  }

  function JoinRequest(id: string): Request {
    Request(Post, "/clubs/" + id + "/join", map[])
  }

  /**
   * What the join button does: an anonymous visitor goes to the login page;
   * a positive fee opens the card form (no effect here, and `isPaid` is not
   * consulted); otherwise the dialog is shown and, when confirmed, the join is posted.
   */
  function JoinEffects(id: string, signedIn: bool, club: ClubRecord, confirmed: bool, reply: Reply): seq<Effect> {
    if !signedIn then [Navigate("/login", false, Some(ClubHref(id)))]
    else if club.membershipFee > 0.0 then []
    else
      [Confirm("Join Club")] +
      if confirmed then
        Mutation(JoinRequest(id), reply, [ToastSuccess("Successfully joined the club!"), Invalidate(["membership", id])],
                 "Failed to join club")
      else []
  }

  /** The join is posted only for a signed-in visitor, for a fee of 0 or less, after confirmation. */
  lemma JoinPostedOnlyWhenConfirmed(id: string, signedIn: bool, club: ClubRecord, confirmed: bool, reply: Reply)
    ensures Requests(JoinEffects(id, signedIn, club, confirmed, reply)) ==
      if signedIn && club.membershipFee <= 0.0 && confirmed then [JoinRequest(id)] else []
    ensures !signedIn ==> JoinEffects(id, signedIn, club, confirmed, reply) == [Navigate("/login", false, Some("/clubs/" + id))]
  {
    var es := JoinEffects(id, signedIn, club, confirmed, reply);
    if !signedIn {
      RequestsNone(es);
    } else if club.membershipFee > 0.0 {
    } else {
      var rest := es[1..];
      assert es == [Confirm("Join Club")] + rest;
      RequestsAppend([Confirm("Join Club")], rest);
      RequestsNone([Confirm("Join Club")]);
      if confirmed {
        MutationSendsOnce(JoinRequest(id), reply, [ToastSuccess("Successfully joined the club!"), Invalidate(["membership", id])],
                          "Failed to join club");
      } else {
        RequestsNone(rest);
      }
    }
  }

  /** The club page's own state: which club, whether the card form was opened, and what it did. */
  class ClubPage {
    const id: string
    var showPayment: bool
    var effects: seq<Effect>

    constructor(id0: string)
      ensures id == id0 && !showPayment && effects == []
    {
      id := id0;
      showPayment := false;
      effects := [];
    }

    /** `handleJoin`, with the session, the club and the dialog's answer as inputs. */
    method HandleJoin(signedIn: bool, club: ClubRecord, confirmed: bool, reply: Reply)
      modifies this
      ensures showPayment == (old(showPayment) || (signedIn && club.membershipFee > 0.0))
      ensures effects == old(effects) + JoinEffects(id, signedIn, club, confirmed, reply)
    {
      if !signedIn {
        effects := effects + [Navigate("/login", false, Some(ClubHref(id)))];
        return;
      }
      if club.membershipFee > 0.0 {
        showPayment := true;
      } else {
        effects := effects + [Confirm("Join Club")];
        if confirmed {
          effects := effects + Mutation(JoinRequest(id), reply,
                                        [ToastSuccess("Successfully joined the club!"), Invalidate(["membership", id])],
                                        "Failed to join club");
        }
      }
    }

    /** The card form's `onSuccess`: the form closes and the membership is refetched. */
    method OnPaymentSuccess()
      modifies this
      ensures !showPayment && effects == old(effects) + [Invalidate(["membership", id])]
    {
      showPayment := false;
      effects := effects + [Invalidate(["membership", id])];
    }
  }
}
