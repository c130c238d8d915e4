/**
 * The admin's user table: how a role is shown, which row's select is locked,
 * and what picking a new role does.
 */
module ManageUsers {
  import opened JsValues
  import opened Effects
  import opened Roles

  /** A user as the admin's user list returns it. */
  datatype UserRow = UserRow(name: string, email: string, role: string)

  datatype RoleBadge = ErrorBadge | SecondaryBadge | PrimaryBadge

  /** The role badge: admins red, managers secondary, every other role primary. */
  function RoleBadgeOf(role: string): (b: RoleBadge)
    ensures b == ErrorBadge <==> role == AdminRole
    ensures b == SecondaryBadge <==> role == ManagerRole
    ensures b == PrimaryBadge <==> role != AdminRole && role != ManagerRole
  {
    if role == AdminRole then ErrorBadge
    else if role == ManagerRole then SecondaryBadge
    else PrimaryBadge
  }

  /** The role as displayed: managers read "Manager", any other role as stored. */
  function RoleText(role: string): (text: string)
    ensures role == ManagerRole ==> text == "Manager"
    ensures role != ManagerRole ==> text == role
  {
    if role == ManagerRole then "Manager" else role
  }

  /** The values the role select offers. */
  const RoleOptions: seq<string> := [MemberRole, ManagerRole, AdminRole]

  /** The select offers exactly the three known roles, once each, and each shows its own badge. */
  lemma RoleOptionsKnown()
    ensures forall r :: r in RoleOptions <==> r == MemberRole || r == ManagerRole || r == AdminRole
    ensures forall i, j :: 0 <= i < j < |RoleOptions| ==> RoleBadgeOf(RoleOptions[i]) != RoleBadgeOf(RoleOptions[j])
  {
  }

  /** The select is locked on the signed-in admin's own row. */
  predicate SelectDisabled(me: DbUser, user: UserRow) {
    user.email == me.email
  }

  /** `PATCH /admin/users/<email>/role` with the new role. */
  function RoleRequest(email: string, role: string): Request {
    Request(Patch, "/admin/users/" + email + "/role", map["role" := Str(role)])
  }

  /**
   * `handleRoleChange`: one's own row only gets an error toast; any other
   * row asks for confirmation, and only a confirmed change is sent.
   */
  function RoleChangeEffects(me: DbUser, user: UserRow, newRole: string, confirmed: bool, reply: Reply): seq<Effect> {
    if user.email == me.email then [ToastError("You cannot change your own role")]
    else ConfirmedMutation("Change Role", confirmed, RoleRequest(user.email, newRole), reply,
                           [ToastSuccess("Role updated successfully"), Invalidate(["adminUsers"])], "Failed to update role")
  }

  /**
   * Changing one's own role shows the error and nothing else; for another
   * user the dialog comes first, the request names that user and the chosen
   * role, and it is sent only when confirmed; success refreshes the user list.
   */
  lemma RoleChangeGuard(me: DbUser, user: UserRow, newRole: string, confirmed: bool, reply: Reply)
    ensures user.email == me.email ==> RoleChangeEffects(me, user, newRole, confirmed, reply) == [ToastError("You cannot change your own role")]
    ensures user.email != me.email ==> RoleChangeEffects(me, user, newRole, confirmed, reply)[0] == Confirm("Change Role")
    ensures Requests(RoleChangeEffects(me, user, newRole, confirmed, reply)) ==
      if user.email != me.email && confirmed then [RoleRequest(user.email, newRole)] else []
    ensures user.email != me.email && confirmed && reply.Ok? ==>
      RoleChangeEffects(me, user, newRole, confirmed, reply)[3] == Invalidate(["adminUsers"])
  {
    var es := RoleChangeEffects(me, user, newRole, confirmed, reply);
    if user.email == me.email {
      RequestsNone(es);
    } else {
      ConfirmedMutationSends("Change Role", confirmed, RoleRequest(user.email, newRole), reply,
                             [ToastSuccess("Role updated successfully"), Invalidate(["adminUsers"])], "Failed to update role");
    }
  }

  /** The only row whose select is locked is the one a change would be refused on. */
  lemma DisabledRowIsRefused(me: DbUser, user: UserRow, newRole: string, confirmed: bool, reply: Reply)
    ensures SelectDisabled(me, user) <==>
      RoleChangeEffects(me, user, newRole, confirmed, reply) == [ToastError("You cannot change your own role")]
  {
    if !SelectDisabled(me, user) {
      RoleChangeGuard(me, user, newRole, confirmed, reply);
    }
  }
}
