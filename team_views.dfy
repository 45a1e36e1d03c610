/**
 * The team views: each runs its checks in a fixed order and answers the
 * first one that fails; only when all pass does it change the tables and
 * append one audit entry. Each view's checks are a function giving the
 * refusal, or None; the view itself is a method over the database.
 */
module TeamViews {
  import opened Wrappers
  import opened Strings
  import opened Dates
  import opened TeamModels
  import opened Middleware
  import opened Permissions

  /** What a view answers: a redirect, a JSON reply, or 405 for a method other than POST. */
  datatype ViewResult = Redirect(url: string) | Json(response: Response) | MethodNotAllowed

  function Refuse(status: nat, error: string): ViewResult {
    Json(Response(status, false, error))
  }

  const Done: ViewResult := Json(Response(200, true, ""))

  /**
   * `@login_required`, then `@require_permission_ajax(name)`, then the
   * view's own POST check. The view body runs only for a signed-in user
   * holding the permission, on a POST.
   */
  function AjaxPreamble(user: Option<nat>, org: Option<Organization>, members: seq<Member>,
                        requests: seq<PermissionRequest>, name: string, isPost: bool, today: CalDate): (r: Option<ViewResult>)
    reads requests
    ensures r.None? <==> HasPermission(user, org, members, requests, name, today) && isPost
    ensures r.None? ==> user.Some? && org.Some?
    ensures user.None? ==> r == Some(Redirect("login"))
  {
    if user.None? then Some(Redirect("login"))
    else
      match RequirePermissionAjax(user, org, members, requests, name, today)
      case Some(resp) => Some(Json(resp))
      case None => if !isPost then Some(Refuse(400, "POST required")) else None
  }

  // ---------------------------------------------------------------- switching

  /**
   * `switch_organization`: the session organization changes only when the
   * user has an active membership in that organization and the organization
   * is active; either way the reply sends the user back where they came from.
   */
  method SwitchOrganization(req: Request, db: Database, orgId: nat) returns (result: ViewResult)
    modifies req`session
    ensures req.user.None? ==> result == Redirect("login") && req.session == old(req.session)
    ensures req.user.Some? ==>
      result == Redirect(if "HTTP_REFERER" in req.meta then req.meta["HTTP_REFERER"] else "/dashboard/")
      && req.session == (if SessionMembership(db.orgs, db.members, req.user.value, orgId).Some?
                         then old(req.session)[SessionKey := orgId] else old(req.session))
    ensures req.user.Some? && orgId != 0 && SessionMembership(db.orgs, db.members, req.user.value, orgId).Some? ==>
      SessionOrg(req.session) == Some(orgId as int)
  {
    if req.user.None? {
      return Redirect("login");
    }
    if SessionMembership(db.orgs, db.members, req.user.value, orgId).Some? {
      req.session := req.session[SessionKey := orgId];
    }
    result := Redirect(if "HTTP_REFERER" in req.meta then req.meta["HTTP_REFERER"] else "/dashboard/");
  }

  // ---------------------------------------------------------------- members

  /** The users with exactly this e-mail address, in table order. */
  function WithEmail(users: seq<User>, email: string): (r: seq<User>)
    ensures forall u :: u in r <==> u in users && u.email == email
    ensures |r| <= |users|
  {
    if |users| == 0 then []
    else
      assert forall u :: u in users <==> u == users[0] || u in users[1..];
      (if users[0].email == email then [users[0]] else []) + WithEmail(users[1..], email)
  }

  /** The username of a user id, "" when unknown. */
  function UsernameOf(users: seq<User>, id: nat): string {
    if |users| == 0 then ""
    else if users[0].id == id then users[0].username
    else UsernameOf(users[1..], id)
  }

  /**
   * `invite_member`'s checks, in order: the preamble; e-mail (stripped) and
   * role present; the role belongs to the organization; exactly one user has
   * that e-mail; that user has no membership here, active or not; the
   * organization is below `max_users`.
   */
  function InviteRefusal(req: Request, db: Database, isPost: bool, email: string, roleId: Option<nat>, today: CalDate): (r: Option<ViewResult>)
    reads req, db, db.requests
    ensures r.None? ==> HasPermission(req.user, req.organization, db.members, db.requests, "can_manage_members", today) && isPost
    ensures r.None? ==> req.user.Some? && req.organization.Some? && Strip(email) != ""
    ensures r.None? ==> roleId.Some? && roleId.value in db.roles && db.roles[roleId.value].org == req.organization.value.id
    ensures r.None? ==> |WithEmail(db.users, Strip(email))| == 1
  {
    var pre := AjaxPreamble(req.user, req.organization, db.members, db.requests, "can_manage_members", isPost, today);
    if pre.Some? then pre
    else
      var org := req.organization.value;
      var address := Strip(email);
      if address == "" || roleId.None? then Some(Refuse(400, "Email and role are required"))
      else if !(roleId.value in db.roles && db.roles[roleId.value].org == org.id) then Some(Refuse(400, "Invalid role"))
      else
        var found := WithEmail(db.users, address);
        if |found| == 0 then Some(Refuse(400, "User with this email does not exist. They need to sign up first."))
        else if |found| > 1 then Some(Refuse(500, "get() returned more than one User -- it returned " + NatToString(|found|) + "!"))
        else if exists m :: m in db.members && m.org == org.id && m.user == found[0].id then
          Some(Refuse(400, "This user is already a member of the organization."))
        else if !CanAddMember(org, db.members) then
          Some(Refuse(400, "Organization has reached maximum members limit (" + IntToString(org.maxUsers) + ")."))
        else None
  }

  /**
   * An invitation that passes the checks is for a user with no membership
   * in the organization, while it is below its limit: after it the
   * organization has one more active member and is still within the limit.
   */
  lemma InviteWithinLimit(req: Request, db: Database, isPost: bool, email: string, roleId: Option<nat>, today: CalDate)
    requires InviteRefusal(req, db, isPost, email, roleId, today).None?
    ensures forall x :: x in db.members ==>
      (x.org, x.user) != (req.organization.value.id, WithEmail(db.users, Strip(email))[0].id)
    ensures MemberCount(db.members, req.organization.value.id) < req.organization.value.maxUsers
  {
    var org := req.organization.value;
    var invitee := WithEmail(db.users, Strip(email))[0].id;
    assert !(exists m :: m in db.members && m.org == org.id && m.user == invitee);
    assert CanAddMember(org, db.members);
  }

  /**
   * `invite_member`: on a refusal nothing changes; otherwise one active
   * membership with the next id is appended for the invited user with the
   * chosen role, and one "invite" entry is logged.
   */
  method InviteMember(req: Request, db: Database, log: ActivityLog, isPost: bool, email: string, roleId: Option<nat>, today: CalDate)
    returns (result: ViewResult)
    requires db.Valid()
    modifies db`members, db`nextId, log
    ensures db.Valid()
    ensures var refusal := old(InviteRefusal(req, db, isPost, email, roleId, today));
      refusal.Some? ==>
        result == refusal.value && db.members == old(db.members) && db.nextId == old(db.nextId)
        && log.entries == old(log.entries)
    ensures var refusal := old(InviteRefusal(req, db, isPost, email, roleId, today));
      refusal.None? ==>
        var org := req.organization.value;
        var invitee := WithEmail(db.users, Strip(email))[0].id;
        result == Done
        && db.members == old(db.members) + [Member(old(db.nextId), org.id, invitee, db.roles[roleId.value], true)]
        && db.nextId == old(db.nextId) + 1
        && MemberCount(db.members, org.id) == MemberCount(old(db.members), org.id) + 1 <= org.maxUsers
        && |log.entries| == |old(log.entries)| + 1 && log.entries[..|old(log.entries)|] == old(log.entries)
        && log.entries[|old(log.entries)|].action == "invite"
  {
    var refusal := InviteRefusal(req, db, isPost, email, roleId, today);
    if refusal.Some? {
      return refusal.value;
    }
    InviteWithinLimit(req, db, isPost, email, roleId, today);
    result := InviteAccepted(req, db, log, req.organization.value, WithEmail(db.users, Strip(email))[0], roleId.value);
  }

  /**
   * The write `invite_member` makes once its checks pass: a new active
   * membership under the next id, which brings the organization one member
   * closer to its limit without passing it, and its "invite" audit entry.
   */
  method InviteAccepted(req: Request, db: Database, log: ActivityLog, org: Organization, invitee: User, roleId: nat)
    returns (result: ViewResult)
    requires db.Valid() && req.user.Some? && roleId in db.roles
    requires forall x :: x in db.members ==> (x.org, x.user) != (org.id, invitee.id)
    requires MemberCount(db.members, org.id) < org.maxUsers
    modifies db`members, db`nextId, log
    ensures db.Valid() && result == Done
    ensures db.members == old(db.members) + [Member(old(db.nextId), org.id, invitee.id, db.roles[roleId], true)]
    ensures db.nextId == old(db.nextId) + 1
    ensures MemberCount(db.members, org.id) == MemberCount(old(db.members), org.id) + 1 <= org.maxUsers
    ensures |log.entries| == |old(log.entries)| + 1 && log.entries[..|old(log.entries)|] == old(log.entries)
    ensures log.entries[|old(log.entries)|].action == "invite"
  {
    CountAfterJoin(db.members, Member(db.nextId, org.id, invitee.id, db.roles[roleId], true));
    AddMember(req, db, log, org.id, invitee, db.roles[roleId]);
    result := Done;
  }

  /** The membership and audit entry an accepted invitation writes. */
  method AddMember(req: Request, db: Database, log: ActivityLog, org: nat, invitee: User, role: Role)
    requires db.Valid() && req.user.Some?
    requires forall x :: x in db.members ==> (x.org, x.user) != (org, invitee.id)
    modifies db`members, db`nextId, log
    ensures db.Valid()
    ensures db.members == old(db.members) + [Member(old(db.nextId), org, invitee.id, role, true)]
    ensures db.nextId == old(db.nextId) + 1
    ensures |log.entries| == |old(log.entries)| + 1 && log.entries[..|old(log.entries)|] == old(log.entries)
    ensures log.entries[|old(log.entries)|].action == "invite"
  {
    var member := Member(db.nextId, org, invitee.id, role, true);
    JoinKeepsWellFormed(db.members, db.nextId, member);
    db.members := db.members + [member];
    db.nextId := db.nextId + 1;
    var _ := LogActivity(log, Some(org), req.user, "invite", Some("member"), Some(member.id),
                         "Invited " + invitee.email + " as " + role.name, None, Some(req));
  }

  /** The index of the membership with this id in this organization, or -1. */
  function MemberIndex(members: seq<Member>, id: nat, org: nat): (k: int)
    ensures -1 <= k < |members|
    ensures k >= 0 ==> members[k].id == id && members[k].org == org
    ensures k < 0 ==> forall i :: 0 <= i < |members| ==> !(members[i].id == id && members[i].org == org)
  {
    if |members| == 0 then -1
    else if members[|members| - 1].id == id && members[|members| - 1].org == org then |members| - 1
    else MemberIndex(members[..|members| - 1], id, org)
  }

  /**
   * `remove_member`'s checks, in order: the preamble; the membership exists
   * in this organization; it is not the owner's; it is not the caller's own.
   */
  function RemoveRefusal(req: Request, db: Database, isPost: bool, memberId: nat, today: CalDate): (r: Option<ViewResult>)
    reads req, db, db.requests
    ensures r.None? ==> HasPermission(req.user, req.organization, db.members, db.requests, "can_manage_members", today) && isPost
    ensures r.None? ==> req.user.Some? && req.organization.Some?
    ensures r.None? ==>
      var k := MemberIndex(db.members, memberId, req.organization.value.id);
      0 <= k && !db.members[k].role.isOwner && db.members[k].user != req.user.value
  {
    var pre := AjaxPreamble(req.user, req.organization, db.members, db.requests, "can_manage_members", isPost, today);
    if pre.Some? then pre
    else
      var k := MemberIndex(db.members, memberId, req.organization.value.id);
      if k < 0 then Some(Refuse(404, "Member not found"))
      else if db.members[k].role.isOwner then Some(Refuse(400, "Cannot remove the organization owner."))
      else if db.members[k].user == req.user.value then
        Some(Refuse(400, "You cannot remove yourself. Ask another admin to remove you."))
      else None
  }

  /**
   * With one membership per (organization, user), deactivating the
   * membership at index k leaves its user with no active membership there.
   */
  lemma DeactivatedHasNoMembership(members: seq<Member>, k: nat)
    requires k < |members|
    requires forall i, j :: 0 <= i < j < |members| ==> (members[i].org, members[i].user) != (members[j].org, members[j].user)
    ensures ActiveMember(members[k := members[k].(isActive := false)], members[k].user, members[k].org).None?
  {
    var after := members[k := members[k].(isActive := false)];
    forall m | m in after && m.user == members[k].user && m.org == members[k].org
      ensures !m.isActive
    {
      var i :| 0 <= i < |after| && after[i] == m;
    }
  }

  /**
   * `remove_member`: on a refusal nothing changes; otherwise the membership
   * is deactivated, never deleted, and one "delete" entry is logged. Owner
   * memberships are never touched, and the removed user is left with no
   * permission at all in the organization.
   */
  method RemoveMember(req: Request, db: Database, log: ActivityLog, isPost: bool, memberId: nat, today: CalDate)
    returns (result: ViewResult)
    requires db.Valid()
    modifies db`members, log
    ensures db.Valid()
    ensures |db.members| == |old(db.members)|
    ensures forall i :: 0 <= i < |old(db.members)| && old(db.members[i]).role.isOwner ==> db.members[i] == old(db.members[i])
    ensures var refusal := old(RemoveRefusal(req, db, isPost, memberId, today));
      refusal.Some? ==> result == refusal.value && db.members == old(db.members) && log.entries == old(log.entries)
    ensures var refusal := old(RemoveRefusal(req, db, isPost, memberId, today));
      refusal.None? ==>
        var k := MemberIndex(old(db.members), memberId, req.organization.value.id);
        var gone := old(db.members[k]);
        result == Done
        && db.members == old(db.members)[k := gone.(isActive := false)]
        && gone.user != req.user.value
        && (forall name :: !HasPermission(Some(gone.user), req.organization, db.members, db.requests, name, today))
        && |log.entries| == |old(log.entries)| + 1 && log.entries[..|old(log.entries)|] == old(log.entries)
  {
    var refusal := RemoveRefusal(req, db, isPost, memberId, today);
    if refusal.Some? {
      return refusal.value;
    }
    var org := req.organization.value;
    result := RemoveAccepted(req, db, log, org, MemberIndex(db.members, memberId, org.id), today);
  }

  /**
   * The write `remove_member` makes once its checks pass: the membership at
   * index k is deactivated, which leaves its user no permission in the
   * organization, and one "delete" entry is logged.
   */
  method RemoveAccepted(req: Request, db: Database, log: ActivityLog, org: Organization, k: nat, today: CalDate)
    returns (result: ViewResult)
    requires db.Valid() && req.user.Some? && req.organization == Some(org)
    requires k < |db.members| && db.members[k].org == org.id && !db.members[k].role.isOwner
    modifies db`members, log
    ensures db.Valid() && result == Done
    ensures db.members == old(db.members)[k := old(db.members[k]).(isActive := false)]
    ensures forall name :: !HasPermission(Some(old(db.members[k]).user), req.organization, db.members, db.requests, name, today)
    ensures |log.entries| == |old(log.entries)| + 1 && log.entries[..|old(log.entries)|] == old(log.entries)
  {
    var gone := db.members[k];
    var username := UsernameOf(db.users, gone.user);
    DeactivatedHasNoMembership(db.members, k);
    ReplaceKeepsWellFormed(db.members, db.nextId, k, gone.(isActive := false));
    db.members := db.members[k := gone.(isActive := false)];
    var _ := LogActivity(log, Some(org.id), req.user, "delete", Some("member"), Some(gone.id),
                         "Removed member " + username, None, Some(req));
    result := Done;
  }

  /**
   * `change_member_role`'s checks, in order: the preamble; a role given;
   * the membership and the role both exist in this organization; the
   * membership does not hold the owner role. The new role itself is not checked.
   */
  function ChangeRoleRefusal(req: Request, db: Database, isPost: bool, memberId: nat, roleId: Option<nat>, today: CalDate): (r: Option<ViewResult>)
    reads req, db, db.requests
    ensures r.None? ==> HasPermission(req.user, req.organization, db.members, db.requests, "can_manage_members", today) && isPost
    ensures r.None? ==> req.user.Some? && req.organization.Some?
    ensures r.None? ==> roleId.Some? && roleId.value in db.roles && db.roles[roleId.value].org == req.organization.value.id
    ensures r.None? ==>
      var k := MemberIndex(db.members, memberId, req.organization.value.id);
      0 <= k && !db.members[k].role.isOwner
  {
    var pre := AjaxPreamble(req.user, req.organization, db.members, db.requests, "can_manage_members", isPost, today);
    if pre.Some? then pre
    else if roleId.None? then Some(Refuse(400, "Role is required"))
    else
      var org := req.organization.value;
      var k := MemberIndex(db.members, memberId, org.id);
      if k < 0 || !(roleId.value in db.roles && db.roles[roleId.value].org == org.id) then
        Some(Refuse(404, "Member or role not found"))
      else if db.members[k].role.isOwner then Some(Refuse(400, "Cannot change the organization owner's role."))
      else None
  }

  /**
   * `change_member_role`: on a refusal nothing changes; otherwise only that
   * membership's role changes, so no organization's active count moves, and
   * one "update" entry is logged. Owner memberships keep their role.
   */
  method ChangeMemberRole(req: Request, db: Database, log: ActivityLog, isPost: bool, memberId: nat, roleId: Option<nat>, today: CalDate)
    returns (result: ViewResult)
    requires db.Valid()
    modifies db`members, log
    ensures db.Valid()
    ensures |db.members| == |old(db.members)|
    ensures forall i :: 0 <= i < |old(db.members)| && old(db.members[i]).role.isOwner ==> db.members[i] == old(db.members[i])
    ensures forall o :: MemberCount(db.members, o) == MemberCount(old(db.members), o)
    ensures var refusal := old(ChangeRoleRefusal(req, db, isPost, memberId, roleId, today));
      refusal.Some? ==> result == refusal.value && db.members == old(db.members) && log.entries == old(log.entries)
    ensures var refusal := old(ChangeRoleRefusal(req, db, isPost, memberId, roleId, today));
      refusal.None? ==>
        var k := MemberIndex(old(db.members), memberId, req.organization.value.id);
        result == Done
        && db.members == old(db.members)[k := old(db.members[k]).(role := db.roles[roleId.value])]
        && |log.entries| == |old(log.entries)| + 1 && log.entries[..|old(log.entries)|] == old(log.entries)
  {
    var refusal := ChangeRoleRefusal(req, db, isPost, memberId, roleId, today);
    if refusal.Some? {
      return refusal.value;
    }
    var org := req.organization.value;
    result := ChangeRoleAccepted(req, db, log, org, MemberIndex(db.members, memberId, org.id), db.roles[roleId.value]);
  }

  /**
   * The write `change_member_role` makes once its checks pass: only the
   * role of the membership at index k changes, so no organization's active
   * count moves, and one "update" entry is logged.
   */
  method ChangeRoleAccepted(req: Request, db: Database, log: ActivityLog, org: Organization, k: nat, role: Role)
    returns (result: ViewResult)
    requires db.Valid() && req.user.Some?
    requires k < |db.members| && !db.members[k].role.isOwner
    modifies db`members, log
    ensures db.Valid() && result == Done
    ensures db.members == old(db.members)[k := old(db.members[k]).(role := role)]
    ensures forall o :: MemberCount(db.members, o) == MemberCount(old(db.members), o)
    ensures |log.entries| == |old(log.entries)| + 1 && log.entries[..|old(log.entries)|] == old(log.entries)
  {
    var m := db.members[k];
    forall o {
      CountAfterRoleChange(db.members, k, role, o);
    }
    ReplaceKeepsWellFormed(db.members, db.nextId, k, m.(role := role));
    db.members := db.members[k := m.(role := role)];
    var _ := LogActivity(log, Some(org.id), req.user, "update", Some("member"), Some(m.id),
                         "Changed " + UsernameOf(db.users, m.user) + " role from " + m.role.name + " to " + role.name,
                         None, Some(req));
    result := Done;
  }

  // ---------------------------------------------------------------- approvals

  function StatusName(s: ApprovalStatus): string {
    match s
    case Pending => "pending"
    case Approved => "approved"
    case Rejected => "rejected"
    case Cancelled => "cancelled"
  }

  /** The approval with this id in this organization, when there is one. */
  predicate Found(db: Database, approvalId: nat, org: Organization)
    reads db, db.approvals.Values
  {
    approvalId in db.approvals && db.approvals[approvalId].org == org.id
  }

  /**
   * The checks `approve_request` and `reject_request` share, in order: a
   * signed-in user; POST; an organization; the approval exists there; the
   * caller's role is one of its workflow's approver roles; it is pending.
   */
  function DecisionRefusal(req: Request, db: Database, isPost: bool, approvalId: nat, verb: string): Option<ViewResult>
    requires db.Valid() && req.ContextConsistent()
    reads req, db, db.approvals.Values
  {
    if req.user.None? then Some(Redirect("login"))
    else if !isPost then Some(MethodNotAllowed)
    else if req.organization.None? then Some(Refuse(400, "No organization selected"))
    else if !Found(db, approvalId, req.organization.value) then Some(Refuse(404, "Approval request not found"))
    else
      var a := db.approvals[approvalId];
      if req.member.value.role.id !in db.workflows[a.workflow].approverRoles then
        Some(Refuse(403, "You do not have permission to " + verb + " this request."))
      else if a.status != Pending then Some(Refuse(400, "This request has already been " + StatusName(a.status) + "."))
      else None
  }

  /** `approve_request`'s checks: the shared ones, then that the caller has not approved it already. */
  function ApproveRefusal(req: Request, db: Database, isPost: bool, approvalId: nat): Option<ViewResult>
    requires db.Valid() && req.ContextConsistent()
    reads req, db, db.approvals.Values
  {
    var shared := DecisionRefusal(req, db, isPost, approvalId, "approve");
    if shared.Some? then shared
    else if req.user.value in db.approvals[approvalId].approvedBy then Some(Refuse(400, "You have already approved this request."))
    else None
  }

  /** The approval objects a decision view may change: the one it names, if present. */
  function Target(db: Database, approvalId: nat): set<Approval>
    reads db
  {
    set id | id in db.approvals && id == approvalId :: db.approvals[id]
  }

  /**
   * `approve_request`: on a refusal nothing changes; otherwise the caller's
   * approval is added under the workflow's quorum and one "approve" entry is
   * logged. A settled approval never changes here, and every accepted call
   * adds a new approver.
   */
  method ApproveRequest(req: Request, db: Database, log: ActivityLog, isPost: bool, approvalId: nat, now: int)
    returns (result: ViewResult)
    requires db.Valid() && req.ContextConsistent()
    modifies log, Target(db, approvalId)
    ensures db.Valid()
    ensures approvalId in db.approvals && old(db.approvals[approvalId].status) != Pending ==>
      db.approvals[approvalId].State() == old(db.approvals[approvalId].State())
    ensures var refusal := old(ApproveRefusal(req, db, isPost, approvalId));
      refusal.Some? ==>
        result == refusal.value && log.entries == old(log.entries)
        && (approvalId in db.approvals ==> db.approvals[approvalId].State() == old(db.approvals[approvalId].State()))
    ensures var refusal := old(ApproveRefusal(req, db, isPost, approvalId));
      refusal.None? ==>
        var a := db.approvals[approvalId];
        result == Done
        && a.State() == AfterApprove(old(a.State()), req.user.value, db.workflows[a.workflow].approvalsRequired, now)
        && |a.approvedBy| == |old(a.approvedBy)| + 1
        && |log.entries| == |old(log.entries)| + 1 && log.entries[..|old(log.entries)|] == old(log.entries)
  {
    var refusal := ApproveRefusal(req, db, isPost, approvalId);
    if refusal.Some? {
      return refusal.value;
    }
    var a := db.approvals[approvalId];
    var required := db.workflows[a.workflow].approvalsRequired;
    a.Approve(req.user.value, required, now);
    var _ := LogActivity(log, Some(req.organization.value.id), req.user, "approve", Some(a.entityType), Some(a.entityId),
                         "Approved: " + a.entityDescription, None, Some(req));
    result := Done;
  }

  /**
   * `reject_request`: the shared checks only; then the approval is rejected
   * by the caller, with the reason given or "No reason provided", and one
   * "reject" entry is logged. A settled approval never changes here.
   */
  method RejectRequest(req: Request, db: Database, log: ActivityLog, isPost: bool, approvalId: nat, reason: Option<string>, now: int)
    returns (result: ViewResult)
    requires db.Valid() && req.ContextConsistent()
    modifies log, Target(db, approvalId)
    ensures db.Valid()
    ensures approvalId in db.approvals && old(db.approvals[approvalId].status) != Pending ==>
      db.approvals[approvalId].State() == old(db.approvals[approvalId].State())
    ensures var refusal := old(DecisionRefusal(req, db, isPost, approvalId, "reject"));
      refusal.Some? ==>
        result == refusal.value && log.entries == old(log.entries)
        && (approvalId in db.approvals ==> db.approvals[approvalId].State() == old(db.approvals[approvalId].State()))
    ensures var refusal := old(DecisionRefusal(req, db, isPost, approvalId, "reject"));
      refusal.None? ==>
        var a := db.approvals[approvalId];
        result == Done
        && a.State() == AfterReject(old(a.State()), req.user.value, if reason.Some? then reason.value else "No reason provided", now)
        && |log.entries| == |old(log.entries)| + 1 && log.entries[..|old(log.entries)|] == old(log.entries)
  {
    var refusal := DecisionRefusal(req, db, isPost, approvalId, "reject");
    if refusal.Some? {
      return refusal.value;
    }
    var a := db.approvals[approvalId];
    a.Reject(req.user.value, if reason.Some? then reason.value else "No reason provided", now);
    var _ := LogActivity(log, Some(req.organization.value.id), req.user, "reject", Some(a.entityType), Some(a.entityId),
                         "Rejected: " + a.entityDescription, None, Some(req));
    result := Done;
  }

  // ---------------------------------------------------------------- workflows

  /** The JSON body of `create_workflow`; None for a key that is absent. */
  datatype WorkflowData = WorkflowData(
    name: Option<string>, entityType: Option<string>, minAmount: Option<real>, maxAmount: Option<real>,
    approvalsRequired: Option<int>, isActive: Option<bool>, approverRoleIds: Option<seq<nat>>, labelIds: Option<seq<nat>>)

  /** `Decimal(x) if data.get(key) else None`: a zero amount counts as absent. */
  function Truthy(x: Option<real>): Option<real> {
    if x.Some? && x.value != 0.0 then x else None
  }

  /** The listed ids that belong to this organization; an absent or empty list selects none. */
  function OwnedIds(ids: Option<seq<nat>>, owner: map<nat, nat>, org: nat): (r: set<nat>)
    ensures forall i :: i in r <==> ids.Some? && i in ids.value && i in owner && owner[i] == org
  {
    if ids.None? then {} else set i | i in ids.value && i in owner && owner[i] == org
  }

  function RoleOwners(roles: map<nat, Role>): (r: map<nat, nat>)
    ensures forall i :: i in r <==> i in roles
    ensures forall i :: i in r ==> r[i] == roles[i].org
  {
    map i | i in roles :: roles[i].org
  }

  /** `create_workflow`'s checks, in order: the preamble, then the `name` and `entity_type` keys. */
  function CreateWorkflowRefusal(req: Request, db: Database, isPost: bool, data: WorkflowData, today: CalDate): (r: Option<ViewResult>)
    reads req, db, db.requests
    ensures r.None? ==> HasPermission(req.user, req.organization, db.members, db.requests, "can_manage_organization", today) && isPost
    ensures r.None? ==> req.user.Some? && req.organization.Some? && data.name.Some? && data.entityType.Some?
  {
    var pre := AjaxPreamble(req.user, req.organization, db.members, db.requests, "can_manage_organization", isPost, today);
    if pre.Some? then pre
    else if data.name.None? then Some(Refuse(400, "Missing field: 'name'"))
    else if data.entityType.None? then Some(Refuse(400, "Missing field: 'entity_type'"))
    else None
  }

  /** The workflow `create_workflow` stores; the entity type is taken as given, not checked against the choices. */
  function NewWorkflow(id: nat, org: nat, data: WorkflowData, roles: map<nat, Role>, labels: map<nat, nat>): (w: Workflow)
    requires data.name.Some? && data.entityType.Some?
    ensures w.approverRoles <= roles.Keys && forall r :: r in w.approverRoles ==> roles[r].org == org
    ensures forall l :: l in w.labels ==> l in labels && labels[l] == org
    ensures w.approvalsRequired == (if data.approvalsRequired.Some? then data.approvalsRequired.value else 1)
    ensures w.isActive == (data.isActive.None? || data.isActive.value)
  {
    Workflow(id, org, data.name.value, data.entityType.value, Truthy(data.minAmount), Truthy(data.maxAmount),
             OwnedIds(data.labelIds, labels, org), OwnedIds(data.approverRoleIds, RoleOwners(roles), org),
             if data.approvalsRequired.Some? then data.approvalsRequired.value else 1,
             data.isActive.None? || data.isActive.value)
  }

  /**
   * `create_workflow`: on a refusal nothing changes; otherwise the new
   * workflow is stored under the next id and one "create" entry is logged.
   */
  method CreateWorkflow(req: Request, db: Database, log: ActivityLog, isPost: bool, data: WorkflowData, today: CalDate)
    returns (result: ViewResult)
    requires db.Valid()
    modifies db`workflows, db`nextId, log
    ensures db.Valid()
    ensures var refusal := old(CreateWorkflowRefusal(req, db, isPost, data, today));
      refusal.Some? ==>
        result == refusal.value && db.workflows == old(db.workflows) && db.nextId == old(db.nextId)
        && log.entries == old(log.entries)
    ensures var refusal := old(CreateWorkflowRefusal(req, db, isPost, data, today));
      refusal.None? ==>
        result == Done
        && db.workflows == old(db.workflows)[old(db.nextId) := NewWorkflow(old(db.nextId), req.organization.value.id, data, db.roles, db.labels)]
        && old(db.nextId) !in old(db.workflows)
        && db.nextId == old(db.nextId) + 1
        && |log.entries| == |old(log.entries)| + 1 && log.entries[..|old(log.entries)|] == old(log.entries)
  {
    var refusal := CreateWorkflowRefusal(req, db, isPost, data, today);
    if refusal.Some? {
      return refusal.value;
    }
    result := CreateAccepted(req, db, log, req.organization.value.id, data);
  }

  /** The write `create_workflow` makes once its checks pass: the new workflow under the next id, and its audit entry. */
  method CreateAccepted(req: Request, db: Database, log: ActivityLog, org: nat, data: WorkflowData)
    returns (result: ViewResult)
    requires db.Valid() && req.user.Some? && data.name.Some? && data.entityType.Some?
    modifies db`workflows, db`nextId, log
    ensures db.Valid() && result == Done
    ensures db.workflows == old(db.workflows)[old(db.nextId) := NewWorkflow(old(db.nextId), org, data, db.roles, db.labels)]
    ensures old(db.nextId) !in old(db.workflows)
    ensures db.nextId == old(db.nextId) + 1
    ensures |log.entries| == |old(log.entries)| + 1 && log.entries[..|old(log.entries)|] == old(log.entries)
  {
    var w := NewWorkflow(db.nextId, org, data, db.roles, db.labels);
    db.workflows := db.workflows[db.nextId := w];
    db.nextId := db.nextId + 1;
    var _ := LogActivity(log, Some(org), req.user, "create", Some("approval_workflow"), Some(w.id),
                         "Created approval workflow: " + w.name, None, Some(req));
    result := Done;
  }

  /** The pending approvals of a workflow. */
  function PendingOf(db: Database, workflowId: nat): set<nat>
    reads db, db.approvals.Values
  {
    set a | a in db.approvals && db.approvals[a].workflow == workflowId && db.approvals[a].status == Pending
  }

  /** `delete_workflow`'s checks, in order: the preamble; the workflow exists here; none of its approvals is pending. */
  function DeleteWorkflowRefusal(req: Request, db: Database, isPost: bool, workflowId: nat, today: CalDate): (r: Option<ViewResult>)
    reads req, db, db.requests, db.approvals.Values
    ensures r.None? ==> HasPermission(req.user, req.organization, db.members, db.requests, "can_manage_organization", today) && isPost
    ensures r.None? ==> req.user.Some? && req.organization.Some?
    ensures r.None? ==> workflowId in db.workflows && db.workflows[workflowId].org == req.organization.value.id
    ensures r.None? ==> PendingOf(db, workflowId) == {}
  {
    var pre := AjaxPreamble(req.user, req.organization, db.members, db.requests, "can_manage_organization", isPost, today);
    if pre.Some? then pre
    else if !(workflowId in db.workflows && db.workflows[workflowId].org == req.organization.value.id) then
      Some(Refuse(404, "Workflow not found"))
    else if |PendingOf(db, workflowId)| > 0 then
      Some(Refuse(400, "Cannot delete workflow with " + NatToString(|PendingOf(db, workflowId)|) + " pending approvals."))
    else None
  }

  /**
   * `delete_workflow`: on a refusal nothing changes; otherwise the workflow
   * and, by the cascade, its settled approvals are deleted, and one
   * "delete" entry is logged. A pending approval is never deleted.
   */
  method DeleteWorkflow(req: Request, db: Database, log: ActivityLog, isPost: bool, workflowId: nat, today: CalDate)
    returns (result: ViewResult)
    requires db.Valid()
    modifies db`workflows, db`approvals, log
    ensures db.Valid()
    ensures forall a :: a in old(db.approvals) && old(db.approvals[a].status) == Pending ==>
      a in db.approvals && db.approvals[a] == old(db.approvals[a])
    ensures var refusal := old(DeleteWorkflowRefusal(req, db, isPost, workflowId, today));
      refusal.Some? ==>
        result == refusal.value && db.workflows == old(db.workflows) && db.approvals == old(db.approvals)
        && log.entries == old(log.entries)
    ensures var refusal := old(DeleteWorkflowRefusal(req, db, isPost, workflowId, today));
      refusal.None? ==>
        result == Done
        && db.workflows == old(db.workflows) - {workflowId}
        && (forall a :: a in db.approvals <==> a in old(db.approvals) && old(db.approvals[a].workflow) != workflowId)
        && (forall a :: a in db.approvals ==> db.approvals[a] == old(db.approvals[a]))
        && |log.entries| == |old(log.entries)| + 1 && log.entries[..|old(log.entries)|] == old(log.entries)
  {
    var refusal := DeleteWorkflowRefusal(req, db, isPost, workflowId, today);
    if refusal.Some? {
      return refusal.value;
    }
    result := DeleteAccepted(req, db, log, workflowId);
  }

  /**
   * The write `delete_workflow` makes once its checks pass: the workflow
   * and its approvals, none of them pending, are deleted, and one "delete"
   * entry is logged.
   */
  method DeleteAccepted(req: Request, db: Database, log: ActivityLog, workflowId: nat)
    returns (result: ViewResult)
    requires db.Valid() && req.user.Some? && req.organization.Some?
    requires workflowId in db.workflows && PendingOf(db, workflowId) == {}
    modifies db`workflows, db`approvals, log
    ensures db.Valid() && result == Done
    ensures db.workflows == old(db.workflows) - {workflowId}
    ensures forall a :: a in db.approvals <==> a in old(db.approvals) && old(db.approvals[a].workflow) != workflowId
    ensures forall a :: a in db.approvals ==> db.approvals[a] == old(db.approvals[a])
    ensures forall a :: a in old(db.approvals) && old(db.approvals[a].status) == Pending ==> a in db.approvals
    ensures |log.entries| == |old(log.entries)| + 1 && log.entries[..|old(log.entries)|] == old(log.entries)
  {
    var name := db.workflows[workflowId].name;
    forall a | a in db.approvals && db.approvals[a].workflow == workflowId
      ensures db.approvals[a].status != Pending
    {
      assert a !in PendingOf(db, workflowId);
    }
    db.approvals := map a | a in db.approvals && db.approvals[a].workflow != workflowId :: db.approvals[a];
    db.workflows := db.workflows - {workflowId};
    var _ := LogActivity(log, Some(req.organization.value.id), req.user, "delete", Some("approval_workflow"), Some(workflowId),
                         "Deleted approval workflow: " + name, None, Some(req));
    result := Done;
  }
}
