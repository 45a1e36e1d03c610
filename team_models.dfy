/**
 * The team-collaboration records: organizations with a member limit, roles
 * carrying permission flags, memberships, temporary permission requests and
 * multi-approver approvals. The database tables the team views read and
 * write are the fields of one `Database` object; the permission requests
 * and approvals, whose own methods change them, are objects.
 */
module TeamModels {
  import opened Wrappers
  import opened Dates

  datatype Organization = Organization(id: nat, name: string, isActive: bool, maxUsers: int)

  /** The permission flags of a role, in declaration order. */
  const PermissionFields: seq<string> := [
    "can_manage_organization", "can_manage_members", "can_manage_roles",
    "can_view_transactions", "can_create_transactions", "can_edit_transactions",
    "can_delete_transactions", "can_export_transactions",
    "can_view_budgets", "can_create_budgets", "can_edit_budgets", "can_delete_budgets",
    "can_view_projects", "can_create_projects", "can_edit_projects", "can_delete_projects",
    "can_view_invoices", "can_create_invoices", "can_edit_invoices", "can_delete_invoices",
    "can_send_invoices",
    "can_view_reports", "can_export_reports",
    "can_approve_transactions", "can_approve_budgets", "can_approve_expenses", "can_approve_invoices"
  ]

  /** Every field of a role, in declaration order: the flags sit between `is_system` and `created_at`. */
  const RoleFields: seq<string> := OwnFields + PermissionFields + StampFields

  /** The fields of a role declared before the flags. */
  const OwnFields: seq<string> := ["id", "organization", "name", "description", "is_owner", "is_system"]

  /** The timestamps declared after the flags. */
  const StampFields: seq<string> := ["created_at", "updated_at"]

  /** Membership of the field list, part by part. */
  lemma InRoleFields(name: string)
    ensures name in RoleFields <==> name in OwnFields || name in PermissionFields || name in StampFields
  {
  }

  /** No flag shares its name with another field of the role. */
  lemma FlagsAreSeparate(name: string)
    requires name in PermissionFields
    ensures name !in OwnFields && name !in StampFields
  {
  }

  /** The flags a new role has switched on: the five view permissions. */
  const ViewFields: set<string> :=
    {"can_view_transactions", "can_view_budgets", "can_view_projects", "can_view_invoices", "can_view_reports"}

  /**
   * A role of one organization. `flags` holds the values of the `can_*`
   * fields; a flag missing from the map reads as False.
   */
  datatype Role = Role(id: nat, org: nat, name: string, description: string, isOwner: bool, isSystem: bool, flags: map<string, bool>)

  /** The flags of a role created with the field defaults. */
  function DefaultFlags(): (m: map<string, bool>)
    ensures forall f :: f in m <==> f in PermissionFields
    ensures forall f :: f in m ==> (m[f] <==> f in ViewFields)
  {
    map f | f in PermissionFields :: f in ViewFields
  }

  /**
   * The truth value of `getattr(role, name, False)` for each model field of
   * a role: a flag's own value; the name and the description are true when
   * non-empty, the id when non-zero; the organization and the timestamps are
   * objects and always true. Any other name gives None, getattr's default.
   */
  function Attribute(r: Role, name: string): (v: Option<bool>)
    ensures v.Some? <==> name in RoleFields
    ensures name in PermissionFields ==> v == Some(name in r.flags && r.flags[name])
    ensures name == "name" ==> v == Some(r.name != "")
    ensures name == "description" ==> v == Some(r.description != "")
  {
    InRoleFields(name);
    if name in PermissionFields then
      FlagsAreSeparate(name);
      Some(name in r.flags && r.flags[name])
    else if name == "is_owner" then Some(r.isOwner)
    else if name == "is_system" then Some(r.isSystem)
    else if name == "id" then Some(r.id != 0)
    else if name == "name" then Some(r.name != "")
    else if name == "description" then Some(r.description != "")
    else if name == "organization" || name in StampFields then Some(true)
    else None
  }

  datatype Member = Member(id: nat, org: nat, user: nat, role: Role, isActive: bool)

  /** `OrganizationMember.has_permission`: the role's attribute of that name, False when it has none. */
  predicate MemberHasPermission(m: Member, name: string) {
    Attribute(m.role, name) == Some(true)
  }

  /** A role created with the defaults grants exactly the five view permissions among the flags. */
  lemma DefaultRoleGrantsViewsOnly(m: Member, name: string)
    requires m.role.flags == DefaultFlags()
    requires name in PermissionFields || name !in RoleFields
    ensures MemberHasPermission(m, name) <==> name in ViewFields
  {
    if name in ViewFields {
      assert name in PermissionFields;
    }
  }

  /**
   * Asking for a role's name as if it were a permission grants it whenever
   * the role has a name: `has_permission` does not check that it is given a
   * flag.
   */
  lemma NameAttributeGrants(m: Member)
    ensures MemberHasPermission(m, "name") <==> m.role.name != ""
  {
  }

  /** A name that is not a field of the role is never a permission, whatever the role. */
  lemma UnknownNameDenied(m: Member, name: string)
    requires name !in RoleFields
    ensures !MemberHasPermission(m, name)
  {
    assert RoleFields[4] == "is_owner" && RoleFields[5] == "is_system";
  }

  /** `Organization.get_member_count`: the active memberships of the organization. */
  function MemberCount(members: seq<Member>, org: nat): (n: nat)
    ensures n <= |members|
  {
    if |members| == 0 then 0
    else
      var last := members[|members| - 1];
      MemberCount(members[..|members| - 1], org) + (if last.org == org && last.isActive then 1 else 0)
  }

  /** The count is 0 exactly when the organization has no active membership. */
  lemma {:induction false} CountZeroIffNoActive(members: seq<Member>, org: nat)
    ensures MemberCount(members, org) == 0 <==> forall m :: m in members && m.org == org ==> !m.isActive
  {
    if |members| > 0 {
      var last := members[|members| - 1];
      var before := members[..|members| - 1];
      assert forall m :: m in members <==> m in before || m == last;
      CountZeroIffNoActive(before, org);
    }
  }

  /** `Organization.can_add_member`: fewer active members than `max_users`. */
  predicate CanAddMember(o: Organization, members: seq<Member>) {
    MemberCount(members, o.id) < o.maxUsers
  }

  /** One more active membership of the organization raises its count by one. */
  lemma {:induction false} CountAfterJoin(members: seq<Member>, m: Member)
    requires m.isActive
    ensures MemberCount(members + [m], m.org) == MemberCount(members, m.org) + 1
  {
    assert (members + [m])[..|members|] == members;
  }

  /** A membership of another organization, or an inactive one, leaves the count as it is. */
  lemma {:induction false} CountAfterOther(members: seq<Member>, m: Member, org: nat)
    requires m.org != org || !m.isActive
    ensures MemberCount(members + [m], org) == MemberCount(members, org)
  {
    assert (members + [m])[..|members|] == members;
  }

  /** Deactivating the membership at index i frees one place when it was an active one of `org`. */
  lemma {:induction false} CountAfterDeactivate(members: seq<Member>, i: nat, org: nat)
    requires i < |members|
    ensures var m := members[i];
      MemberCount(members[i := m.(isActive := false)], org)
        == MemberCount(members, org) - (if m.org == org && m.isActive then 1 else 0)
    decreases |members|
  {
    var m := members[i];
    var after := members[i := m.(isActive := false)];
    var n := |members|;
    if i == n - 1 {
      assert after[..n - 1] == members[..n - 1];
    } else {
      assert after[..n - 1] == members[..n - 1][i := m.(isActive := false)];
      CountAfterDeactivate(members[..n - 1], i, org);
    }
  }

  /** Giving the membership at index i another role leaves every count as it is. */
  lemma {:induction false} CountAfterRoleChange(members: seq<Member>, i: nat, r: Role, org: nat)
    requires i < |members|
    ensures MemberCount(members[i := members[i].(role := r)], org) == MemberCount(members, org)
    decreases |members|
  {
    var after := members[i := members[i].(role := r)];
    var n := |members|;
    if i == n - 1 {
      assert after[..n - 1] == members[..n - 1];
    } else {
      assert after[..n - 1] == members[..n - 1][i := members[i].(role := r)];
      CountAfterRoleChange(members[..n - 1], i, r, org);
    }
  }

  /**
   * The first active membership of `user` in `org`, in the table's order:
   * the row `OrganizationMember.objects.get(user=..., organization=..., is_active=True)` finds.
   */
  function ActiveMember(members: seq<Member>, user: nat, org: nat): (r: Option<Member>)
    ensures r.Some? ==> r.value in members && r.value.user == user && r.value.org == org && r.value.isActive
    ensures r.None? <==> forall m :: m in members && m.user == user && m.org == org ==> !m.isActive
  {
    if |members| == 0 then None
    else if members[0].user == user && members[0].org == org && members[0].isActive then Some(members[0])
    else
      assert forall m :: m in members <==> m == members[0] || m in members[1..];
      ActiveMember(members[1..], user, org)
  }

  datatype RequestStatus = RequestPending | RequestApproved | RequestRejected | RequestExpired

  /** A temporary permission request of one membership, for the days from `start` to `end`. */
  class PermissionRequest {
    var member: nat
    var permissions: map<string, bool>
    var start: CalDate
    var end: CalDate
    var reason: string
    var status: RequestStatus
    var approvedBy: Option<nat>
    var approvedAt: Option<int>
    var rejectionReason: string

    /** A new request is pending, with nobody recorded as having decided it. */
    constructor(member: nat, permissions: map<string, bool>, start: CalDate, end: CalDate, reason: string)
      ensures this.member == member && this.permissions == permissions
      ensures this.start == start && this.end == end && this.reason == reason
      ensures status == RequestPending && approvedBy.None? && approvedAt.None? && rejectionReason == ""
    {
      this.member := member;
      this.permissions := permissions;
      this.start := start;
      this.end := end;
      this.reason := reason;
      status := RequestPending;
      approvedBy := None;
      approvedAt := None;
      rejectionReason := "";
    }

    /** `today` lies in the request's window, both ends included. */
    predicate Covers(today: CalDate)
      reads this
    {
      !Before(today, start) && !Before(end, today)
    }

    /** `is_active`: approved, and the window covers today. */
    predicate IsActive(today: CalDate)
      reads this
    {
      status == RequestApproved && Covers(today)
    }

    /** `approve`: approved by `approver` at `now`; the request is then active exactly on the days of its window. */
    method Approve(approver: nat, now: int)
      modifies this
      ensures status == RequestApproved && approvedBy == Some(approver) && approvedAt == Some(now)
      ensures member == old(member) && permissions == old(permissions) && start == old(start) && end == old(end)
      ensures reason == old(reason) && rejectionReason == old(rejectionReason)
      ensures forall today :: IsActive(today) <==> Covers(today)
    {
      status := RequestApproved;
      approvedBy := Some(approver);
      approvedAt := Some(now);
    }

    /**
     * `reject`: the rejector is recorded in the same `approved_by` field an
     * approval uses, with the time and the reason; the request is then never active.
     */
    method Reject(rejector: nat, why: string, now: int)
      modifies this
      ensures status == RequestRejected && approvedBy == Some(rejector) && approvedAt == Some(now)
      ensures rejectionReason == why
      ensures member == old(member) && permissions == old(permissions) && start == old(start) && end == old(end)
      ensures reason == old(reason)
      ensures forall today :: !IsActive(today)
    {
      status := RequestRejected;
      approvedBy := Some(rejector);
      approvedAt := Some(now);
      rejectionReason := why;
    }
  }

  /** An approval rule: which roles may approve, and how many approvals settle a request. */
  datatype Workflow = Workflow(
    id: nat, org: nat, name: string, entityType: string,
    minAmount: Option<real>, maxAmount: Option<real>,
    labels: set<nat>, approverRoles: set<nat>, approvalsRequired: int, isActive: bool)

  datatype ApprovalStatus = Pending | Approved | Rejected | Cancelled

  /** What the approval methods change: the status, who approved or rejected, why, and when it was settled. */
  datatype Decision = Decision(
    status: ApprovalStatus, approvedBy: set<nat>, rejectedBy: Option<nat>,
    rejectionReason: string, resolvedAt: Option<int>)

  /**
   * `Approval.approve`: the approver joins the set; once the set holds at
   * least `required` users the approval is approved and settled at `now`,
   * otherwise nothing else changes. The prior status is not consulted.
   */
  function AfterApprove(d: Decision, approver: nat, required: int, now: int): (e: Decision)
    ensures e.approvedBy == d.approvedBy + {approver}
    ensures e.rejectedBy == d.rejectedBy && e.rejectionReason == d.rejectionReason
    ensures |e.approvedBy| >= required ==> e.status == Approved && e.resolvedAt == Some(now)
    ensures |e.approvedBy| < required ==> e.status == d.status && e.resolvedAt == d.resolvedAt
  {
    var voters := d.approvedBy + {approver};
    if |voters| >= required then d.(approvedBy := voters, status := Approved, resolvedAt := Some(now))
    else d.(approvedBy := voters)
  }

  /** `Approval.reject`: rejected by `rejector` for `why`, settled at `now`, whatever the prior status. */
  function AfterReject(d: Decision, rejector: nat, why: string, now: int): (e: Decision)
    ensures e == Decision(Rejected, d.approvedBy, Some(rejector), why, Some(now))
  {
    d.(status := Rejected, rejectedBy := Some(rejector), rejectionReason := why, resolvedAt := Some(now))
  }

  /** `Approval.cancel`: cancelled and settled at `now`, whatever the prior status. */
  function AfterCancel(d: Decision, now: int): (e: Decision)
    ensures e == Decision(Cancelled, d.approvedBy, d.rejectedBy, d.rejectionReason, Some(now))
  {
    d.(status := Cancelled, resolvedAt := Some(now))
  }

  /** The same user approving twice at the same moment has the effect of approving once. */
  lemma ApproveIdempotent(d: Decision, approver: nat, required: int, now: int)
    ensures AfterApprove(AfterApprove(d, approver, required, now), approver, required, now)
      == AfterApprove(d, approver, required, now)
  {
    var e := AfterApprove(d, approver, required, now);
    assert e.approvedBy + {approver} == e.approvedBy;
  }

  /** The approvals of a sequence of users, one after another, all at `now`. */
  function ApproveAll(d: Decision, approvers: seq<nat>, required: int, now: int): (e: Decision)
    ensures e.approvedBy == d.approvedBy + set a | a in approvers
    decreases |approvers|
  {
    if |approvers| == 0 then d
    else
      var e := ApproveAll(AfterApprove(d, approvers[0], required, now), approvers[1..], required, now);
      assert forall a :: a in approvers <==> a == approvers[0] || a in approvers[1..];
      e
  }

  /** Once approved, further approvals keep it approved. */
  lemma {:induction false} ApprovedStaysApproved(d: Decision, approvers: seq<nat>, required: int, now: int)
    requires d.status == Approved
    ensures ApproveAll(d, approvers, required, now).status == Approved
    decreases |approvers|
  {
    if |approvers| > 0 {
      ApprovedStaysApproved(AfterApprove(d, approvers[0], required, now), approvers[1..], required, now);
    }
  }

  /** While short of the quorum, further approvals that stay short of it leave the status alone. */
  lemma {:induction false} ShortOfQuorum(d: Decision, approvers: seq<nat>, required: int, now: int)
    requires |d.approvedBy + set a | a in approvers| < required
    ensures ApproveAll(d, approvers, required, now).status == d.status
    decreases |approvers|
  {
    if |approvers| > 0 {
      var e := AfterApprove(d, approvers[0], required, now);
      assert forall a :: a in approvers <==> a == approvers[0] || a in approvers[1..];
      assert e.approvedBy + (set a | a in approvers[1..]) == d.approvedBy + set a | a in approvers;
      assert e.approvedBy <= d.approvedBy + set a | a in approvers;
      SubsetSmaller(e.approvedBy, d.approvedBy + set a | a in approvers);
      ShortOfQuorum(e, approvers[1..], required, now);
    }
  }

  lemma SubsetSmaller(a: set<nat>, b: set<nat>)
    requires a <= b
    ensures |a| <= |b|
  {
    assert b == a + (b - a);
  }

  /**
   * A pending approval short of its quorum ends approved after a sequence of
   * approvals exactly when the users who approved, before and during the
   * sequence, number at least `required`.
   */
  lemma {:induction false} PendingUntilQuorum(d: Decision, approvers: seq<nat>, required: int, now: int)
    requires d.status == Pending && |d.approvedBy| < required
    ensures ApproveAll(d, approvers, required, now).status == Approved
      <==> |d.approvedBy + set a | a in approvers| >= required
    decreases |approvers|
  {
    var all := d.approvedBy + set a | a in approvers;
    if |approvers| == 0 {
      assert all == d.approvedBy;
    } else {
      var e := AfterApprove(d, approvers[0], required, now);
      assert forall a :: a in approvers <==> a == approvers[0] || a in approvers[1..];
      assert e.approvedBy + (set a | a in approvers[1..]) == all;
      if |e.approvedBy| >= required {
        SubsetSmaller(e.approvedBy, all);
        ApprovedStaysApproved(e, approvers[1..], required, now);
      } else {
        PendingUntilQuorum(e, approvers[1..], required, now);
      }
    }
  }

  /**
   * The quorum rule: a pending approval that a non-empty sequence of users
   * approves, starting from nobody, ends approved exactly when at least
   * `required` distinct users took part; repeated approvers count once.
   */
  lemma QuorumReached(approvers: seq<nat>, required: int, now: int)
    requires |approvers| > 0
    ensures var e := ApproveAll(Decision(Pending, {}, None, "", None), approvers, required, now);
      e.status == Approved <==> |set a | a in approvers| >= required
  {
    var start := Decision(Pending, {}, None, "", None);
    assert start.approvedBy + (set a | a in approvers) == set a | a in approvers;
    if required <= 0 {
      var e := AfterApprove(start, approvers[0], required, now);
      assert approvers[0] in set a | a in approvers;
      ApprovedStaysApproved(e, approvers[1..], required, now);
    } else {
      PendingUntilQuorum(start, approvers, required, now);
    }
  }

  /**
   * An approval request. What it is about is fixed when it is created; the
   * decision fields change; `approvedBy` is the set of users who have approved it.
   */
  class Approval {
    const workflow: nat
    const org: nat
    const entityType: string
    const entityId: int
    const entityDescription: string
    const requestedBy: nat
    var status: ApprovalStatus
    var approvedBy: set<nat>
    var rejectedBy: Option<nat>
    var rejectionReason: string
    var resolvedAt: Option<int>

    /** The fields the approval methods change, as one value. */
    function State(): Decision
      reads this
    {
      Decision(status, approvedBy, rejectedBy, rejectionReason, resolvedAt)
    }

    constructor(workflow: nat, org: nat, entityType: string, entityId: int, entityDescription: string, requestedBy: nat)
      ensures this.workflow == workflow && this.org == org && this.entityType == entityType
      ensures this.entityId == entityId && this.entityDescription == entityDescription && this.requestedBy == requestedBy
      ensures State() == Decision(Pending, {}, None, "", None)
    {
      this.workflow := workflow;
      this.org := org;
      this.entityType := entityType;
      this.entityId := entityId;
      this.entityDescription := entityDescription;
      this.requestedBy := requestedBy;
      status := Pending;
      approvedBy := {};
      rejectedBy := None;
      rejectionReason := "";
      resolvedAt := None;
    }

    /** `approve`, with `required` the workflow's `approvals_required`. */
    method Approve(approver: nat, required: int, now: int)
      modifies this
      ensures State() == AfterApprove(old(State()), approver, required, now)
    {
      approvedBy := approvedBy + {approver};
      if |approvedBy| >= required {
        status := Approved;
        resolvedAt := Some(now);
      }
    }

    method Reject(rejector: nat, why: string, now: int)
      modifies this
      ensures State() == AfterReject(old(State()), rejector, why, now)
    {
      status := Rejected;
      rejectedBy := Some(rejector);
      rejectionReason := why;
      resolvedAt := Some(now);
    }

    method Cancel(now: int)
      modifies this
      ensures State() == AfterCancel(old(State()), now)
    {
      status := Cancelled;
      resolvedAt := Some(now);
    }
  }

  /** One audit-trail record. */
  datatype Activity = Activity(
    org: nat, user: nat, action: string, entityType: string, entityId: Option<int>,
    description: string, metadata: map<string, string>, ipAddress: Option<string>, userAgent: string)

  /** The audit trail, appended to by `log_activity`. */
  class ActivityLog {
    var entries: seq<Activity>

    constructor()
      ensures entries == []
    {
      entries := [];
    }
  }

  /** An account: the fields of the user model the team views read. */
  datatype User = User(id: nat, username: string, email: string)

  /**
   * The membership table's keys: one membership per (organization, user)
   * pair, distinct ids, and every id below the next one to be issued.
   */
  predicate MembersWellFormed(members: seq<Member>, nextId: nat) {
    (forall i, j :: 0 <= i < j < |members| ==>
       (members[i].org, members[i].user) != (members[j].org, members[j].user) && members[i].id != members[j].id)
    && (forall i :: 0 <= i < |members| ==> members[i].id < nextId)
  }

  /** Appending a membership for a new (organization, user) pair under the next id keeps the keys well formed. */
  lemma JoinKeepsWellFormed(members: seq<Member>, nextId: nat, m: Member)
    requires MembersWellFormed(members, nextId)
    requires m.id == nextId
    requires forall x :: x in members ==> (x.org, x.user) != (m.org, m.user)
    ensures MembersWellFormed(members + [m], nextId + 1)
  {
    var after := members + [m];
    forall i, j | 0 <= i < j < |after|
      ensures (after[i].org, after[i].user) != (after[j].org, after[j].user) && after[i].id != after[j].id
    {
      if j == |members| {
        assert after[i] in members;
      }
    }
  }

  /** Changing a membership's role or activity, but not its keys, keeps the keys well formed. */
  lemma ReplaceKeepsWellFormed(members: seq<Member>, nextId: nat, k: nat, m: Member)
    requires MembersWellFormed(members, nextId) && k < |members|
    requires m.id == members[k].id && m.org == members[k].org && m.user == members[k].user
    ensures MembersWellFormed(members[k := m], nextId)
  {
  }

  /**
   * The tables the team views work on. `users`, `members` and `requests`
   * are in the tables' default query order; `labels` maps each label id to
   * its organization; `nextId` is the next primary key an insert receives.
   */
  class Database {
    var orgs: map<nat, Organization>
    var users: seq<User>
    var roles: map<nat, Role>
    var labels: map<nat, nat>
    var members: seq<Member>
    var requests: seq<PermissionRequest>
    var workflows: map<nat, Workflow>
    var approvals: map<nat, Approval>
    var nextId: nat

    /**
     * The table constraints the code relies on: records keyed by their own
     * primary key, one membership per
     * (organization, user), member ids below `nextId` and distinct, and
     * every approval's workflow present.
     */
    predicate Valid()
      reads this
    {
      (forall k :: k in orgs ==> orgs[k].id == k)
      && MembersWellFormed(members, nextId)
      && (forall w :: w in workflows ==> w < nextId && workflows[w].id == w)
      && (forall a :: a in approvals ==> approvals[a].workflow in workflows)
    }
  }
}
