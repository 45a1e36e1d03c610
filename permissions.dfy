/**
 * Permission decisions for the team features: a member's role flags widened
 * by an approved temporary request, the two view guards built on them, the
 * permission listing, and the audit-trail writer.
 */
module Permissions {
  import opened Wrappers
  import opened Strings
  import opened Dates
  import opened TeamModels
  import opened Middleware

  /** A JSON reply of a view: HTTP status, the `ok` field and the error text ("" when none). */
  datatype Response = Response(status: nat, ok: bool, error: string)

  /** The member's approved requests covering `today`: the filter `has_permission` applies. */
  predicate Consulted(q: PermissionRequest, member: nat, today: CalDate)
    reads q
  {
    q.member == member && q.IsActive(today)
  }

  /**
   * The index of the first request, in the table's order, that is the
   * member's, approved and covering today; -1 when there is none.
   */
  function FirstActiveRequest(requests: seq<PermissionRequest>, member: nat, today: CalDate): (k: int)
    reads requests
    ensures -1 <= k < |requests|
    ensures k >= 0 ==> Consulted(requests[k], member, today)
    ensures forall j :: 0 <= j < |requests| && (k < 0 || j < k) ==> !Consulted(requests[j], member, today)
  {
    if |requests| == 0 then -1
    else if Consulted(requests[0], member, today) then 0
    else
      var k := FirstActiveRequest(requests[1..], member, today);
      if k < 0 then -1 else k + 1
  }

  /** `permissions.get(name, False)` of a request's JSON object. */
  predicate Grants(q: PermissionRequest, name: string)
    reads q
  {
    name in q.permissions && q.permissions[name]
  }

  /**
   * `has_permission`. False without a user or an organization, and False
   * when the user has no active membership there. Otherwise the role's flag
   * decides when it is set; failing that, only the first approved request
   * covering today is consulted, and it grants what its object sets.
   */
  function HasPermission(user: Option<nat>, org: Option<Organization>, members: seq<Member>,
                         requests: seq<PermissionRequest>, name: string, today: CalDate): (r: bool)
    reads requests
    ensures user.None? || org.None? ==> !r
    ensures user.Some? && org.Some? && ActiveMember(members, user.value, org.value.id).None? ==> !r
    ensures user.Some? && org.Some? ==>
      match ActiveMember(members, user.value, org.value.id)
      case Some(m) => MemberHasPermission(m, name) ==> r
      case None => true
  {
    if user.None? || org.None? then false
    else
      match ActiveMember(members, user.value, org.value.id)
      case None => false
      case Some(m) =>
        if MemberHasPermission(m, name) then true
        else
          var k := FirstActiveRequest(requests, m.id, today);
          k >= 0 && Grants(requests[k], name)
  }

  /**
   * A request grants something only on the days it is approved and covers:
   * with none of the member's requests active today, the role alone decides.
   */
  lemma RoleAloneWithoutActiveRequest(user: nat, org: Organization, members: seq<Member>,
                                      requests: seq<PermissionRequest>, name: string, today: CalDate)
    requires ActiveMember(members, user, org.id).Some?
    requires forall q :: q in requests && q.member == ActiveMember(members, user, org.id).value.id ==> !q.IsActive(today)
    ensures HasPermission(Some(user), Some(org), members, requests, name, today)
      <==> MemberHasPermission(ActiveMember(members, user, org.id).value, name)
  {
  }

  /**
   * Only the first active request counts: when it does not set the
   * permission and the role lacks it, the answer is False even if a later
   * active request of the same member sets it.
   */
  lemma LaterRequestShadowed(user: nat, org: Organization, members: seq<Member>,
                             requests: seq<PermissionRequest>, name: string, today: CalDate, i: nat, j: nat)
    requires ActiveMember(members, user, org.id).Some?
    requires !MemberHasPermission(ActiveMember(members, user, org.id).value, name)
    requires i < j < |requests|
    requires Consulted(requests[i], ActiveMember(members, user, org.id).value.id, today) && !Grants(requests[i], name)
    requires forall h :: 0 <= h < i ==> !Consulted(requests[h], ActiveMember(members, user, org.id).value.id, today)
    requires Consulted(requests[j], ActiveMember(members, user, org.id).value.id, today) && Grants(requests[j], name)
    ensures !HasPermission(Some(user), Some(org), members, requests, name, today)
  {
  }

  /**
   * `require_permission_ajax`: 401 without a user, 403 without an
   * organization or without the permission; None lets the view run.
   */
  function RequirePermissionAjax(user: Option<nat>, org: Option<Organization>, members: seq<Member>,
                                 requests: seq<PermissionRequest>, name: string, today: CalDate): (g: Option<Response>)
    reads requests
    ensures g.None? <==> HasPermission(user, org, members, requests, name, today)
    ensures g.Some? ==> !g.value.ok && (g.value.status == 401 <==> user.None?) && (user.Some? ==> g.value.status == 403)
  {
    if user.None? then Some(Response(401, false, "Authentication required"))
    else if org.None? then Some(Response(403, false, "No organization selected"))
    else if !HasPermission(user, org, members, requests, name, today) then Some(Response(403, false, "Permission denied"))
    else None
  }

  /** `require_permission`: to the login page without a user, to `redirectUrl` without an organization or the permission. */
  function RequirePermission(user: Option<nat>, org: Option<Organization>, members: seq<Member>,
                             requests: seq<PermissionRequest>, name: string, redirectUrl: string, today: CalDate): (g: Gate)
    reads requests
    ensures g == Proceed <==> HasPermission(user, org, members, requests, name, today)
    ensures user.None? ==> g == RedirectTo("login")
    ensures user.Some? && g != Proceed ==> g == RedirectTo(redirectUrl)
  {
    if user.None? then RedirectTo("login")
    else if org.None? then RedirectTo(redirectUrl)
    else if !HasPermission(user, org, members, requests, name, today) then RedirectTo(redirectUrl)
    else Proceed
  }

  /**
   * `get_user_permissions`: for a signed-in user with an active membership,
   * the value of every role field named `can_*`; otherwise the empty map.
   * Every permission it reports as set is one `has_permission` grants.
   */
  method GetUserPermissions(user: Option<nat>, org: Option<Organization>, members: seq<Member>,
                            requests: seq<PermissionRequest>, today: CalDate) returns (perms: map<string, bool>)
    ensures user.None? || org.None? || ActiveMember(members, user.value, org.value.id).None? ==> perms == map[]
    ensures user.Some? && org.Some? && ActiveMember(members, user.value, org.value.id).Some? ==>
      var m := ActiveMember(members, user.value, org.value.id).value;
      (forall f :: f in perms <==> f in RoleFields && StartsWith(f, "can_"))
      && (forall f :: f in perms ==> (perms[f] <==> MemberHasPermission(m, f)))
    ensures forall f :: f in perms && perms[f] ==> HasPermission(user, org, members, requests, f, today)
  {
    perms := map[];
    if user.None? || org.None? {
      return;
    }
    var found := ActiveMember(members, user.value, org.value.id);
    if found.None? {
      return;
    }
    var role := found.value.role;
    for i := 0 to |RoleFields|
      invariant forall f :: f in perms <==> f in RoleFields[..i] && StartsWith(f, "can_")
      invariant forall f :: f in perms ==> (perms[f] <==> MemberHasPermission(found.value, f))
    {
      var field := RoleFields[i];
      assert RoleFields[..i + 1] == RoleFields[..i] + [field];
      if StartsWith(field, "can_") {
        perms := perms[field := Attribute(role, field) == Some(true)];
      }
    }
    assert RoleFields[..|RoleFields|] == RoleFields;
  }

  /** What `entity_type or ''` leaves. */
  function OrEmpty(s: Option<string>): string {
    if s.Some? then s.value else ""
  }

  /**
   * `log_activity`: nothing is written without an organization or a user;
   * otherwise one entry is appended, with the client address and user agent
   * the request recorded (none and "" without them), an absent entity type
   * written as "" and absent metadata as the empty object.
   */
  method LogActivity(log: ActivityLog, org: Option<nat>, user: Option<nat>, action: string,
                     entityType: Option<string>, entityId: Option<int>, description: string,
                     metadata: Option<map<string, string>>, request: Option<Request>) returns (a: Option<Activity>)
    modifies log
    ensures org.None? || user.None? ==> a.None? && log.entries == old(log.entries)
    ensures org.Some? && user.Some? ==>
      var md := if request.Some? then request.value.activityMetadata else None;
      a == Some(Activity(org.value, user.value, action, OrEmpty(entityType), entityId, description,
                         if metadata.Some? then metadata.value else map[],
                         if md.Some? then md.value.ipAddress else None,
                         if md.Some? then md.value.userAgent else ""))
      && log.entries == old(log.entries) + [a.value]
  {
    if org.None? || user.None? {
      return None;
    }
    var ip: Option<string> := None;
    var agent := "";
    if request.Some? && request.value.activityMetadata.Some? {
      ip := request.value.activityMetadata.value.ipAddress;
      agent := request.value.activityMetadata.value.userAgent;
    }
    var entry := Activity(org.value, user.value, action, OrEmpty(entityType), entityId, description,
                          if metadata.Some? then metadata.value else map[], ip, agent);
    log.entries := log.entries + [entry];
    a := Some(entry);
  }
}
