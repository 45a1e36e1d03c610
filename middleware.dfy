/**
 * The request context of the team features: which organization a request
 * acts for (from the session, else the user's first active membership),
 * the gate that sends requests without one away, and the client address
 * and user agent kept for the audit trail.
 */
module Middleware {
  import opened Wrappers
  import opened Strings
  import opened TeamModels

  /** The session key holding the organization the user last switched to. */
  const SessionKey: string := "current_organization_id"

  /** The client address and user agent recorded for later audit entries. */
  datatype RequestMetadata = RequestMetadata(ipAddress: Option<string>, userAgent: string)

  /**
   * The parts of an HTTP request the middleware and the views read and set:
   * the authenticated user (None when anonymous), the headers, the session,
   * and the organization context the middleware attaches.
   */
  class Request {
    var user: Option<nat>
    var meta: map<string, string>
    var session: map<string, int>
    var organization: Option<Organization>
    var member: Option<Member>
    var activityMetadata: Option<RequestMetadata>

    constructor(user: Option<nat>, meta: map<string, string>, session: map<string, int>)
      ensures this.user == user && this.meta == meta && this.session == session
      ensures organization.None? && member.None? && activityMetadata.None?
    {
      this.user := user;
      this.meta := meta;
      this.session := session;
      organization := None;
      member := None;
      activityMetadata := None;
    }

    /** The context the organization middleware guarantees: a member of that organization, active, of this user. */
    predicate ContextConsistent()
      reads this
    {
      (organization.Some? <==> member.Some?)
      && (organization.Some? ==>
            user.Some? && member.value.user == user.value && member.value.org == organization.value.id
            && member.value.isActive && organization.value.isActive)
    }
  }

  /** Where a decorated view sends a request it refuses, or Proceed to run the view. */
  datatype Gate = Proceed | RedirectTo(url: string)

  /** `organization_required`: to the login page when anonymous, home when there is no organization. */
  function OrganizationRequired(user: Option<nat>, org: Option<Organization>): Gate {
    if user.None? then RedirectTo("login")
    else if org.None? then RedirectTo("home")
    else Proceed
  }

  /** The organization id stored in the session, when present and truthy. */
  function SessionOrg(session: map<string, int>): Option<int> {
    if SessionKey in session && session[SessionKey] != 0 then Some(session[SessionKey]) else None
  }

  /**
   * The membership behind a session organization: the organization exists
   * and is active, and the user has an active membership in it.
   */
  function SessionMembership(orgs: map<nat, Organization>, members: seq<Member>, user: nat, id: int): (r: Option<Member>)
    ensures r.Some? ==> r.value in members && r.value.org == id && r.value.user == user && r.value.isActive
    ensures r.Some? ==> r.value.org in orgs && orgs[r.value.org].isActive
  {
    if id >= 0 && id in orgs && orgs[id].isActive then ActiveMember(members, user, id) else None
  }

  /** An active membership of the user in an active organization. */
  predicate Usable(orgs: map<nat, Organization>, m: Member, user: nat) {
    m.user == user && m.isActive && m.org in orgs && orgs[m.org].isActive
  }

  /** The user's first active membership in an active organization, in the table's order. */
  function PrimaryMember(orgs: map<nat, Organization>, members: seq<Member>, user: nat): (r: Option<Member>)
    ensures r.Some? ==> r.value in members && Usable(orgs, r.value, user)
    ensures r.None? <==> forall m :: m in members ==> !Usable(orgs, m, user)
  {
    if |members| == 0 then None
    else if Usable(orgs, members[0], user) then Some(members[0])
    else
      assert forall m :: m in members <==> m == members[0] || m in members[1..];
      PrimaryMember(orgs, members[1..], user)
  }

  /**
   * `OrganizationMiddleware.process_request`. Anonymous requests get no
   * context. A truthy session organization with an active membership is
   * used as it is; an unusable one is removed from the session. Otherwise
   * the first usable membership is taken and its organization written to
   * the session; with none, the context stays empty.
   */
  method ProcessRequest(req: Request, db: Database)
    requires db.Valid()
    modifies req
    ensures req.user == old(req.user) && req.meta == old(req.meta)
    ensures req.activityMetadata == old(req.activityMetadata)
    ensures req.ContextConsistent()
    ensures req.organization.Some? <==>
      req.user.Some? && exists m :: m in db.members && Usable(db.orgs, m, req.user.value)
    ensures req.user.None? ==> req.session == old(req.session)
    ensures req.user.Some? ==>
      var u := req.user.value;
      match SessionOrg(old(req.session))
      case Some(id) =>
        if SessionMembership(db.orgs, db.members, u, id).Some? then
          req.member == SessionMembership(db.orgs, db.members, u, id)
          && req.session == old(req.session)
        else
          FallBack(req, db, old(req.session) - {SessionKey})
      case None => FallBack(req, db, old(req.session))
  {
    if req.user.None? {
      req.organization := None;
      req.member := None;
      return;
    }
    var u := req.user.value;
    var orgId := SessionOrg(req.session);
    if orgId.Some? {
      var found := SessionMembership(db.orgs, db.members, u, orgId.value);
      if found.Some? {
        req.organization := Some(db.orgs[found.value.org]);
        req.member := found;
        return;
      }
      req.session := req.session - {SessionKey};
    }
    var first := PrimaryMember(db.orgs, db.members, u);
    if first.Some? {
      req.organization := Some(db.orgs[first.value.org]);
      req.member := first;
      req.session := req.session[SessionKey := first.value.org];
    } else {
      req.organization := None;
      req.member := None;
    }
  }

  /**
   * The fallback of the middleware, given the session it starts from: the
   * first usable membership and its organization, also written to the
   * session, or no context and the session as it was.
   */
  predicate FallBack(req: Request, db: Database, session: map<string, int>)
    reads req, db
  {
    req.user.Some? &&
    match PrimaryMember(db.orgs, db.members, req.user.value)
    case Some(m) => req.member == Some(m) && req.session == session[SessionKey := m.org]
    case None => req.member.None? && req.organization.None? && req.session == session
  }

  /**
   * After the middleware, `organization_required` lets a request through
   * exactly when its user is signed in and has an active membership in an
   * active organization.
   */
  lemma OrganizationRequiredAfterMiddleware(user: Option<nat>, org: Option<Organization>, orgs: map<nat, Organization>, members: seq<Member>)
    requires org.Some? <==> user.Some? && exists m :: m in members && Usable(orgs, m, user.value)
    ensures OrganizationRequired(user, org) == Proceed <==>
      user.Some? && exists m :: m in members && Usable(orgs, m, user.value)
    ensures user.None? ==> OrganizationRequired(user, org) == RedirectTo("login")
  {
  }

  /** The first comma-separated field of a header value: the text before the first comma, or all of it. */
  lemma FirstField(s: string)
    ensures var f := Split(s, ',')[0];
      StartsWith(s, f) && ',' !in f && (|f| == |s| || s[|f|] == ',')
  {
    var k := IndexOf(s, ',');
    if k >= 0 {
      assert s == s[..k] + [','] + s[k + 1..];
    }
  }

  /**
   * `get_client_ip`: the first field of a non-empty X-Forwarded-For header,
   * taken as it is (not stripped), else the REMOTE_ADDR entry, if any.
   */
  function GetClientIp(meta: map<string, string>): (ip: Option<string>)
    ensures "HTTP_X_FORWARDED_FOR" in meta && meta["HTTP_X_FORWARDED_FOR"] != "" ==>
      var x := meta["HTTP_X_FORWARDED_FOR"];
      ip.Some? && StartsWith(x, ip.value) && ',' !in ip.value && (|ip.value| == |x| || x[|ip.value|] == ',')
    ensures !("HTTP_X_FORWARDED_FOR" in meta && meta["HTTP_X_FORWARDED_FOR"] != "") ==>
      ip == (if "REMOTE_ADDR" in meta then Some(meta["REMOTE_ADDR"]) else None)
  {
    if "HTTP_X_FORWARDED_FOR" in meta && meta["HTTP_X_FORWARDED_FOR"] != "" then
      FirstField(meta["HTTP_X_FORWARDED_FOR"]);
      Some(Split(meta["HTTP_X_FORWARDED_FOR"], ',')[0])
    else if "REMOTE_ADDR" in meta then Some(meta["REMOTE_ADDR"])
    else None
  }

  /** The user agent kept for the audit trail: at most 512 characters of the header. */
  function UserAgent(meta: map<string, string>): (ua: string)
    ensures |ua| <= 512
    ensures "HTTP_USER_AGENT" in meta ==> StartsWith(meta["HTTP_USER_AGENT"], ua)
    ensures "HTTP_USER_AGENT" in meta && |meta["HTTP_USER_AGENT"]| <= 512 ==> ua == meta["HTTP_USER_AGENT"]
    ensures "HTTP_USER_AGENT" !in meta ==> ua == ""
  {
    Take(if "HTTP_USER_AGENT" in meta then meta["HTTP_USER_AGENT"] else "", 512)
  }

  /** `ActivityLoggingMiddleware.process_request`: records the client address and user agent on the request. */
  method RecordRequestMetadata(req: Request)
    modifies req
    ensures req.activityMetadata == Some(RequestMetadata(GetClientIp(req.meta), UserAgent(req.meta)))
    ensures req.user == old(req.user) && req.meta == old(req.meta) && req.session == old(req.session)
    ensures req.organization == old(req.organization) && req.member == old(req.member)
  {
    req.activityMetadata := Some(RequestMetadata(GetClientIp(req.meta), UserAgent(req.meta)));
  }
}
