/** The two request middlewares: the deactivated-staff gate and the home-page visitor log. */
module Middleware {
  import opened Common
  import opened Strings

  /** The requesting user: anonymous, or logged in with a staff profile's active flag when there is one. */
  datatype RequestUser = Anonymous | LoggedIn(staffActive: Option<bool>)

  datatype Decision = PassThrough | RedirectDeactivated

  /**
   * `StaffActiveMiddleware.__call__`: an inactive staff user is sent to the
   * deactivated notice unless the path is one of the always-allowed pages.
   */
  function StaffActiveDecision(user: RequestUser, path: string, allowed: seq<string>): (d: Decision)
    ensures d == RedirectDeactivated <==>
      user.LoggedIn? && user.staffActive == Some(false) && path !in allowed
  {
    match user
    case Anonymous => PassThrough
    case LoggedIn(staffActive) =>
      if staffActive.Some? && !staffActive.value && path !in allowed then RedirectDeactivated
      else PassThrough
  }

  /** An inactive staff user can always reach the allowed pages, so the redirect target never redirects again. */
  lemma AllowedPagesAlwaysReachable(user: RequestUser, path: string, allowed: seq<string>)
    requires path in allowed
    ensures StaffActiveDecision(user, path, allowed) == PassThrough
  {
  }

  /**
   * `get_client_ip`: the text before the first comma of a non-empty
   * X-Forwarded-For header, as it stands (not trimmed), else REMOTE_ADDR.
   */
  function ClientIp(forwardedFor: Option<string>, remoteAddr: Option<string>): (ip: Option<string>)
    ensures forwardedFor.Some? && forwardedFor.value != "" ==>
      ip.Some? && !Contains(ip.value, ",") &&
      |ip.value| <= |forwardedFor.value| && ip.value == forwardedFor.value[..|ip.value|] &&
      (|ip.value| < |forwardedFor.value| ==> forwardedFor.value[|ip.value|] == ',')
    ensures !(forwardedFor.Some? && forwardedFor.value != "") ==> ip == remoteAddr
  {
    if forwardedFor.Some? && forwardedFor.value != "" then
      SplitHead(forwardedFor.value, ",");
      SplitPartsFree(forwardedFor.value, ",");
      Some(Split(forwardedFor.value, ",")[0])
    else remoteAddr
  }

  /** The request fields the visitor log reads. */
  datatype Request = Request(
    path: string,
    method_: string,
    userId: Option<int>,
    sessionKey: Option<string>,
    forwardedFor: Option<string>,
    remoteAddr: Option<string>,
    userAgent: Option<string>,
    referer: Option<string>)

  /** One visitor log row. */
  datatype Visit = Visit(
    userId: Option<int>,
    sessionKey: string,
    ip: Option<string>,
    userAgent: Option<string>,
    path: string,
    referer: Option<string>)

  predicate IsHomeVisit(req: Request) {
    req.path == "/" && req.method_ == "GET"
  }

  /** The visitor log, appended to by the middleware. */
  class VisitorTracking {
    var log: seq<Visit>

    constructor ()
      ensures log == []
    {
      log := [];
    }

    /**
     * `VisitorTrackingMiddleware.__call__`: a GET of exactly "/" is logged,
     * creating a session first when there is none (`newKey` stands for the key
     * the session store would create); the request then goes on unchanged.
     * Returns the request's session key afterwards.
     */
    method Track(req: Request, newKey: string) returns (sessionKey: Option<string>)
      modifies this
      ensures !IsHomeVisit(req) ==> log == old(log) && sessionKey == req.sessionKey
      ensures IsHomeVisit(req) ==>
        var key := if req.sessionKey.Some? && req.sessionKey.value != "" then req.sessionKey.value else newKey;
        sessionKey == Some(key) &&
        log == old(log) + [Visit(req.userId, key, ClientIp(req.forwardedFor, req.remoteAddr),
                                 req.userAgent, req.path, req.referer)]
    {
      sessionKey := req.sessionKey;
      if req.path == "/" && req.method_ == "GET" {
        if sessionKey.None? || sessionKey.value == "" {
          sessionKey := Some(newKey);
        }
        var ip := ClientIp(req.forwardedFor, req.remoteAddr);
        log := log + [Visit(req.userId, sessionKey.value, ip, req.userAgent, req.path, req.referer)];
      }
    }
  }
}
